/**
 * The one-off clean-up of the families file: every optional text becomes a
 * string, every optional list a list, and a missing name or house name an
 * empty English/Malayalam pair. The script mutates each parsed record in
 * place; a parsed JSON tree shares no objects, so here each record is a
 * value updated field by field.
 */
module NormalizeData {
  import opened Wrappers
  import opened Text
  import opened Records
  import FamilyContext

  /** `normalizeString`: `null`/`undefined` become the empty string, anything else is kept. */
  function NormalizeString(val: Option<string>): (r: Option<string>)
    ensures r.Some?
    ensures val.Some? ==> r == val
    ensures val.None? ==> r.value == ""
  {
    if val.None? then Some("") else val
  }

  /** `normalizeArray`: anything that is not an array becomes the empty array, arrays are kept. */
  function NormalizeArray<T>(val: Option<seq<T>>): (r: Option<seq<T>>)
    ensures r.Some?
    ensures val.Some? ==> r == val
    ensures val.None? ==> r.value == []
  {
    if val.None? then Some([]) else val
  }

  /** The pair put in place of a missing `name` or `house_name`. */
  const EmptyNames: Names := Names(Some(""), Some(""))

  /** A pair that is present with both halves present. */
  predicate Filled(n: Option<Names>) {
    n.Some? && n.value.en.Some? && n.value.ml.Some?
  }

  /** Creating the pair when missing, then normalising `en` and `ml`. */
  function FillNames(n: Option<Names>): Names {
    var pair := n.GetOr(EmptyNames);
    Names(NormalizeString(pair.en), NormalizeString(pair.ml))
  }

  // ---------------------------------------------------------------------
  // The record as the script leaves it
  // ---------------------------------------------------------------------

  predicate PrimaryNormalized(p: Person) {
    p.bloodGroup.Some? && p.phone.Some? && Filled(p.name)
  }

  /** A member entry is an object (not `null`) with its blood group and name pair in place. */
  predicate MemberNormalized(m: Option<Person>) {
    m.Some? && m.value.bloodGroup.Some? && Filled(m.value.name)
  }

  predicate IsNormalized(f: Family) {
    && (f.primaryMember.Some? ==> PrimaryNormalized(f.primaryMember.value))
    && (f.address.Some? ==> Filled(f.address.value.houseName))
    && f.familyMembers.Some?
    && forall i :: 0 <= i < |f.familyMembers.value| ==> MemberNormalized(f.familyMembers.value[i])
  }

  // ---------------------------------------------------------------------
  // What the `families.map` body computes, as a function
  // ---------------------------------------------------------------------

  function NormalizedPrimary(p: Person): Person {
    p.(bloodGroup := NormalizeString(p.bloodGroup), phone := NormalizeArray(p.phone), name := Some(FillNames(p.name)))
  }

  /** Members get blood group and name only; their phone is left as it is. */
  function NormalizedMember(p: Person): Person {
    p.(bloodGroup := NormalizeString(p.bloodGroup), name := Some(FillNames(p.name)))
  }

  function NormalizedAddress(a: Address): Address {
    a.(houseName := Some(FillNames(a.houseName)))
  }

  /**
   * The record after the `families.map` body, or `None` when the body throws:
   * a `null` entry of `family_members` fails on `m.blood_group = …`.
   */
  function Normalized(f: Family): Option<Family> {
    var members := NormalizeArray(f.familyMembers).value;
    if None in members then None
    else Some(f.(
      primaryMember := if f.primaryMember.Some? then Some(NormalizedPrimary(f.primaryMember.value)) else None,
      address := if f.address.Some? then Some(NormalizedAddress(f.address.value)) else None,
      familyMembers := Some(seq(|members|, i requires 0 <= i < |members| && members[i].Some? =>
        Some(NormalizedMember(members[i].value))))))
  }

  /** The `families.map` body: the same updates, one field at a time. */
  method NormalizeFamily(f: Family) returns (r: Option<Family>)
    ensures r == Normalized(f)
  {
    var g := f;
    if g.primaryMember.Some? {
      var pm := g.primaryMember.value;
      pm := pm.(bloodGroup := NormalizeString(pm.bloodGroup));
      pm := pm.(phone := NormalizeArray(pm.phone));
      if pm.name.None? {
        pm := pm.(name := Some(EmptyNames));
      }
      pm := pm.(name := Some(pm.name.value.(en := NormalizeString(pm.name.value.en))));
      pm := pm.(name := Some(pm.name.value.(ml := NormalizeString(pm.name.value.ml))));
      g := g.(primaryMember := Some(pm));
    }
    if g.address.Some? {
      var a := g.address.value;
      if a.houseName.None? {
        a := a.(houseName := Some(EmptyNames));
      }
      a := a.(houseName := Some(a.houseName.value.(en := NormalizeString(a.houseName.value.en))));
      a := a.(houseName := Some(a.houseName.value.(ml := NormalizeString(a.houseName.value.ml))));
      g := g.(address := Some(a));
    }
    var members := NormalizeArray(g.familyMembers).value;
    var out: seq<Option<Person>> := [];
    for i := 0 to |members|
      invariant |out| == i
      invariant None !in members[..i]
      invariant forall j :: 0 <= j < i ==> members[j].Some? && out[j] == Some(NormalizedMember(members[j].value))
    {
      if members[i].None? {
        assert members[i] in members;
        return None;
      }
      var m := members[i].value;
      m := m.(bloodGroup := NormalizeString(m.bloodGroup));
      if m.name.None? {
        m := m.(name := Some(EmptyNames));
      }
      m := m.(name := Some(m.name.value.(en := NormalizeString(m.name.value.en))));
      m := m.(name := Some(m.name.value.(ml := NormalizeString(m.name.value.ml))));
      assert members[..i + 1] == members[..i] + [members[i]];
      out := out + [Some(m)];
    }
    assert members[..|members|] == members;
    assert None !in members;
    var expected := Normalized(f).value;
    assert out == expected.familyMembers.value by {
      assert |out| == |expected.familyMembers.value|;
      forall j | 0 <= j < |out| ensures out[j] == expected.familyMembers.value[j] {
      }
    }
    g := g.(familyMembers := Some(out));
    return Some(g);
  }

  /** The whole file: `None` when some record throws, otherwise every record normalised, in order. */
  function NormalizedList(families: seq<Family>): (r: Option<seq<Family>>)
    ensures r.None? <==> exists i :: 0 <= i < |families| && Normalized(families[i]).None?
    ensures r.Some? ==> |r.value| == |families| && forall i :: 0 <= i < |families| ==> Normalized(families[i]) == Some(r.value[i])
    decreases |families|
  {
    if families == [] then Some([])
    else
      var head := Normalized(families[0]);
      var rest := NormalizedList(families[1..]);
      if head.None? then None
      else if rest.None? then (assert forall i :: 1 <= i < |families| ==> families[i] == families[1..][i - 1]; None)
      else Some([head.value] + rest.value)
  }

  /** `families.map(...)` over the whole file. */
  method NormalizeFamilies(families: seq<Family>) returns (r: Option<seq<Family>>)
    ensures r == NormalizedList(families)
  {
    var out: seq<Family> := [];
    var i := 0;
    while i < |families|
      invariant 0 <= i <= |families|
      invariant |out| == i
      invariant forall j :: 0 <= j < i ==> Normalized(families[j]) == Some(out[j])
    {
      var g := NormalizeFamily(families[i]);
      if g.None? {
        return None;
      }
      out := out + [g.value];
      i := i + 1;
    }
    ListIsDeterminedByRecords(families, out);
    return Some(out);
  }

  /** `NormalizedList` is pinned down by its contract: records that all normalise give that list. */
  lemma ListIsDeterminedByRecords(families: seq<Family>, out: seq<Family>)
    requires |out| == |families|
    requires forall j :: 0 <= j < |families| ==> Normalized(families[j]) == Some(out[j])
    ensures NormalizedList(families) == Some(out)
  {
    var r := NormalizedList(families);
    assert r.Some?;
    assert forall j :: 0 <= j < |families| ==> r.value[j] == out[j];
    assert r.value == out;
  }

  // ---------------------------------------------------------------------
  // What normalisation guarantees
  // ---------------------------------------------------------------------

  /**
   * A normalised record has blood group, phone list and name pair on its
   * primary member, a house-name pair on its address, and a member list
   * whose every entry has blood group and name pair.
   */
  lemma NormalizeEstablishes(f: Family)
    ensures Normalized(f).Some? ==> IsNormalized(Normalized(f).value)
  {
  }

  /** The script throws on a record exactly when `family_members` is an array holding `null`. */
  lemma NormalizeFailsOnlyOnNullMember(f: Family)
    ensures Normalized(f).None? <==> f.familyMembers.Some? && None in f.familyMembers.value
  {
  }

  /**
   * Present values are never changed: id, present texts and lists, ages,
   * location, geo and map link all survive, absent primary member and
   * address stay absent, and members keep their number, order and phones.
   */
  lemma NormalizeKeepsPresentValues(f: Family)
    requires Normalized(f).Some?
    ensures Normalized(f).value.id == f.id
    ensures Normalized(f).value.primaryMember.Some? == f.primaryMember.Some?
    ensures Normalized(f).value.address.Some? == f.address.Some?
    ensures f.address.Some? ==> AddressKept(f.address.value, Normalized(f).value.address.value)
    ensures f.primaryMember.Some? ==> PersonKept(f.primaryMember.value, Normalized(f).value.primaryMember.value)
    ensures f.primaryMember.Some? && f.primaryMember.value.phone.Some? ==>
      Normalized(f).value.primaryMember.value.phone == f.primaryMember.value.phone
    ensures f.familyMembers.Some? ==> |Normalized(f).value.familyMembers.value| == |f.familyMembers.value|
    ensures f.familyMembers.None? ==> Normalized(f).value.familyMembers == Some([])
    ensures forall i :: 0 <= i < |Normalized(f).value.familyMembers.value| ==>
      && f.familyMembers.value[i].Some?
      && PersonKept(f.familyMembers.value[i].value, Normalized(f).value.familyMembers.value[i].value)
      && Normalized(f).value.familyMembers.value[i].value.phone == f.familyMembers.value[i].value.phone
  {
  }

  /** Location, geo and map link are untouched; the present halves of the house name are kept. */
  predicate AddressKept(before: Address, after: Address) {
    && after.location == before.location
    && after.geo == before.geo
    && after.mapsUrl == before.mapsUrl
    && after.houseName.Some?
    && (before.houseName.Some? ==> PairKept(before.houseName.value, after.houseName.value))
    && (before.houseName.None? ==> after.houseName == Some(EmptyNames))
  }

  /** The present halves of a name pair are kept. */
  predicate PairKept(before: Names, after: Names) {
    && (before.en.Some? ==> after.en == before.en)
    && (before.ml.Some? ==> after.ml == before.ml)
  }

  /** A person's present name halves, blood group and age are kept. */
  predicate PersonKept(before: Person, after: Person) {
    && after.age == before.age
    && (before.bloodGroup.Some? ==> after.bloodGroup == before.bloodGroup)
    && (before.name.Some? ==> after.name.Some? && PairKept(before.name.value, after.name.value))
    && (before.name.None? ==> after.name == Some(EmptyNames))
  }

  /** A record that is already normalised comes back unchanged. */
  lemma NormalizedRecordIsFixed(f: Family)
    requires IsNormalized(f)
    ensures Normalized(f) == Some(f)
  {
    var ms := f.familyMembers.value;
    assert None !in ms by {
      forall i | 0 <= i < |ms| ensures ms[i] != None {
        assert MemberNormalized(ms[i]);
      }
    }
    var g := Normalized(f).value;
    assert g.familyMembers.value == ms by {
      forall i | 0 <= i < |ms| ensures g.familyMembers.value[i] == ms[i] {
        assert MemberNormalized(ms[i]);
      }
    }
  }

  /** Running the script twice is the same as running it once. */
  lemma NormalizeIdempotent(f: Family)
    requires Normalized(f).Some?
    ensures Normalized(Normalized(f).value) == Normalized(f)
  {
    NormalizeEstablishes(f);
    NormalizedRecordIsFixed(Normalized(f).value);
  }

  /** On a whole file: a normalised file comes back unchanged, and normalising twice is normalising once. */
  lemma NormalizeListIdempotent(families: seq<Family>)
    ensures (forall i :: 0 <= i < |families| ==> IsNormalized(families[i])) ==> NormalizedList(families) == Some(families)
    ensures NormalizedList(families).Some? ==> NormalizedList(NormalizedList(families).value) == NormalizedList(families)
  {
    if forall i :: 0 <= i < |families| ==> IsNormalized(families[i]) {
      forall i | 0 <= i < |families| ensures Normalized(families[i]) == Some(families[i]) {
        NormalizedRecordIsFixed(families[i]);
      }
      ListIsDeterminedByRecords(families, families);
    }
    var r := NormalizedList(families);
    if r.Some? {
      forall i | 0 <= i < |r.value| ensures Normalized(r.value[i]) == Some(r.value[i]) {
        NormalizeEstablishes(families[i]);
        NormalizedRecordIsFixed(r.value[i]);
      }
      ListIsDeterminedByRecords(r.value, r.value);
    }
  }

  // ---------------------------------------------------------------------
  // Normalisation and the search
  // ---------------------------------------------------------------------

  /** A filled-in empty string matches no non-empty query, lowered or raw. */
  lemma EmptyMatchesNothing(query: string)
    requires query != ""
    ensures !Contains("", query) && !Contains(Lower(""), Lower(query))
  {
    EmptyContainsOnlyEmpty(query);
    EmptyContainsOnlyEmpty(Lower(query));
  }

  lemma MemberMatchKept(m: Person, query: string)
    requires query != ""
    ensures FamilyContext.MemberMatch(Some(NormalizedMember(m)), query) == FamilyContext.MemberMatch(Some(m), query)
  {
    EmptyMatchesNothing(query);
  }

  /**
   * For a non-empty query, the search keeps a record exactly when it keeps
   * its normalised form: the texts filled in are empty and the search
   * already read a missing text as empty or as no match.
   */
  lemma NormalizeKeepsSearchResult(f: Family, query: string)
    requires query != ""
    requires Normalized(f).Some?
    ensures FamilyContext.Matches(Normalized(f).value, query) == FamilyContext.Matches(f, query)
  {
    var g := Normalized(f).value;
    EmptyMatchesNothing(query);
    assert FamilyContext.MembersMatch(g, query) == FamilyContext.MembersMatch(f, query) by {
      var gs := g.familyMembers.value;
      if f.familyMembers.Some? {
        var fs := f.familyMembers.value;
        assert |gs| == |fs|;
        forall i | 0 <= i < |fs| ensures FamilyContext.MemberMatch(gs[i], query) == FamilyContext.MemberMatch(fs[i], query) {
          assert fs[i] in fs;
          MemberMatchKept(fs[i].value, query);
        }
        if FamilyContext.MembersMatch(f, query) {
          var m :| m in fs && FamilyContext.MemberMatch(m, query);
          var i :| 0 <= i < |fs| && fs[i] == m;
          assert gs[i] in gs;
        }
        if FamilyContext.MembersMatch(g, query) {
          var m :| m in gs && FamilyContext.MemberMatch(m, query);
          var i :| 0 <= i < |gs| && gs[i] == m;
          assert fs[i] in fs;
        }
      } else {
        assert gs == [];
      }
    }
  }
}
