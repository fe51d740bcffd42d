/**
 * Building the login credentials from the families file: one entry per
 * distinct first phone number of a primary member, holding a random
 * password, the family id and the English name. The random source is an
 * oracle: `random(k)` is the character index of the k-th draw.
 */
module GenerateCredentials {
  import opened Wrappers
  import opened Records
  import NormalizeData

  /** The password alphabet: lower-case letters, then digits. */
  const Chars: string := "abcdefghijklmnopqrstuvwxyz0123456789"

  /** The default password length. */
  const DefaultLength: nat := 6

  /** `Math.floor(Math.random() * chars.length)`: an index into the alphabet. */
  type Draw = i: int | 0 <= i < 36

  /** The password spelled by `length` draws, starting at draw number `start`. */
  function PasswordFrom(length: nat, random: nat -> Draw, start: nat): (pw: string)
    ensures |pw| == length
    ensures forall i :: 0 <= i < |pw| ==> pw[i] in Chars
    decreases length
  {
    if length == 0 then []
    else PasswordFrom(length - 1, random, start) + [Chars[random(start + length - 1)]]
  }

  /** `generateRandomPassword(length)`: appends one character per draw. */
  method GenerateRandomPassword(length: nat, random: nat -> Draw, start: nat) returns (password: string)
    ensures |password| == length
    ensures forall i :: 0 <= i < |password| ==> password[i] in Chars
    ensures password == PasswordFrom(length, random, start)
  {
    password := "";
    for i := 0 to length
      invariant password == PasswordFrom(i, random, start)
    {
      password := password + [Chars[random(start + i)]];
    }
  }

  /** One value of the credentials map; `None` is a field that `JSON.stringify` would omit. */
  datatype Credential = Credential(password: string, familyId: Option<string>, name: Option<string>)

  /** `primary_member?.phone || []`, and its first element when there is one. */
  function FirstPhone(f: Family): (r: Option<string>)
    ensures r.Some? <==> f.primaryMember.Some? && f.primaryMember.value.phone.Some? && |f.primaryMember.value.phone.value| > 0
    ensures r.Some? ==> r.value == f.primaryMember.value.phone.value[0]
  {
    var phones := if f.primaryMember.Some? then f.primaryMember.value.phone.GetOr([]) else [];
    if |phones| > 0 then Some(phones[0]) else None
  }

  /**
   * One `forEach` round on the map `m`: nothing for a family without a phone
   * or whose first phone is already a key; otherwise a new entry whose
   * password takes the next six draws. Reading `name.en` of a missing name
   * throws, which ends the whole run (`None`).
   */
  function Visit(m: map<string, Credential>, f: Family, random: nat -> Draw): (r: Option<map<string, Credential>>)
    ensures FirstPhone(f).None? ==> r == Some(m)
    ensures r.Some? && FirstPhone(f).Some? ==> r.value.Keys == m.Keys + {FirstPhone(f).value}
    ensures r.Some? ==> forall k :: k in m ==> k in r.value && r.value[k] == m[k]
  {
    var phone := FirstPhone(f);
    if phone.None? || phone.value in m then Some(m)
    else
      var pm := f.primaryMember.value;
      if pm.name.None? then None
      else Some(m[phone.value := Credential(PasswordFrom(DefaultLength, random, DefaultLength * |m|), f.id, pm.name.value.en)])
  }

  /** The credentials map after the `forEach` has visited `families`, or `None` when it threw. */
  function Issued(families: seq<Family>, random: nat -> Draw): Option<map<string, Credential>>
    decreases |families|
  {
    if families == [] then Some(map[])
    else
      var before := Issued(families[..|families| - 1], random);
      if before.None? then None else Visit(before.value, families[|families| - 1], random)
  }

  /** What `main` computes before writing the file: the map and `count`. */
  datatype Issue = Issue(credentials: map<string, Credential>, count: nat)

  /** The credential-building loop of `main`; `None` is the run that throws and exits. */
  method IssueCredentials(families: seq<Family>, random: nat -> Draw) returns (r: Option<Issue>)
    ensures r.None? <==> Issued(families, random).None?
    ensures r.Some? ==> r.value.credentials == Issued(families, random).value
    ensures r.Some? ==> r.value.count == |r.value.credentials|
  {
    var credentials: map<string, Credential> := map[];
    var count: nat := 0;
    for i := 0 to |families|
      invariant Issued(families[..i], random) == Some(credentials)
      invariant count == |credentials|
    {
      var family := families[i];
      assert families[..i + 1][..i] == families[..i];
      var phones := if family.primaryMember.Some? then family.primaryMember.value.phone.GetOr([]) else [];
      if |phones| > 0 {
        var phone := phones[0];
        if phone !in credentials {
          var password := GenerateRandomPassword(DefaultLength, random, DefaultLength * count);
          if family.primaryMember.value.name.None? {
            FailureIsFinal(families, i + 1, random);
            return None;
          }
          credentials := credentials[phone := Credential(password, family.id, family.primaryMember.value.name.value.en)];
          count := count + 1;
        }
      }
    }
    assert families[..|families|] == families;
    return Some(Issue(credentials, count));
  }

  /** Once the loop has thrown, the run has failed whatever follows. */
  lemma {:induction false} FailureIsFinal(families: seq<Family>, i: nat, random: nat -> Draw)
    requires i <= |families|
    requires Issued(families[..i], random).None?
    ensures Issued(families, random).None?
    decreases |families| - i
  {
    if i == |families| {
      assert families[..i] == families;
    } else {
      var init := families[..|families| - 1];
      assert init[..i] == families[..i];
      FailureIsFinal(init, i, random);
    }
  }

  // ---------------------------------------------------------------------
  // What the credentials map holds
  // ---------------------------------------------------------------------

  /** Some earlier family (before position `n`) has `phone` as its first number. */
  predicate SeenBefore(families: seq<Family>, n: int, phone: string)
    requires 0 <= n <= |families|
  {
    exists j :: 0 <= j < n && FirstPhone(families[j]) == Some(phone)
  }

  /** Looking back from position `m` sees the same families in a list and in any prefix that reaches `m`. */
  lemma SeenBeforeInPrefix(families: seq<Family>, k: int, m: int, phone: string)
    requires 0 <= m <= k <= |families|
    ensures SeenBefore(families[..k], m, phone) == SeenBefore(families, m, phone)
  {
    assert forall j :: 0 <= j < m ==> families[..k][j] == families[j];
  }

  /** Looking back one position further adds exactly that family's first phone. */
  lemma SeenBeforeStep(families: seq<Family>, n: int, phone: string)
    requires 0 < n <= |families|
    ensures SeenBefore(families, n, phone) <==> SeenBefore(families, n - 1, phone) || FirstPhone(families[n - 1]) == Some(phone)
  {
  }

  /**
   * The keys are exactly the first phone numbers of the families: families
   * without a phone add nothing, and later numbers of a family are ignored.
   */
  lemma {:induction false} IssuedKeys(families: seq<Family>, random: nat -> Draw)
    requires Issued(families, random).Some?
    ensures forall k :: k in Issued(families, random).value <==> SeenBefore(families, |families|, k)
    decreases |families|
  {
    if families != [] {
      var n := |families|;
      var init := families[..n - 1];
      IssuedKeys(init, random);
      forall k ensures k in Issued(families, random).value <==> SeenBefore(families, n, k) {
        SeenBeforeInPrefix(families, n - 1, n - 1, k);
        SeenBeforeStep(families, n, k);
      }
    }
  }

  /** One step of `Issued`: the run over a non-empty list is the run over all but the last family, then a visit. */
  lemma IssuedUnfold(families: seq<Family>, random: nat -> Draw)
    requires families != []
    ensures var before := Issued(families[..|families| - 1], random);
      Issued(families, random) == if before.None? then None else Visit(before.value, families[|families| - 1], random)
  {
  }

  /** The entry `c` is the one family `f` would get: its id and English name, and a password of the right shape. */
  predicate Owns(c: Credential, f: Family)
    requires f.primaryMember.Some?
  {
    && c.familyId == f.id
    && f.primaryMember.value.name.Some?
    && c.name == f.primaryMember.value.name.value.en
    && |c.password| == DefaultLength
    && forall j :: 0 <= j < |c.password| ==> c.password[j] in Chars
  }

  /** A visit that adds a new key gives that key the visiting family's entry. */
  lemma VisitAddsOwnEntry(m: map<string, Credential>, f: Family, random: nat -> Draw)
    requires Visit(m, f, random).Some?
    requires FirstPhone(f).Some? && FirstPhone(f).value !in m
    ensures FirstPhone(f).value in Visit(m, f, random).value
    ensures Owns(Visit(m, f, random).value[FirstPhone(f).value], f)
  {
  }

  /**
   * When several families share a first phone number, the first of them in
   * list order owns the entry: its id and English name, and a six-character
   * password over the alphabet.
   */
  lemma {:induction false} FirstFamilyWins(families: seq<Family>, random: nat -> Draw, i: int)
    requires Issued(families, random).Some?
    requires 0 <= i < |families| && FirstPhone(families[i]).Some?
    requires !SeenBefore(families, i, FirstPhone(families[i]).value)
    ensures FirstPhone(families[i]).value in Issued(families, random).value
    ensures Owns(Issued(families, random).value[FirstPhone(families[i]).value], families[i])
    decreases |families|
  {
    var n := |families|;
    var init := families[..n - 1];
    var phone := FirstPhone(families[i]).value;
    IssuedUnfold(families, random);
    var before := Issued(init, random);
    assert before.Some?;
    var after := Visit(before.value, families[n - 1], random);
    assert Issued(families, random) == after;
    IssuedKeys(init, random);
    if i < n - 1 {
      assert init[i] == families[i];
      SeenBeforeInPrefix(families, n - 1, i, phone);
      assert SeenBefore(init, n - 1, phone);
      FirstFamilyWins(init, random, i);
      assert after.value[phone] == before.value[phone];
    } else {
      SeenBeforeInPrefix(families, n - 1, n - 1, phone);
      assert phone !in before.value;
      VisitAddsOwnEntry(before.value, families[n - 1], random);
    }
  }

  /** A family whose first phone is new and whose primary member has no name stops the run. */
  predicate CrashesAt(families: seq<Family>, i: int)
    requires 0 <= i < |families|
  {
    && FirstPhone(families[i]).Some?
    && families[i].primaryMember.value.name.None?
    && !SeenBefore(families, i, FirstPhone(families[i]).value)
  }

  /** Some family before position `n` stops the run. */
  predicate CrashesBefore(families: seq<Family>, n: int)
    requires 0 <= n <= |families|
  {
    exists i :: 0 <= i < n && CrashesAt(families, i)
  }

  lemma CrashesInPrefix(families: seq<Family>, k: int)
    requires 0 <= k <= |families|
    ensures CrashesBefore(families[..k], k) == CrashesBefore(families, k)
  {
    forall i | 0 <= i < k ensures CrashesAt(families[..k], i) == CrashesAt(families, i) {
      assert families[..k][i] == families[i];
      if FirstPhone(families[i]).Some? {
        SeenBeforeInPrefix(families, k, i, FirstPhone(families[i]).value);
      }
    }
  }

  /** The run throws exactly when some family whose first phone is new has no name object. */
  lemma {:induction false} IssuedFailsIff(families: seq<Family>, random: nat -> Draw)
    ensures Issued(families, random).None? <==> CrashesBefore(families, |families|)
    decreases |families|
  {
    if families != [] {
      var n := |families|;
      var init := families[..n - 1];
      IssuedFailsIff(init, random);
      CrashesInPrefix(families, n - 1);
      assert CrashesBefore(families, n) <==> CrashesBefore(families, n - 1) || CrashesAt(families, n - 1);
      var before := Issued(init, random);
      if before.Some? {
        IssuedKeys(init, random);
        var f := families[n - 1];
        if FirstPhone(f).Some? {
          SeenBeforeInPrefix(families, n - 1, n - 1, FirstPhone(f).value);
        }
      }
    }
  }

  /** Every entry has a password of the default length over the alphabet. */
  lemma {:induction false} PasswordsHaveShape(families: seq<Family>, random: nat -> Draw)
    requires Issued(families, random).Some?
    ensures forall k :: k in Issued(families, random).value ==>
      |Issued(families, random).value[k].password| == DefaultLength &&
      forall j :: 0 <= j < DefaultLength ==> Issued(families, random).value[k].password[j] in Chars
    decreases |families|
  {
    if families != [] {
      PasswordsHaveShape(families[..|families| - 1], random);
    }
  }

  /** On a normalised file every primary member has a name object, so the run never throws. */
  lemma NormalizedFileNeverCrashes(families: seq<Family>, random: nat -> Draw)
    requires forall i :: 0 <= i < |families| ==> NormalizeData.IsNormalized(families[i])
    ensures Issued(families, random).Some?
  {
    IssuedFailsIff(families, random);
    assert !CrashesBefore(families, |families|) by {
      forall i | 0 <= i < |families| ensures !CrashesAt(families, i) {
        assert NormalizeData.IsNormalized(families[i]);
      }
    }
  }

  /** In particular, after the clean-up script has run on the file. */
  lemma CredentialsAfterNormalizing(families: seq<Family>, random: nat -> Draw)
    requires NormalizeData.NormalizedList(families).Some?
    ensures Issued(NormalizeData.NormalizedList(families).value, random).Some?
  {
    var gs := NormalizeData.NormalizedList(families).value;
    forall i | 0 <= i < |gs| ensures NormalizeData.IsNormalized(gs[i]) {
      NormalizeData.NormalizeEstablishes(families[i]);
    }
    NormalizedFileNeverCrashes(gs, random);
  }
}
