/**
 * The directory's data layer: searching the family list, a family's fee
 * ledger, and the store whose three lists (families, fees, payments) the
 * administrator's actions replace.
 */
module FamilyContext {
  import opened Wrappers
  import opened Lists
  import opened Text
  import opened Records

  // ---------------------------------------------------------------------
  // Search
  // ---------------------------------------------------------------------

  /** `x?.toLowerCase() || ''`. */
  function LowerOr(o: Option<string>): string {
    Lower(o.GetOr(""))
  }

  /** `x || ''`. */
  function RawOr(o: Option<string>): string {
    o.GetOr("")
  }

  /** The primary member's English name holds the lower-cased query, or the Malayalam name the raw one. */
  predicate NameMatch(f: Family, query: string) {
    var n := NameOf(f.primaryMember);
    Contains(LowerOr(EnOf(n)), Lower(query)) || Contains(RawOr(MlOf(n)), query)
  }

  predicate IdMatch(f: Family, query: string) {
    f.id.Some? && Contains(Lower(f.id.value), Lower(query))
  }

  /** Only when `phone` is an array; each number is compared with the raw query. */
  predicate PhoneMatch(f: Family, query: string) {
    && f.primaryMember.Some?
    && f.primaryMember.value.phone.Some?
    && exists p :: p in f.primaryMember.value.phone.value && Contains(p, query)
  }

  predicate BloodMatch(f: Family, query: string) {
    && f.primaryMember.Some?
    && f.primaryMember.value.bloodGroup.Some?
    && Contains(Lower(f.primaryMember.value.bloodGroup.value), Lower(query))
  }

  predicate HouseMatch(f: Family, query: string) {
    var h := HouseNameOf(f.address);
    Contains(LowerOr(EnOf(h)), Lower(query)) || Contains(RawOr(MlOf(h)), query)
  }

  /** One entry of `family_members`, which may be `null`. */
  predicate MemberMatch(m: Option<Person>, query: string) {
    var n := NameOf(m);
    || Contains(LowerOr(EnOf(n)), Lower(query))
    || Contains(RawOr(MlOf(n)), query)
    || (m.Some? && m.value.bloodGroup.Some? && Contains(Lower(m.value.bloodGroup.value), Lower(query)))
  }

  /** Only when `family_members` is an array. */
  predicate MembersMatch(f: Family, query: string) {
    f.familyMembers.Some? && exists m :: m in f.familyMembers.value && MemberMatch(m, query)
  }

  /** The six clauses of the search filter. */
  predicate Matches(f: Family, query: string) {
    NameMatch(f, query) || IdMatch(f, query) || PhoneMatch(f, query)
    || BloodMatch(f, query) || HouseMatch(f, query) || MembersMatch(f, query)
  }

  /** `searchFamilies`: the whole list for an empty query, otherwise the matching families. */
  function SearchFamilies(families: seq<Family>, query: string): (r: seq<Family>)
    ensures query == "" ==> r == families
    ensures |r| <= |families|
    ensures forall f :: f in r <==> f in families && (query == "" || Matches(f, query))
  {
    if query == "" then families else Filter(families, (f: Family) => Matches(f, query))
  }

  /** The search is a stable filter: it distributes over concatenation and keeps or drops each family on its own. */
  lemma SearchIsStableFilter(a: seq<Family>, b: seq<Family>, f: Family, query: string)
    ensures SearchFamilies(a + b, query) == SearchFamilies(a, query) + SearchFamilies(b, query)
    ensures SearchFamilies([f], query) == if query == "" || Matches(f, query) then [f] else []
  {
    if query != "" {
      FilterConcat(a, b, (g: Family) => Matches(g, query));
    }
  }

  /** The clauses that compare lower-cased text with the lower-cased query `lq`. */
  predicate LatinMatch(f: Family, lq: string) {
    var pm := f.primaryMember;
    || Contains(LowerOr(EnOf(NameOf(pm))), lq)
    || (f.id.Some? && Contains(Lower(f.id.value), lq))
    || (pm.Some? && pm.value.bloodGroup.Some? && Contains(Lower(pm.value.bloodGroup.value), lq))
    || Contains(LowerOr(EnOf(HouseNameOf(f.address))), lq)
    || (f.familyMembers.Some? && exists m :: m in f.familyMembers.value && LatinMemberMatch(m, lq))
  }

  predicate LatinMemberMatch(m: Option<Person>, lq: string) {
    || Contains(LowerOr(EnOf(NameOf(m))), lq)
    || (m.Some? && m.value.bloodGroup.Some? && Contains(Lower(m.value.bloodGroup.value), lq))
  }

  /** The clauses that compare raw text (Malayalam names, phone numbers) with the raw query. */
  predicate RawMatch(f: Family, query: string) {
    || Contains(RawOr(MlOf(NameOf(f.primaryMember))), query)
    || PhoneMatch(f, query)
    || Contains(RawOr(MlOf(HouseNameOf(f.address))), query)
    || (f.familyMembers.Some? && exists m :: m in f.familyMembers.value && Contains(RawOr(MlOf(NameOf(m))), query))
  }

  /** A family matches exactly when a Latin clause matches the lowered query or a raw clause the raw query. */
  lemma MatchesSplit(f: Family, query: string)
    ensures Matches(f, query) <==> LatinMatch(f, Lower(query)) || RawMatch(f, query)
  {
    if f.familyMembers.Some? {
      var ms := f.familyMembers.value;
      if MembersMatch(f, query) {
        var m :| m in ms && MemberMatch(m, query);
        assert LatinMemberMatch(m, Lower(query)) || Contains(RawOr(MlOf(NameOf(m))), query);
      }
      if exists m :: m in ms && LatinMemberMatch(m, Lower(query)) {
        var m :| m in ms && LatinMemberMatch(m, Lower(query));
        assert MemberMatch(m, query);
      }
      if exists m :: m in ms && Contains(RawOr(MlOf(NameOf(m))), query) {
        var m :| m in ms && Contains(RawOr(MlOf(NameOf(m))), query);
        assert MemberMatch(m, query);
      }
    }
  }

  /**
   * Changing the Latin case of the query never changes the Latin clauses, so
   * two queries that differ only in case find the same families, in the same
   * order, whenever the raw clauses (Malayalam text, phone numbers) agree on them.
   */
  lemma SearchIgnoresLatinCase(families: seq<Family>, q1: string, q2: string)
    requires SameUpToCase(q1, q2)
    requires forall f :: f in families ==> RawMatch(f, q1) == RawMatch(f, q2)
    ensures SearchFamilies(families, q1) == SearchFamilies(families, q2)
  {
    SameUpToCaseIff(q1, q2);
    if q1 != "" {
      forall f | f in families
        ensures Matches(f, q1) == Matches(f, q2)
      {
        MatchesSplit(f, q1);
        MatchesSplit(f, q2);
      }
      FilterCongruent(families, (f: Family) => Matches(f, q1), (f: Family) => Matches(f, q2));
    }
  }

  /**
   * A missing optional field only makes its own clause false: dropping it
   * leaves a family matching exactly when one of the other clauses matches.
   */
  lemma MissingFieldOnlyFailsItsClause(f: Family, query: string)
    requires query != ""
    ensures Matches(f.(id := None), query)
      <==> NameMatch(f, query) || PhoneMatch(f, query) || BloodMatch(f, query) || HouseMatch(f, query) || MembersMatch(f, query)
    ensures Matches(f.(address := None), query)
      <==> NameMatch(f, query) || IdMatch(f, query) || PhoneMatch(f, query) || BloodMatch(f, query) || MembersMatch(f, query)
    ensures Matches(f.(familyMembers := None), query)
      <==> NameMatch(f, query) || IdMatch(f, query) || PhoneMatch(f, query) || BloodMatch(f, query) || HouseMatch(f, query)
    ensures Matches(f.(primaryMember := None), query)
      <==> IdMatch(f, query) || HouseMatch(f, query) || MembersMatch(f, query)
    ensures f.primaryMember.Some? ==>
      (Matches(f.(primaryMember := Some(f.primaryMember.value.(name := None))), query) <==>
         IdMatch(f, query) || PhoneMatch(f, query) || BloodMatch(f, query) || HouseMatch(f, query) || MembersMatch(f, query))
    ensures f.primaryMember.Some? ==>
      (Matches(f.(primaryMember := Some(f.primaryMember.value.(phone := None))), query) <==>
         NameMatch(f, query) || IdMatch(f, query) || BloodMatch(f, query) || HouseMatch(f, query) || MembersMatch(f, query))
    ensures f.primaryMember.Some? ==>
      (Matches(f.(primaryMember := Some(f.primaryMember.value.(bloodGroup := None))), query) <==>
         NameMatch(f, query) || IdMatch(f, query) || PhoneMatch(f, query) || HouseMatch(f, query) || MembersMatch(f, query))
    ensures f.address.Some? ==>
      (Matches(f.(address := Some(f.address.value.(houseName := None))), query) <==>
         NameMatch(f, query) || IdMatch(f, query) || PhoneMatch(f, query) || BloodMatch(f, query) || MembersMatch(f, query))
  {
    EmptyContainsOnlyEmpty(query);
    EmptyContainsOnlyEmpty(Lower(query));
  }

  /** A family whose primary member has a `null` blood group and no phone at all. */
  function FamilyWithGaps(): Family {
    Family(
      Some("ERA-10"),
      Some(Person(Some(Names(Some("Aneesh Kumar K.N."), Some("അനീഷ് കുമാർ"))), None, None, None)),
      None,
      None)
  }

  lemma GapsNameFound()
    ensures NameMatch(FamilyWithGaps(), "Aneesh")
  {
    assert Lower("Aneesh Kumar K.N.")[..6] == Lower("Aneesh");
  }

  lemma GapsBloodMissed()
    ensures !Matches(FamilyWithGaps(), "O+")
  {
    var en: string := "Aneesh Kumar K.N.";
    var ml: string := "അനീഷ് കുമാർ";
    var id: string := "ERA-10";
    var q: string := "O+";
    assert '+' !in en;
    assert '+' !in ml;
    assert '+' !in id;
    assert '+' in q;
    LowerKeepsNonLetters(en, '+');
    LowerKeepsNonLetters(id, '+');
    LowerKeepsNonLetters(q, '+');
    MissingCharPreventsMatch(Lower(en), Lower(q), '+');
    MissingCharPreventsMatch(ml, q, '+');
    MissingCharPreventsMatch(Lower(id), Lower(q), '+');
    EmptyContainsOnlyEmpty(q);
    EmptyContainsOnlyEmpty(Lower(q));
  }

  /** Searching that family by name finds it, and a blood-group query passes it over without failing. */
  lemma SearchToleratesMissingFields()
    ensures SearchFamilies([FamilyWithGaps()], "Aneesh") == [FamilyWithGaps()]
    ensures SearchFamilies([FamilyWithGaps()], "O+") == []
  {
    GapsNameFound();
    GapsBloodMissed();
  }

  // ---------------------------------------------------------------------
  // Fee ledger of one family
  // ---------------------------------------------------------------------

  datatype Status = Paid | Partial | Pending

  /** One fee with what the family paid towards it (`{ ...fee, paid, balance, status }`). */
  datatype FeeLine = FeeLine(fee: Fee, paid: real, balance: real, status: Status)

  datatype Finances = Finances(detail: seq<FeeLine>, totalPaid: real, totalAmount: real, totalBalance: real)

  /** `paid >= amount ? 'Paid' : (paid > 0 ? 'Partial' : 'Pending')`. */
  function StatusOf(paid: real, amount: real): (s: Status)
    ensures s == Paid <==> paid >= amount
    ensures s == Partial <==> 0.0 < paid < amount
    ensures s == Pending <==> paid <= 0.0 && paid < amount
  {
    if paid >= amount then Paid else if paid > 0.0 then Partial else Pending
  }

  /** The payments recorded for one family, in the order of the payment list. */
  function PaymentsOf(payments: seq<Payment>, familyId: string): seq<Payment> {
    Filter(payments, (p: Payment) => p.familyId == familyId)
  }

  /** The amount of the first of `familyPayments` made towards `fee`, or 0. */
  function PaidTowards(familyPayments: seq<Payment>, fee: Fee): real {
    var record := Find(familyPayments, (p: Payment) => p.feeId == fee.id);
    if record.Some? then record.value.amount else 0.0
  }

  function AmountOfPayment(p: Payment): real { p.amount }

  function AmountOfFee(f: Fee): real { f.amount }

  /** `getFamilyFinances`: one line per fee, in fee-list order, and the totals. */
  function GetFamilyFinances(fees: seq<Fee>, payments: seq<Payment>, familyId: string): (r: Finances)
    ensures |r.detail| == |fees|
    ensures forall i :: 0 <= i < |fees| ==>
      var line := r.detail[i];
      && line.fee == fees[i]
      && line.balance == fees[i].amount - line.paid
      && (line.status == Paid <==> line.paid >= fees[i].amount)
      && (line.status == Partial <==> 0.0 < line.paid < fees[i].amount)
      && (line.status == Pending <==> line.paid <= 0.0 && line.paid < fees[i].amount)
    ensures r.totalBalance == r.totalAmount - r.totalPaid
  {
    var familyPayments := PaymentsOf(payments, familyId);
    var detail := seq(|fees|, i requires 0 <= i < |fees| =>
      var paid := PaidTowards(familyPayments, fees[i]);
      FeeLine(fees[i], paid, fees[i].amount - paid, StatusOf(paid, fees[i].amount)));
    var totalPaid := Sum(familyPayments, AmountOfPayment);
    var totalAmount := Sum(fees, AmountOfFee);
    Finances(detail, totalPaid, totalAmount, totalAmount - totalPaid)
  }

  /** The test that selects the payments of one family towards one fee. */
  function PairOf(familyId: string, feeId: string): Payment -> bool {
    (p: Payment) => p.familyId == familyId && p.feeId == feeId
  }

  /** `FirstIndex` is determined by its contract, so predicates that agree on the list give the same index. */
  lemma FirstIndexCongruent<T>(s: seq<T>, p: T -> bool, q: T -> bool)
    requires forall j :: 0 <= j < |s| ==> p(s[j]) == q(s[j])
    ensures FirstIndex(s, p) == FirstIndex(s, q)
  {
  }

  /**
   * A line's `paid` is the amount of the first payment recorded for that
   * family and that fee anywhere in the payment list, or 0 when there is none.
   */
  lemma PaidIsFirstRecordedAmount(fees: seq<Fee>, payments: seq<Payment>, familyId: string, i: int)
    requires 0 <= i < |fees|
    ensures var k := FirstIndex(payments, PairOf(familyId, fees[i].id));
      GetFamilyFinances(fees, payments, familyId).detail[i].paid == if k < 0 then 0.0 else payments[k].amount
  {
    var isFamily := (p: Payment) => p.familyId == familyId;
    var isFee := (p: Payment) => p.feeId == fees[i].id;
    var both := x => isFamily(x) && isFee(x);
    FindInFilter(payments, isFamily, isFee);
    assert Find(PaymentsOf(payments, familyId), isFee) == Find(payments, both);
    FirstIndexCongruent(payments, both, PairOf(familyId, fees[i].id));
    assert GetFamilyFinances(fees, payments, familyId).detail[i].paid == PaidTowards(PaymentsOf(payments, familyId), fees[i]);
  }

  /**
   * `totalPaid` counts every payment of the family, also one towards a fee
   * that is no longer listed: such a payment raises `totalPaid` and lowers
   * `totalBalance` while no line of `detail` changes.
   */
  lemma OrphanPaymentCountsInTotals(fees: seq<Fee>, payments: seq<Payment>, familyId: string, orphan: Payment)
    requires orphan.familyId == familyId
    requires forall f :: f in fees ==> f.id != orphan.feeId
    ensures var before := GetFamilyFinances(fees, payments, familyId);
      var after := GetFamilyFinances(fees, payments + [orphan], familyId);
      && after.detail == before.detail
      && after.totalPaid == before.totalPaid + orphan.amount
      && after.totalAmount == before.totalAmount
      && after.totalBalance == before.totalBalance - orphan.amount
  {
    var own := PaymentsOf(payments, familyId);
    FilterConcat(payments, [orphan], (p: Payment) => p.familyId == familyId);
    assert PaymentsOf(payments + [orphan], familyId) == own + [orphan];
    SumConcat(own, [orphan], AmountOfPayment);
    assert Sum([orphan], AmountOfPayment) == orphan.amount;
    forall i | 0 <= i < |fees|
      ensures PaidTowards(own + [orphan], fees[i]) == PaidTowards(own, fees[i])
    {
      FindAppend(own, orphan, (p: Payment) => p.feeId == fees[i].id);
    }
    var before := GetFamilyFinances(fees, payments, familyId);
    var after := GetFamilyFinances(fees, payments + [orphan], familyId);
    assert after.totalPaid == Sum(own + [orphan], AmountOfPayment);
    assert before.totalPaid == Sum(own, AmountOfPayment);
    forall i | 0 <= i < |fees|
      ensures after.detail[i] == before.detail[i]
    {
      assert after.detail[i].paid == PaidTowards(own + [orphan], fees[i]);
      assert before.detail[i].paid == PaidTowards(own, fees[i]);
    }
  }

  /**
   * `totalPaid` is the sum of every payment of the family: it starts at 0,
   * and each further payment adds its amount when it is the family's and
   * nothing otherwise, whichever fee it is towards.
   */
  lemma {:induction false} TotalPaidSumsFamilyPayments(fees: seq<Fee>, payments: seq<Payment>, p: Payment, familyId: string)
    ensures GetFamilyFinances(fees, [], familyId).totalPaid == 0.0
    ensures GetFamilyFinances(fees, payments + [p], familyId).totalPaid
         == GetFamilyFinances(fees, payments, familyId).totalPaid + (if p.familyId == familyId then p.amount else 0.0)
  {
    var own := PaymentsOf(payments, familyId);
    FilterConcat(payments, [p], (q: Payment) => q.familyId == familyId);
    var added := PaymentsOf([p], familyId);
    assert added == if p.familyId == familyId then [p] else [];
    assert PaymentsOf(payments + [p], familyId) == own + added;
    SumConcat(own, added, AmountOfPayment);
    assert Sum(added, AmountOfPayment) == if p.familyId == familyId then p.amount else 0.0;
  }

  /** With no fees there are no lines and nothing to pay; what the family paid still shows as credit. */
  lemma NoFeesNoLines(payments: seq<Payment>, familyId: string)
    ensures var r := GetFamilyFinances([], payments, familyId);
      r.detail == [] && r.totalAmount == 0.0 && r.totalBalance == -r.totalPaid
  {
  }

  /** One fee of 100 and a payment of 40 towards it: 40 paid, 60 due, partially paid. */
  lemma FinancesOfPartialPayment()
    ensures var fee := Fee("f1", "Membership", "Membership", 100.0);
      var r := GetFamilyFinances([fee], [Payment("A", "f1", 40.0, "2025-01-01")], "A");
      && r.detail == [FeeLine(fee, 40.0, 60.0, Partial)]
      && r.totalPaid == 40.0 && r.totalAmount == 100.0 && r.totalBalance == 60.0
  {
    var fee := Fee("f1", "Membership", "Membership", 100.0);
    var pay := Payment("A", "f1", 40.0, "2025-01-01");
    assert PaymentsOf([pay], "A") == [pay];
    assert PaidTowards([pay], fee) == 40.0;
  }

  /** What one family has paid plus what it still owes, as the fee report adds it up. */
  function Settled(fees: seq<Fee>, payments: seq<Payment>, familyId: string): real {
    var r := GetFamilyFinances(fees, payments, familyId);
    r.totalPaid + r.totalBalance
  }

  /** The report's "Total Expected": `Settled` summed over the listed families. */
  function ExpectedTotal(fees: seq<Fee>, payments: seq<Payment>, familyIds: seq<string>): real
    decreases |familyIds|
  {
    if familyIds == [] then 0.0
    else Settled(fees, payments, familyIds[0]) + ExpectedTotal(fees, payments, familyIds[1..])
  }

  /** `n` copies of `total` added up, i.e. n·total. */
  function Times(n: nat, total: real): real {
    if n == 0 then 0.0 else total + Times(n - 1, total)
  }

  /** Whatever each family paid, the report expects the sum of all fees once from every listed family. */
  lemma {:induction false} ExpectedTotalIsFeesPerFamily(fees: seq<Fee>, payments: seq<Payment>, familyIds: seq<string>)
    ensures ExpectedTotal(fees, payments, familyIds) == Times(|familyIds|, Sum(fees, AmountOfFee))
    decreases |familyIds|
  {
    if familyIds != [] {
      ExpectedTotalIsFeesPerFamily(fees, payments, familyIds[1..]);
      SettledIsFeeTotal(fees, payments, familyIds[0]);
    }
  }

  /** Paid plus balance is the fee total, for every family. */
  lemma SettledIsFeeTotal(fees: seq<Fee>, payments: seq<Payment>, familyId: string)
    ensures Settled(fees, payments, familyId) == Sum(fees, AmountOfFee)
  {
  }

  // ---------------------------------------------------------------------
  // Payments: recording one is an upsert keyed on (familyId, feeId)
  // ---------------------------------------------------------------------

  /**
   * The payment list after `recordPayment`: the first record of the pair gets
   * the new amount and date, or a new record is appended when there is none.
   */
  function Upserted(payments: seq<Payment>, familyId: string, feeId: string, amount: real, date: string): seq<Payment> {
    var k := FirstIndex(payments, PairOf(familyId, feeId));
    if 0 <= k then payments[k := payments[k].(amount := amount, date := date)]
    else payments + [Payment(familyId, feeId, amount, date)]
  }

  /**
   * After an upsert the pair's first record is exactly the new payment, at the
   * old record's place or appended at the end; every other record keeps its
   * place and value.
   */
  lemma UpsertPlacesRecord(payments: seq<Payment>, familyId: string, feeId: string, amount: real, date: string)
    ensures var r := Upserted(payments, familyId, feeId, amount, date);
      var k := FirstIndex(payments, PairOf(familyId, feeId));
      var at := if 0 <= k then k else |payments|;
      && |r| == (if 0 <= k then |payments| else |payments| + 1)
      && FirstIndex(r, PairOf(familyId, feeId)) == at
      && r[at] == Payment(familyId, feeId, amount, date)
      && forall j :: 0 <= j < |payments| && j != k ==> r[j] == payments[j]
  {
    var r := Upserted(payments, familyId, feeId, amount, date);
    var k := FirstIndex(payments, PairOf(familyId, feeId));
    var at := if 0 <= k then k else |payments|;
    forall j | 0 <= j < at
      ensures !PairOf(familyId, feeId)(r[j])
    {
      assert r[j] == payments[j];
    }
    assert PairOf(familyId, feeId)(r[at]);
  }

  /** At most one record per `(familyId, feeId)` pair. */
  predicate UniquePairs(payments: seq<Payment>) {
    forall i, j :: 0 <= i < j < |payments| && payments[i].familyId == payments[j].familyId ==> payments[i].feeId != payments[j].feeId
  }

  /**
   * Recording keeps pairs unique, and afterwards the only record of the pair
   * is the new payment.
   */
  lemma UpsertKeepsPairsUnique(payments: seq<Payment>, familyId: string, feeId: string, amount: real, date: string)
    requires UniquePairs(payments)
    ensures var r := Upserted(payments, familyId, feeId, amount, date);
      && UniquePairs(r)
      && forall j :: 0 <= j < |r| && r[j].familyId == familyId && r[j].feeId == feeId ==> r[j] == Payment(familyId, feeId, amount, date)
  {
    var r := Upserted(payments, familyId, feeId, amount, date);
    var k := FirstIndex(payments, PairOf(familyId, feeId));
    UpsertPlacesRecord(payments, familyId, feeId, amount, date);
    var at := if 0 <= k then k else |payments|;
    forall i, j | 0 <= i < j < |r| && r[i].familyId == r[j].familyId
      ensures r[i].feeId != r[j].feeId
    {
      if i != at && j != at {
        assert r[i] == payments[i] && r[j] == payments[j];
      } else if i == at {
        assert r[j] == payments[j];
        if 0 <= k {
          assert r[i].familyId == payments[i].familyId && r[i].feeId == payments[i].feeId;
        }
      } else {
        assert r[i] == payments[i];
      }
    }
    assert r[at] == Payment(familyId, feeId, amount, date);
  }

  /** Recording the same pair twice leaves what the second call alone would: the last amount and date win. */
  lemma UpsertTwiceLastWins(payments: seq<Payment>, familyId: string, feeId: string, a1: real, d1: string, a2: real, d2: string)
    ensures Upserted(Upserted(payments, familyId, feeId, a1, d1), familyId, feeId, a2, d2)
         == Upserted(payments, familyId, feeId, a2, d2)
  {
    var once := Upserted(payments, familyId, feeId, a1, d1);
    UpsertPlacesRecord(payments, familyId, feeId, a1, d1);
    UpsertPlacesRecord(once, familyId, feeId, a2, d2);
    UpsertPlacesRecord(payments, familyId, feeId, a2, d2);
  }

  /** Once recorded, the payment is what the family's ledger shows as paid towards that fee. */
  lemma RecordedPaymentIsPaid(fees: seq<Fee>, payments: seq<Payment>, familyId: string, i: int, amount: real, date: string)
    requires 0 <= i < |fees|
    ensures GetFamilyFinances(fees, Upserted(payments, familyId, fees[i].id, amount, date), familyId).detail[i].paid == amount
  {
    UpsertPlacesRecord(payments, familyId, fees[i].id, amount, date);
    PaidIsFirstRecordedAmount(fees, Upserted(payments, familyId, fees[i].id, amount, date), familyId, i);
  }

  // ---------------------------------------------------------------------
  // Families: lookup and the `{ ...fam, ...updatedData }` merge
  // ---------------------------------------------------------------------

  /** `getFamily`: the first family with the id, or none. */
  function GetFamily(families: seq<Family>, id: string): (r: Option<Family>)
    ensures r.Some? ==> r.value.id == Some(id)
    ensures r.Some? ==> exists i :: 0 <= i < |families| && families[i] == r.value && forall j :: 0 <= j < i ==> families[j].id != Some(id)
    ensures r.None? <==> forall f :: f in families ==> f.id != Some(id)
  {
    Find(families, (f: Family) => f.id == Some(id))
  }

  /**
   * The keys of `updatedData`: an outer `None` is a key the object does not
   * have, `Some(v)` a key it has, whose value `v` may itself be `null`.
   */
  datatype FamilyPatch = FamilyPatch(
    id: Option<Option<string>>,
    primaryMember: Option<Option<Person>>,
    address: Option<Option<Address>>,
    familyMembers: Option<Option<seq<Option<Person>>>>)

  /** `{ ...fam, ...updatedData }`: a shallow merge in which every key of the patch wins. */
  function Merge(f: Family, patch: FamilyPatch): Family {
    Family(
      patch.id.GetOr(f.id),
      patch.primaryMember.GetOr(f.primaryMember),
      patch.address.GetOr(f.address),
      patch.familyMembers.GetOr(f.familyMembers))
  }

  /** Merging is idempotent, a patch without keys changes nothing, and a key the patch lacks keeps its value. */
  lemma MergeLaws(f: Family, patch: FamilyPatch)
    ensures Merge(Merge(f, patch), patch) == Merge(f, patch)
    ensures Merge(f, FamilyPatch(None, None, None, None)) == f
    ensures patch.id.None? ==> Merge(f, patch).id == f.id
    ensures patch.id.Some? ==> Merge(f, patch).id == patch.id.value
    ensures patch.primaryMember.None? ==> Merge(f, patch).primaryMember == f.primaryMember
    ensures patch.primaryMember.Some? ==> Merge(f, patch).primaryMember == patch.primaryMember.value
    ensures patch.address.None? ==> Merge(f, patch).address == f.address
    ensures patch.address.Some? ==> Merge(f, patch).address == patch.address.value
    ensures patch.familyMembers.None? ==> Merge(f, patch).familyMembers == f.familyMembers
    ensures patch.familyMembers.Some? ==> Merge(f, patch).familyMembers == patch.familyMembers.value
  {
  }

  // ---------------------------------------------------------------------
  // The store
  // ---------------------------------------------------------------------

  /**
   * The three lists the directory holds. Every mutator builds a new list
   * from the old one and replaces the field; persisting the list is not
   * part of this model.
   */
  class FamilyStore {
    var families: seq<Family>
    var fees: seq<Fee>
    var payments: seq<Payment>

    constructor (families: seq<Family>, fees: seq<Fee>, payments: seq<Payment>)
      ensures this.families == families && this.fees == fees && this.payments == payments
    {
      this.families := families;
      this.fees := fees;
      this.payments := payments;
    }

    /** `addFamily`: appended at the end, no check that the id is new. */
    method AddFamily(newFamily: Family)
      modifies this`families
      ensures families == old(families) + [newFamily]
    {
      families := families + [newFamily];
    }

    /** `updateFamily`: every family with the id is merged with the patch; the rest keep their place and value. */
    method UpdateFamily(id: string, patch: FamilyPatch)
      modifies this`families
      ensures |families| == |old(families)|
      ensures forall i :: 0 <= i < |families| ==>
        families[i] == if old(families)[i].id == Some(id) then Merge(old(families)[i], patch) else old(families)[i]
    {
      families := seq(|families|, i requires 0 <= i < |families| reads this =>
        if families[i].id == Some(id) then Merge(families[i], patch) else families[i]);
    }

    /** `deleteFamily`: exactly the families with the id go, the rest stay in order. */
    method DeleteFamily(id: string)
      modifies this`families
      ensures families == Filter(old(families), (f: Family) => f.id != Some(id))
      ensures forall f :: f in families <==> f in old(families) && f.id != Some(id)
    {
      families := Filter(families, (f: Family) => f.id != Some(id));
    }

    /** `addFee`: appended with `now` (the clock's text) as its id. */
    method AddFee(newFee: Fee, now: string)
      modifies this`fees
      ensures fees == old(fees) + [newFee.(id := now)]
    {
      fees := fees + [newFee.(id := now)];
    }

    /** `deleteFee`: the fee goes, and so does every payment towards it; nothing else. */
    method DeleteFee(feeId: string)
      modifies this`fees, this`payments
      ensures fees == Filter(old(fees), (f: Fee) => f.id != feeId)
      ensures payments == Filter(old(payments), (p: Payment) => p.feeId != feeId)
      ensures forall f :: f in fees <==> f in old(fees) && f.id != feeId
      ensures forall p :: p in payments <==> p in old(payments) && p.feeId != feeId
    {
      fees := Filter(fees, (f: Fee) => f.id != feeId);
      payments := Filter(payments, (p: Payment) => p.feeId != feeId);
    }

    /** `recordPayment`: an upsert keyed on the pair; `date` is the clock's ISO text. */
    method RecordPayment(familyId: string, feeId: string, amount: real, date: string)
      modifies this`payments
      ensures payments == Upserted(old(payments), familyId, feeId, amount, date)
      ensures UniquePairs(old(payments)) ==> UniquePairs(payments)
    {
      var k := FirstIndex(payments, PairOf(familyId, feeId));
      var updated := payments;
      if 0 <= k {
        updated := updated[k := updated[k].(amount := amount, date := date)];
      } else {
        updated := updated + [Payment(familyId, feeId, amount, date)];
      }
      if UniquePairs(payments) {
        UpsertKeepsPairsUnique(payments, familyId, feeId, amount, date);
      }
      payments := updated;
    }
  }
}
