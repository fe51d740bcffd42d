/**
 * Keeping the bundled JSON data and the browser's local storage in step: a
 * 32-bit rolling hash of the serialised data decides whether the stored copy
 * is rewritten. The store is a map from keys to strings; serialisation and
 * parsing are parameters.
 */
module SyncUtils {
  import opened Wrappers

  const TwoTo31: int := 0x8000_0000
  const TwoTo32: int := 0x1_0000_0000

  predicate IsInt32(x: int) {
    -TwoTo31 <= x < TwoTo31
  }

  /** ECMAScript's ToInt32, applied by `<<` and `&`: the signed 32-bit value congruent to `x` modulo 2^32. */
  function ToInt32(x: int): (r: int)
    ensures IsInt32(r)
    ensures (x - r) % TwoTo32 == 0
  {
    var m := x % TwoTo32;
    if m >= TwoTo31 then m - TwoTo32 else m
  }

  /** Values congruent modulo 2^32 wrap to the same 32-bit value. */
  lemma ToInt32Congruent(x: int, y: int)
    requires (x - y) % TwoTo32 == 0
    ensures ToInt32(x) == ToInt32(y)
  {
    var k := (x - y) / TwoTo32;
    assert x == y + k * TwoTo32;
    assert x % TwoTo32 == y % TwoTo32;
  }

  /**
   * One round of the loop body, `hash = ((hash << 5) - hash) + char` followed
   * by `hash = hash & hash`, for a 32-bit `hash` and a UTF-16 code unit.
   */
  function HashStep(hash: int, unit: int): int {
    ToInt32(ToInt32(hash * 32) - hash + unit)
  }

  /** The shift-and-subtract round is the classic `31 * hash + char`, wrapped to 32 bits. */
  lemma HashStepIsTimes31(hash: int, unit: int)
    ensures HashStep(hash, unit) == ToInt32(31 * hash + unit)
  {
    var shifted := ToInt32(hash * 32);
    assert (hash * 32 - shifted) % TwoTo32 == 0;
    ToInt32Congruent(shifted - hash + unit, 31 * hash + unit);
  }

  /** The UTF-16 code units of one character, the values `charCodeAt` returns. */
  function CodeUnits(c: char): (units: seq<int>)
    ensures 1 <= |units| <= 2
    ensures forall i :: 0 <= i < |units| ==> 0 <= units[i] < 0x10000
    ensures |units| == 1 <==> (c as int) < 0x10000
    ensures (c as int) < 0x10000 ==> units == [c as int]
    ensures |units| == 2 ==>
      && 0xD800 <= units[0] < 0xDC00
      && 0xDC00 <= units[1] < 0xE000
      && 0x10000 + (units[0] - 0xD800) * 0x400 + (units[1] - 0xDC00) == c as int
  {
    var v := c as int;
    if v < 0x10000 then [v]
    else [0xD800 + (v - 0x10000) / 0x400, 0xDC00 + (v - 0x10000) % 0x400]
  }

  /** The UTF-16 code units of a string, in order (`str.length` of them). */
  function Utf16(s: string): seq<int>
    decreases |s|
  {
    if s == [] then [] else Utf16(s[..|s| - 1]) + CodeUnits(s[|s| - 1])
  }

  /** The hash after the loop has run over `units`, starting from 0. */
  function HashOf(units: seq<int>): (h: int)
    ensures IsInt32(h)
    decreases |units|
  {
    if units == [] then 0 else HashStep(HashOf(units[..|units| - 1]), units[|units| - 1])
  }

  /** Continuing the loop from `hash` over further code units. */
  function HashFrom(hash: int, units: seq<int>): int
    decreases |units|
  {
    if units == [] then hash else HashFrom(HashStep(hash, units[0]), units[1..])
  }

  /** The hash is incremental: hashing `a + b` resumes from the hash of `a`. */
  lemma {:induction false} HashOfConcat(a: seq<int>, b: seq<int>)
    ensures HashOf(a + b) == HashFrom(HashOf(a), b)
    decreases |b|
  {
    if b != [] {
      var a' := a + [b[0]];
      assert a' + b[1..] == a + b;
      assert a'[..|a'| - 1] == a;
      HashOfConcat(a', b[1..]);
    } else {
      assert a + b == a;
    }
  }

  /** Appending a character to the serialised text extends the code units by that character's own. */
  lemma Utf16Append(s: string, c: char)
    ensures Utf16(s + [c]) == Utf16(s) + CodeUnits(c)
  {
    assert (s + [c])[..|s|] == s;
  }

  /** The hash of `s + [c]` is the hash of `s` carried over the one or two code units of `c`. */
  lemma HashOfAppendedChar(s: string, c: char)
    ensures HashOf(Utf16(s + [c])) == HashFrom(HashOf(Utf16(s)), CodeUnits(c))
  {
    Utf16Append(s, c);
    HashOfConcat(Utf16(s), CodeUnits(c));
  }

  function DigitChar(d: int): char
    requires 0 <= d < 10
  {
    "0123456789"[d]
  }

  /** The decimal digits of `n`, most significant first, without leading zeros. */
  function NatDecimal(n: nat): (s: string)
    ensures |s| > 0 && '0' <= s[0] <= '9'
    ensures n >= 10 ==> |s| >= 2
    decreases n
  {
    if n < 10 then [DigitChar(n)] else NatDecimal(n / 10) + [DigitChar(n % 10)]
  }

  /** `i.toString()` for an integer. */
  function Decimal(i: int): (s: string)
    ensures |s| > 0
  {
    if i < 0 then "-" + NatDecimal(-i) else NatDecimal(i)
  }

  lemma {:induction false} NatDecimalInjective(a: nat, b: nat)
    ensures NatDecimal(a) == NatDecimal(b) ==> a == b
    decreases a
  {
    if NatDecimal(a) == NatDecimal(b) {
      var s := NatDecimal(a);
      if a < 10 && b < 10 {
        assert "0123456789"[a] == s[0] == "0123456789"[b];
      } else if a >= 10 && b >= 10 {
        assert NatDecimal(a / 10) == s[..|s| - 1] == NatDecimal(b / 10);
        assert "0123456789"[a % 10] == s[|s| - 1] == "0123456789"[b % 10];
        NatDecimalInjective(a / 10, b / 10);
      } else {
        assert false;
      }
    }
  }

  /** The rendering starts with a minus sign exactly for negative numbers. */
  lemma DecimalSign(i: int)
    ensures Decimal(i)[0] == '-' <==> i < 0
  {
    if i >= 0 {
      assert '0' <= NatDecimal(i)[0] <= '9';
    }
  }

  /** Distinct integers render as distinct text, so comparing rendered hashes compares the hashes. */
  lemma DecimalInjective(a: int, b: int)
    ensures Decimal(a) == Decimal(b) ==> a == b
  {
    DecimalSign(a);
    DecimalSign(b);
    if Decimal(a) == Decimal(b) {
      assert (a < 0) == (b < 0);
      if a >= 0 {
        NatDecimalInjective(a, b);
        assert a == b;
      } else {
        DigitsAfterSign(a);
        DigitsAfterSign(b);
        NatDecimalInjective(-a, -b);
        assert a == b;
      }
    }
  }

  lemma DigitsAfterSign(i: int)
    requires i < 0
    ensures Decimal(i)[1..] == NatDecimal(-i)
  {
  }

  /** `generateDataHash` of data whose serialisation is `text`. */
  function DataHash(text: string): string {
    Decimal(HashOf(Utf16(text)))
  }

  /** Two texts get the same hash string exactly when their 32-bit hashes agree. */
  lemma DataHashComparesHashes(a: string, b: string)
    ensures DataHash(a) == DataHash(b) <==> HashOf(Utf16(a)) == HashOf(Utf16(b))
  {
    DecimalInjective(HashOf(Utf16(a)), HashOf(Utf16(b)));
  }

  /** `generateDataHash`: the loop over the code units of the serialised data. */
  method GenerateDataHash<T>(data: T, stringify: T -> string) returns (hash: string)
    ensures hash == DataHash(stringify(data))
    ensures IsInt32(HashFrom(0, Utf16(stringify(data))))
    ensures hash == Decimal(HashFrom(0, Utf16(stringify(data))))
  {
    var str := stringify(data);
    var units := Utf16(str);
    var h := 0;
    for i := 0 to |units|
      invariant h == HashOf(units[..i])
    {
      assert units[..i + 1][..i] == units[..i];
      h := HashStep(h, units[i]);
    }
    assert units[..|units|] == units;
    HashOfConcat([], units);
    assert [] + units == units;
    hash := Decimal(h);
  }

  // ---------------------------------------------------------------------
  // The key-value store
  // ---------------------------------------------------------------------

  /** The browser's local storage: string keys, string values. */
  class Storage {
    var items: map<string, string>

    constructor (items: map<string, string>)
      ensures this.items == items
    {
      this.items := items;
    }
  }

  /** `${storageKey}_hash`. */
  function HashKey(storageKey: string): string {
    storageKey + "_hash"
  }

  /** The hash key of a key is always another key. */
  lemma HashKeyIsAnotherKey(storageKey: string)
    ensures HashKey(storageKey) != storageKey
  {
    assert |HashKey(storageKey)| == |storageKey| + 5;
  }

  /** `localStorage.getItem(key)`. */
  function GetItem(items: map<string, string>, key: string): Option<string> {
    if key in items then Some(items[key]) else None
  }

  /** `!localStorage.getItem(key)`: the key is missing or holds the empty string. */
  predicate Blank(items: map<string, string>, key: string) {
    key !in items || items[key] == ""
  }

  /** The test of `syncDataWithStorage`: stored data blank, stored hash blank, or a different hash. */
  predicate NeedsWrite(items: map<string, string>, storageKey: string, currentHash: string) {
    || Blank(items, storageKey)
    || Blank(items, HashKey(storageKey))
    || items[HashKey(storageKey)] != currentHash
  }

  /** The test of `shouldSync`: stored hash blank or different. The data key is not looked at. */
  predicate ShouldSyncOn(items: map<string, string>, storageKey: string, currentHash: string) {
    Blank(items, HashKey(storageKey)) || items[HashKey(storageKey)] != currentHash
  }

  /** The store after writing the data and then its hash. */
  function Written(items: map<string, string>, storageKey: string, text: string, currentHash: string): (r: map<string, string>)
    ensures r.Keys == items.Keys + {storageKey, HashKey(storageKey)}
    ensures r[storageKey] == text && r[HashKey(storageKey)] == currentHash
    ensures forall k :: k in items && k != storageKey && k != HashKey(storageKey) ==> r[k] == items[k]
  {
    HashKeyIsAnotherKey(storageKey);
    items[storageKey := text][HashKey(storageKey) := currentHash]
  }

  /**
   * `syncDataWithStorage`: rewrites the data and its hash and returns the
   * bundled data when the stored copy is blank or stale; otherwise changes
   * nothing and returns the stored copy, parsed.
   */
  method SyncDataWithStorage<T>(store: Storage, storageKey: string, jsonData: T, stringify: T -> string, parse: string -> T)
    returns (result: T)
    modifies store
    ensures var text := stringify(jsonData);
      var h := DataHash(text);
      if NeedsWrite(old(store.items), storageKey, h) then
        store.items == Written(old(store.items), storageKey, text, h) && result == jsonData
      else
        store.items == old(store.items) && result == parse(old(store.items)[storageKey])
  {
    var hashKey := HashKey(storageKey);
    var currentHash := GenerateDataHash(jsonData, stringify);
    var storedHash := GetItem(store.items, hashKey);
    var storedData := GetItem(store.items, storageKey);
    if storedData.GetOr("") == "" || storedHash.GetOr("") == "" || storedHash.value != currentHash {
      store.items := store.items[storageKey := stringify(jsonData)];
      store.items := store.items[hashKey := currentHash];
      return jsonData;
    }
    return parse(storedData.value);
  }

  /** `shouldSync`: reads the store only. */
  method ShouldSync<T>(store: Storage, storageKey: string, jsonData: T, stringify: T -> string) returns (b: bool)
    ensures b == ShouldSyncOn(store.items, storageKey, DataHash(stringify(jsonData)))
  {
    var currentHash := GenerateDataHash(jsonData, stringify);
    var storedHash := GetItem(store.items, HashKey(storageKey));
    b := storedHash.GetOr("") == "" || storedHash.value != currentHash;
  }

  /** `forceSync`: writes the data and its hash unconditionally. */
  method ForceSync<T>(store: Storage, storageKey: string, jsonData: T, stringify: T -> string)
    modifies store
    ensures store.items == Written(old(store.items), storageKey, stringify(jsonData), DataHash(stringify(jsonData)))
  {
    var currentHash := GenerateDataHash(jsonData, stringify);
    store.items := store.items[storageKey := stringify(jsonData)];
    store.items := store.items[HashKey(storageKey) := currentHash];
  }

  /**
   * After a write, `shouldSync` for the same data answers false, and a
   * further `syncDataWithStorage` writes nothing as long as the serialised
   * data is not empty.
   */
  lemma WriteSettles(items: map<string, string>, storageKey: string, text: string)
    ensures !ShouldSyncOn(Written(items, storageKey, text, DataHash(text)), storageKey, DataHash(text))
    ensures text != "" ==> !NeedsWrite(Written(items, storageKey, text, DataHash(text)), storageKey, DataHash(text))
  {
  }

  /** Every store on which `shouldSync` asks for a write is one `syncDataWithStorage` would write. */
  lemma ShouldSyncImpliesWrite(items: map<string, string>, storageKey: string, currentHash: string)
    ensures ShouldSyncOn(items, storageKey, currentHash) ==> NeedsWrite(items, storageKey, currentHash)
  {
  }

  /**
   * The converse fails: with the hash in place but the data key gone,
   * `shouldSync` says false while `syncDataWithStorage` would still write.
   */
  lemma ShouldSyncMissesMissingData(storageKey: string, currentHash: string)
    requires currentHash != ""
    ensures var items := map[HashKey(storageKey) := currentHash];
      !ShouldSyncOn(items, storageKey, currentHash) && NeedsWrite(items, storageKey, currentHash)
  {
    HashKeyIsAnotherKey(storageKey);
  }
}
