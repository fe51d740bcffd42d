# ERA family directory — a Dafny model of its data layer

ERA is a residents' association directory. Families are looked up by name,
id, phone, blood group, house name or member. The administrator keeps a fee
ledger for every family. The bundled JSON data is mirrored into the
browser's local storage. Two maintenance scripts clean up the families file
and issue login credentials.

This project models the parts of the code that carry logic, and proves what
they promise:

- `Records.dfy`: the JSON records (`Family`, `Person`, `Address`, `Names`,
  `Fee`, `Payment`). Every field that the code reads through optional
  chaining is an `Option`.
- `FamilyContext.dfy`: the data layer behind the app.
  - The null-safe search, with its six clauses.
  - A family's fee ledger and its totals.
  - The `FamilyStore` class. It holds the `families`, `fees` and `payments`
    lists, which its methods replace.
- `SyncUtils.dfy`: the storage sync.
  - The 32-bit rolling hash over UTF-16 code units.
  - The `Storage` class, a string-to-string store.
  - The decisions of `syncDataWithStorage`, `shouldSync` and `forceSync`.
- `NormalizeData.dfy`: the clean-up that fills every missing text,
  list and name pair of a family record.
- `GenerateCredentials.dfy`: the credentials map.
  - It is keyed by a primary member's first phone number, and the first
    family wins.
  - Passwords are drawn from a 36-character alphabet.
  - The random source is an oracle `random(k)` that gives the alphabet
    index of the k-th draw.
- `Wrappers.dfy`, `Lists.dfy` and `Text.dfy` are helpers. They provide
  `Option`, the list `filter`/`find`/`findIndex`/`reduce`, `includes` as a
  substring predicate, and ASCII `toLowerCase`.

## Model

| member | source | states |
|---|---|---|
| FamilyContext.SearchFamilies | src/context/FamilyContext.jsx:152-190 | An empty query returns the list unchanged. Otherwise a family is in the result iff it is in the input and one of the six clauses matches. The result is never longer than the input. |
| FamilyContext.SearchIsStableFilter | src/context/FamilyContext.jsx:156-189 | The search distributes over concatenation and keeps or drops each family on its own, so the result is the input filtered in its original order. |
| FamilyContext.MatchesSplit | src/context/FamilyContext.jsx:154-185 | A family matches iff a Latin clause (English names, id, blood groups, English house name) holds the lowered query, or a raw clause (Malayalam names, phone numbers) holds the raw query. |
| FamilyContext.SearchIgnoresLatinCase | src/context/FamilyContext.jsx:154-185 | Two queries that differ only in Latin case give the same result whenever the raw clauses agree on them. |
| FamilyContext.MissingFieldOnlyFailsItsClause | src/context/FamilyContext.jsx:162-186 | Dropping `id`, `address`, `family_members`, `primary_member`, the primary member's `name`, `phone` or `blood_group`, or the address's `house_name` makes exactly that clause false. The family still matches iff another clause does. |
| FamilyContext.SearchToleratesMissingFields | verify_fix.js:54-58 | A family with a `null` blood group and no phone is found by "Aneesh". A blood-group query "O+" passes over it without failing. |
| FamilyContext.StatusOf | src/context/FamilyContext.jsx:137 | `Paid` iff paid >= amount. `Partial` iff 0 < paid < amount. `Pending` otherwise. |
| FamilyContext.GetFamilyFinances | src/context/FamilyContext.jsx:124-150 | There is one line per fee, in fee order, carrying that fee. balance = amount - paid. The status follows the three iffs. totalBalance = totalAmount - totalPaid. |
| FamilyContext.PaidIsFirstRecordedAmount | src/context/FamilyContext.jsx:125-131 | A line's `paid` is the amount of the first payment in the whole list with that family and that fee, or 0 if there is none. |
| FamilyContext.TotalPaidSumsFamilyPayments | src/context/FamilyContext.jsx:125-141 | `totalPaid` is 0 with no payments. Each further payment adds its amount if it is the family's, whatever fee it is towards, and adds nothing otherwise. |
| FamilyContext.OrphanPaymentCountsInTotals | src/context/FamilyContext.jsx:141-148 | A payment towards a fee that is no longer listed leaves every line as it was. It raises `totalPaid` and lowers `totalBalance` by its amount, and `totalAmount` is unchanged. |
| FamilyContext.NoFeesNoLines | src/context/FamilyContext.jsx:128-148 | With no fees, `detail` is empty, `totalAmount` is 0 and `totalBalance` is minus what the family paid. |
| FamilyContext.FinancesOfPartialPayment | src/context/FamilyContext.jsx:128-149 | A fee of 100 with 40 paid gives paid 40, balance 60, `Partial`, and the totals 40/100/60. |
| FamilyContext.SettledIsFeeTotal | src/context/FamilyContext.jsx:141-148 | For every family, totalPaid + totalBalance is the sum of all fee amounts. |
| FamilyContext.ExpectedTotalIsFeesPerFamily | src/pages/FeeManagement.jsx:265 | The report's "Total Expected" is the fee total once per listed family, whatever each family paid. |
| FamilyContext.UpsertPlacesRecord | src/context/FamilyContext.jsx:112-119 | If the pair exists, the length is unchanged and its first record becomes the new payment. Otherwise exactly one record is appended. All other records keep their place and value. |
| FamilyContext.UpsertKeepsPairsUnique | src/context/FamilyContext.jsx:112-119 | If pairs were unique before, they stay unique, and the pair's only record carries the new amount and date. |
| FamilyContext.UpsertTwiceLastWins | src/context/FamilyContext.jsx:110-119 | Recording the same pair twice equals recording only the second amount and date. |
| FamilyContext.RecordedPaymentIsPaid | src/context/FamilyContext.jsx:110-131 | After a payment is recorded, the ledger shows that amount as paid towards the fee. |
| FamilyContext.GetFamily | src/context/FamilyContext.jsx:73-75 | Returns a family with the id that no earlier family shares, or none iff no family has the id. |
| FamilyContext.MergeLaws | src/context/FamilyContext.jsx:67 | The `{ ...fam, ...updatedData }` merge is idempotent, an empty patch changes nothing, and for each of `id`, `primary_member`, `address` and `family_members` the patch's value wins when the patch has the key, and the family's value stays otherwise. |
| FamilyContext.FamilyStore.constructor | src/context/FamilyContext.jsx:58-150 | The store starts with the given three lists. |
| FamilyContext.FamilyStore.AddFamily | src/context/FamilyContext.jsx:58-63 | The family is appended at the end. |
| FamilyContext.FamilyStore.UpdateFamily | src/context/FamilyContext.jsx:65-71 | The length is unchanged. Families with the id are merged with the patch; the others keep their value. |
| FamilyContext.FamilyStore.DeleteFamily | src/context/FamilyContext.jsx:77-81 | Exactly the families with the id are removed; the rest stay in order. |
| FamilyContext.FamilyStore.AddFee | src/context/FamilyContext.jsx:93-97 | The fee is appended with the clock's text as its id. |
| FamilyContext.FamilyStore.DeleteFee | src/context/FamilyContext.jsx:99-107 | Exactly the fees with that id and the payments towards it are removed; the rest stay in order. |
| FamilyContext.FamilyStore.RecordPayment | src/context/FamilyContext.jsx:110-122 | The payments become the upsert of the pair, and unique pairs stay unique. |
| SyncUtils.ToInt32 | src/utils/syncUtils.js:16-17 | The result is a signed 32-bit value congruent to the input modulo 2^32. |
| SyncUtils.HashStepIsTimes31 | src/utils/syncUtils.js:16-17 | `((h << 5) - h) + c` followed by `h & h` is `31*h + c` wrapped to signed 32 bits. |
| SyncUtils.HashOfConcat | src/utils/syncUtils.js:13-18 | The hash is incremental: hashing `a + b` resumes from the hash of `a`. |
| SyncUtils.HashOfAppendedChar | src/utils/syncUtils.js:14-18 | The hash of `s + [c]` is the hash of `s` carried over `c`'s one or two UTF-16 code units. |
| SyncUtils.CodeUnits | src/utils/syncUtils.js:15 | A character below 0x10000 gives itself as its one code unit. Any other character gives a surrogate pair: a high unit in [0xD800, 0xDC00) and a low unit in [0xDC00, 0xE000) that encode the character. Every unit is in [0, 0x10000). |
| SyncUtils.DecimalInjective | src/utils/syncUtils.js:19 | Different integers render as different decimal text. |
| SyncUtils.DataHashComparesHashes | src/utils/syncUtils.js:19-58 | Two hash strings are equal iff the 32-bit hashes are. |
| SyncUtils.GenerateDataHash | src/utils/syncUtils.js:11-20 | The loop over the code units yields the decimal text of the fold from 0. That fold is a signed 32-bit value. |
| SyncUtils.HashKeyIsAnotherKey | src/utils/syncUtils.js:29 | `${key}_hash` is never `key` itself. |
| SyncUtils.Written | src/utils/syncUtils.js:37-71 | Writing sets the data key and the hash key, and every other key keeps its value. |
| SyncUtils.Storage.constructor | src/utils/syncUtils.js:31-32 | The store starts with the given entries. |
| SyncUtils.SyncDataWithStorage | src/utils/syncUtils.js:28-45 | If the data or hash is blank or the hash differs, both keys are written and the bundled data is returned. Otherwise nothing changes and the parsed stored data is returned. |
| SyncUtils.ShouldSync | src/utils/syncUtils.js:53-59 | True iff the stored hash is blank or different. The store is not changed. |
| SyncUtils.ForceSync | src/utils/syncUtils.js:66-73 | Both keys are written unconditionally, and nothing else changes. |
| SyncUtils.WriteSettles | src/utils/syncUtils.js:37-71 | After a write, `shouldSync` on the same data is false. A further sync writes nothing unless the serialised data is empty. |
| SyncUtils.ShouldSyncImpliesWrite | src/utils/syncUtils.js:35-58 | Whenever `shouldSync` answers true, `syncDataWithStorage` would write. |
| SyncUtils.ShouldSyncMissesMissingData | src/utils/syncUtils.js:35-58 | With the hash stored but the data key missing, `shouldSync` answers false while `syncDataWithStorage` still writes. |
| NormalizeData.NormalizeString | normalize_data.js:11 | Null/undefined becomes "" and every present value is kept; the result is always present. |
| NormalizeData.NormalizeArray | normalize_data.js:12 | A non-array becomes [] and arrays are kept; the result is always an array. |
| NormalizeData.NormalizeFamily | normalize_data.js:14-42 | The field-by-field updates of one record equal `Normalized`. A `null` member makes the body throw. |
| NormalizeData.NormalizedList | normalize_data.js:14-43 | Fails iff some record throws. Otherwise it has the same length and order, with each record normalised. |
| NormalizeData.NormalizeFamilies | normalize_data.js:14-43 | The `families.map` loop computes `NormalizedList`. |
| NormalizeData.NormalizeEstablishes | normalize_data.js:16-40 | The primary member gets blood group, phone list and name pair; a present address gets a house-name pair; members become an array whose entries all have blood group and name pair. |
| NormalizeData.NormalizeFailsOnlyOnNullMember | normalize_data.js:34-35 | The script throws on a record iff `family_members` is an array holding `null`. |
| NormalizeData.NormalizeKeepsPresentValues | normalize_data.js:16-40 | Present values are never altered. A missing primary member or address stays missing, and location, geo, map link, ages and member phones are untouched. Members keep their number and order. |
| NormalizeData.NormalizedRecordIsFixed | normalize_data.js:11-42 | A record that is already normalised comes back unchanged. |
| NormalizeData.NormalizeIdempotent | normalize_data.js:14-42 | Normalising a normalised record is a no-op. |
| NormalizeData.NormalizeListIdempotent | normalize_data.js:14-43 | A normalised file comes back unchanged, and normalising twice equals normalising once. |
| NormalizeData.NormalizeKeepsSearchResult | normalize_data.js:11-40 | For a non-empty query, the search keeps a record iff it keeps its normalised form. |
| GenerateCredentials.PasswordFrom | generate_credentials.js:12-18 | The password has exactly the requested length, and every character is in the 36-character alphabet. |
| GenerateCredentials.GenerateRandomPassword | generate_credentials.js:12-18 | The loop builds `PasswordFrom` and has its length and alphabet. |
| GenerateCredentials.FirstPhone | generate_credentials.js:30-32 | Present iff the primary member has a non-empty phone array, and then it is `phone[0]`. |
| GenerateCredentials.Visit | generate_credentials.js:29-42 | One round adds at most the family's first phone as a key and never changes an existing entry. A family without a phone changes nothing. |
| GenerateCredentials.IssueCredentials | generate_credentials.js:26-43 | The `forEach` loop computes `Issued` from an empty map, or fails exactly when it does. `count` equals the number of keys. |
| GenerateCredentials.FailureIsFinal | generate_credentials.js:22-52 | Once a round has thrown, the run fails. |
| GenerateCredentials.IssuedKeys | generate_credentials.js:30-35 | The keys are exactly the first phone numbers of the families. |
| GenerateCredentials.FirstFamilyWins | generate_credentials.js:34-39 | The first family with a given first phone owns the entry: its id, its English name, and a six-character password over the alphabet. |
| GenerateCredentials.IssuedFailsIff | generate_credentials.js:34-38 | The run throws iff some family whose first phone is new has a primary member without a `name`. |
| GenerateCredentials.PasswordsHaveShape | generate_credentials.js:12-36 | Every entry's password has length 6 over the alphabet. |
| GenerateCredentials.NormalizedFileNeverCrashes | generate_credentials.js:38 | On a file of normalised records the run never throws. |
| GenerateCredentials.CredentialsAfterNormalizing | generate_credentials.js:38 | After the clean-up script has run on the file, issuing credentials never throws. |

## Left out

- Persistence inside the store's mutators is not modelled. Each mutator also writes its list to local storage (for example `src/context/FamilyContext.jsx:62`), and that write is left out. React state, the loaders, `refreshData` and `updateNotification` are framework plumbing.
- `toLowerCase` is restricted to ASCII `A`–`Z`; other scripts' case mappings are not modelled.
- `includes` is the substring predicate on Unicode scalar values. The Malayalam text is compared raw, as the code does.
- Field values of the wrong JSON type are not modelled. This covers a number where text is expected, a non-array `phone` that is not missing, and a `null` element of `phone`. Present text fields are strings, and present arrays are sequences.
- Amounts are reals. Floating-point rounding, `NaN` from `parseFloat` and summation order are not modelled.
- `JSON.stringify` and `JSON.parse` are parameters of the sync operations, and the serialisation is assumed total. `stringify(undefined)` returning `undefined` is not modelled.
- The clock (`Date.now()`, `new Date().toISOString()`) is a parameter: the `now` of `AddFee` and the `date` of `RecordPayment`.
- `Math.random` is a parameter: an oracle of draws in [0, 36). Password k of a run uses draws 6k to 6k+5.
- File reads and writes and console output of the two scripts are left out. The failure of `main` is the `None` result.
- The credentials object is a plain JS object. Keys such as `constructor`, inherited from the prototype, would look present; the model's map has no inherited keys.
- NormalizeData.NormalizeFamily: the script mutates parsed objects in place. A parsed JSON tree shares no objects, so each record is modelled as a value updated field by field.
- FamilyContext.SearchFamilies: a `null` or `undefined` query (also returned unchanged by `!query`) is not modelled; the query is a string.
- FamilyContext.PaidIsFirstRecordedAmount: the upsert keeps pairs unique, but records loaded from storage may repeat a pair. The model states what the code does in that case: the first record counts.
- The fee report's name/id filter (`src/pages/FeeManagement.jsx:40-43`) is not modelled. The "Total Expected" lemma is stated over whichever family ids the report lists.
- With no fees, `totalPaid` still sums the family's payments, so `totalBalance` is its negation (FamilyContext.NoFeesNoLines).
- `Pending` covers every `paid <= 0` below the amount, not only `paid == 0` (FamilyContext.StatusOf).
- The totals have no guard for non-finite values; amounts here are reals, so there are none.
- The `console.log` calls of `syncDataWithStorage` and `forceSync` are output only and are left out.
- A `null` entry of the family list itself is not modelled. `filter`, `map` and `forEach` would throw at `family.primary_member`, and `seq<Family>` has no such entry.
