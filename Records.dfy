/**
 * The records of the directory's JSON data (families, fees, payments).
 * Every field the code reaches through optional chaining is an `Option`:
 * `None` is a field that is missing, `null` or `undefined`.
 */
module Records {
  import opened Wrappers

  /** A bilingual pair: English (`en`) and Malayalam (`ml`). */
  datatype Names = Names(en: Option<string>, ml: Option<string>)

  /** Map coordinates, kept as the text of the JSON number or string; nothing here reads them. */
  datatype Geo = Geo(lat: string, lng: string)

  /** The primary member of a family, or one entry of `family_members`. */
  datatype Person = Person(
    name: Option<Names>,
    bloodGroup: Option<string>,
    phone: Option<seq<string>>,
    age: Option<int>)

  datatype Address = Address(
    houseName: Option<Names>,
    location: Option<Names>,
    geo: Option<Geo>,
    mapsUrl: Option<string>)

  /** `familyMembers` may itself hold `null` entries, hence `Option<Person>`. */
  datatype Family = Family(
    id: Option<string>,
    primaryMember: Option<Person>,
    address: Option<Address>,
    familyMembers: Option<seq<Option<Person>>>)

  /** A fee every family owes. */
  datatype Fee = Fee(id: string, title: string, category: string, amount: real)

  /** What one family paid towards one fee; `(familyId, feeId)` is meant to be unique. */
  datatype Payment = Payment(familyId: string, feeId: string, amount: real, date: string)

  /** The `name` pair of an optional person, or `None` when there is no person. */
  function NameOf(p: Option<Person>): Option<Names> {
    if p.Some? then p.value.name else None
  }

  /** `n?.en`. */
  function EnOf(n: Option<Names>): Option<string> {
    if n.Some? then n.value.en else None
  }

  /** `n?.ml`. */
  function MlOf(n: Option<Names>): Option<string> {
    if n.Some? then n.value.ml else None
  }

  /** `address?.house_name`. */
  function HouseNameOf(a: Option<Address>): Option<Names> {
    if a.Some? then a.value.houseName else None
  }
}
