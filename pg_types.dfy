/**
 * The listing record and the search-filter record, with the string unions of
 * the TypeScript declarations turned into closed datatypes. Each union keeps
 * its string spelling (`...Label`) and a parser from strings (`Parse...`).
 * The parsers stand for the union declarations themselves: they say which
 * strings the TypeScript type admits. No operation of the model calls them,
 * because the admin form's selects reach its change handler already typed.
 */
module PGTypes {
  import opened Wrappers

  datatype Gender = Male | Female | Coed
  datatype RoomType = Single | Double | Triple
  datatype Availability = Available | Limited | Full

  /** The filter's gender: `Any`, or one of the listing genders. */
  datatype GenderFilter = Any | Only(gender: Gender)

  /** One PG listing. Rent is a whole number; the rating is kept but never
      computed with. */
  datatype Listing = Listing(
    id: string,
    name: string,
    images: seq<string>,
    monthlyRent: int,
    genderPreference: Gender,
    location: string,
    area: string,
    phoneNumber: string,
    googleMapsLink: string,
    rating: real,
    amenities: seq<string>,
    roomType: RoomType,
    description: string,
    verified: bool,
    availability: Availability)

  /** Both bounds are inclusive; nothing forces `min <= max`. */
  datatype PriceRange = PriceRange(min: int, max: int)

  datatype SearchFilters = SearchFilters(
    studentName: string,
    genderPreference: GenderFilter,
    priceRange: PriceRange,
    location: string)

  function GenderLabel(g: Gender): string {
    match g
    case Male => "Male"
    case Female => "Female"
    case Coed => "Co-ed"
  }

  function RoomTypeLabel(t: RoomType): string {
    match t
    case Single => "Single"
    case Double => "Double"
    case Triple => "Triple"
  }

  function AvailabilityLabel(a: Availability): string {
    match a
    case Available => "Available"
    case Limited => "Limited"
    case Full => "Full"
  }

  function GenderFilterLabel(f: GenderFilter): string {
    match f
    case Any => "Any"
    case Only(g) => GenderLabel(g)
  }

  /** A string denotes a listing gender exactly when it is one of the three labels. */
  function ParseGender(s: string): (r: Option<Gender>)
    ensures r.Some? ==> GenderLabel(r.value) == s
    ensures r.None? <==> forall g: Gender :: GenderLabel(g) != s
  {
    if s == "Male" then Some(Male)
    else if s == "Female" then Some(Female)
    else if s == "Co-ed" then Some(Coed)
    else None
  }

  function ParseRoomType(s: string): (r: Option<RoomType>)
    ensures r.Some? ==> RoomTypeLabel(r.value) == s
    ensures r.None? <==> forall t: RoomType :: RoomTypeLabel(t) != s
  {
    if s == "Single" then Some(Single)
    else if s == "Double" then Some(Double)
    else if s == "Triple" then Some(Triple)
    else None
  }

  function ParseAvailability(s: string): (r: Option<Availability>)
    ensures r.Some? ==> AvailabilityLabel(r.value) == s
    ensures r.None? <==> forall a: Availability :: AvailabilityLabel(a) != s
  {
    if s == "Available" then Some(Available)
    else if s == "Limited" then Some(Limited)
    else if s == "Full" then Some(Full)
    else None
  }

  function ParseGenderFilter(s: string): (r: Option<GenderFilter>)
    ensures r.Some? ==> GenderFilterLabel(r.value) == s
    ensures r.None? <==> forall f: GenderFilter :: GenderFilterLabel(f) != s
  {
    if s == "Any" then Some(Any)
    else match ParseGender(s)
      case Some(g) => Some(Only(g))
      case None => None
  }

  /** Each union value has its own label, so parsing its label gives it back. */
  lemma LabelsRoundTrip(g: Gender, t: RoomType, a: Availability, f: GenderFilter)
    ensures ParseGender(GenderLabel(g)) == Some(g)
    ensures ParseRoomType(RoomTypeLabel(t)) == Some(t)
    ensures ParseAvailability(AvailabilityLabel(a)) == Some(a)
    ensures ParseGenderFilter(GenderFilterLabel(f)) == Some(f)
  {
  }

  /** `Any` is the one filter value that no listing can carry: its label is
      not a listing gender, and every other filter value is the label of
      exactly one listing gender. */
  lemma AnyHasNoListingCounterpart(f: GenderFilter, g: Gender)
    ensures ParseGender(GenderFilterLabel(Any)) == None
    ensures GenderFilterLabel(f) == GenderLabel(g) <==> f == Only(g)
  {
    LabelsRoundTrip(g, Single, Available, f);
  }

  /** The listing ids of `s`, in order. */
  function Ids(s: seq<Listing>): (r: seq<string>)
    ensures |r| == |s|
    ensures forall i :: 0 <= i < |s| ==> r[i] == s[i].id
  {
    seq(|s|, i requires 0 <= i < |s| => s[i].id)
  }

  /** No two listings share an id. The stores start this way, but no
      operation checks it: the add handler takes its new id from the clock. */
  predicate UniqueIds(s: seq<Listing>) {
    forall i, j :: 0 <= i < j < |s| ==> s[i].id != s[j].id
  }
}
