/** The already-parsed feed: the shapes xml2js produces for a `ListingDataFeed`
    document when it is parsed with `explicitArray: false`, `mergeAttrs: true`
    and namespace prefixes stripped from tag names. */
module Feed {
  import opened Wrappers

  /** One field of a listing as JavaScript sees it after parsing:
      - `Absent`: the element is missing (`undefined`);
      - `Scalar(s)`: an element with text only, which becomes the bare string `s`;
      - `Attributed(text, attrs)`: an element that carries attributes, which becomes
        an object whose text payload, if any, sits under the key `_` and whose
        attributes are merged in beside it. */
  datatype Raw =
    | Absent
    | Scalar(s: string)
    | Attributed(text: Option<string>, attrs: map<string, string>)

  /** The `<Details>` block. A missing block reads as `{}` in the source
      (`item.Details || {}`), which is this record with every field `Absent`. */
  datatype Details = Details(
    propertyType: Raw,
    bedrooms: Raw,
    bathrooms: Raw,
    garage: Raw,
    livingArea: Raw,
    lotArea: Raw,
    listPrice: Raw,
    rentalPrice: Raw)

  /** The `<Location>` block; a missing block reads as every field `Absent`
      (`item.Location?.Neighborhood`). */
  datatype Location = Location(neighborhood: Raw, city: Raw)

  /** One `<Listing>` element. */
  datatype Listing = Listing(
    title: Raw,
    transactionType: Raw,
    details: Details,
    location: Location,
    listingId: Raw,
    detailViewUrl: Raw)

  /** What `json.ListingDataFeed.Listings.Listing` holds. Without `explicitArray`
      xml2js builds an array only for a repeated element: no `<Listing>` at all
      gives `undefined`, a single one gives the object itself, and two or more
      give an array. */
  datatype ListingsNode =
    | NoListing
    | OneListing(listing: Listing)
    | ListingArray(items: seq<Listing>)

  /** The uploaded document: `Unreadable` stands for every way reading or parsing
      the file fails (I/O error, malformed XML, no `ListingDataFeed.Listings`). */
  datatype Document = Unreadable | Parsed(listings: ListingsNode)

  /** JavaScript truthiness of a field: `undefined` and `""` are falsy, every
      non-empty string and every object is truthy. */
  predicate Truthy(v: Raw) {
    match v
    case Absent => false
    case Scalar(s) => s != ""
    case Attributed(_, _) => true
  }

  /** `v || null`: a falsy field becomes null, modelled as `Absent`. */
  function OrNull(v: Raw): (r: Raw)
    ensures Truthy(v) ==> r == v
    ensures !Truthy(v) ==> r == Absent
  {
    if Truthy(v) then v else Absent
  }
}
