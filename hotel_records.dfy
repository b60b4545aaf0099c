/**
 * The `HotelWithRooms` record (types/types.ts), the raw property-content
 * entry it is built from, and the normalisation both fetch actions apply:
 * every field read with JavaScript `||` defaulting.
 */
module HotelRecords {
  import opened Wrappers

  /** One room of a hotel; only its price is carried. */
  datatype Room = Room(roomPrice: real)

  // ---------------------------------------------------------------- raw side

  /** `hero_image_url` as the content API sends it. */
  datatype RawHeroImage = RawHeroImage(lg: Option<string>)

  /** `catalog` as the content API sends it; every field may be absent. */
  datatype RawCatalog = RawCatalog(
    city: Option<string>,
    brand: Option<string>,
    chain: Option<string>,
    phone: Option<string>,
    category: Option<string>,
    starRating: Option<real>,
    reviewCount: Option<real>,
    reviewRating: Option<real>,
    heroImageUrl: Option<RawHeroImage>)

  /** One entry of the content API's response body, keyed by hotel id. */
  datatype RawHotel = RawHotel(
    id: string,
    name: string,
    countryCode: Option<string>,
    addressLine: Option<string>,
    catalog: Option<RawCatalog>,
    rooms: Option<seq<Room>>,
    swimmingPool: Option<bool>,
    gym: Option<bool>)

  /** What one property-content request produced: a body (whose `data` may be missing) or a transport error. */
  datatype ContentResponse = Received(data: Option<map<string, RawHotel>>) | TransportError

  // ---------------------------------------------------------- normalised side

  datatype HeroImage = HeroImage(lg: string)

  datatype Catalog = Catalog(
    city: string,
    brand: string,
    chain: string,
    phone: string,
    category: string,
    starRating: real,
    reviewCount: Option<real>,
    reviewRating: Option<real>,
    heroImageUrl: HeroImage)

  /** `HotelWithRooms`: `swimmingPool` and `gym` are optional fields. */
  datatype Hotel = Hotel(
    id: string,
    name: string,
    countryCode: string,
    addressLine: string,
    city: string,
    catalog: Catalog,
    rooms: seq<Room>,
    swimmingPool: Option<bool>,
    gym: Option<bool>)

  // ------------------------------------------------------ JavaScript truthiness

  predicate TruthyString(v: Option<string>) { v.Some? && v.value != "" }
  predicate TruthyNumber(v: Option<real>) { v.Some? && v.value != 0.0 }
  predicate TruthyBool(v: Option<bool>) { v == Some(true) }

  /** `v || fallback` for a string field. */
  function OrString(v: Option<string>, fallback: string): string
  {
    if TruthyString(v) then v.value else fallback
  }

  /** `v || fallback` for a numeric field. */
  function OrNumber(v: Option<real>, fallback: real): real
  {
    if TruthyNumber(v) then v.value else fallback
  }

  // ------------------------------------------------------------ normalisation

  const UnknownBrand: string := "Unknown Brand"

  /** The room list substituted for an absent `rooms`: one zero-priced room. */
  const PlaceholderRooms: seq<Room> := [Room(0.0)]

  /**
   * The catalog block of a normalised record. Each field on its own: a
   * truthy raw value is copied, an absent or falsy one takes its default
   * (`""`, `"Unknown Brand"` or `0`); the review fields are copied as they are.
   */
  function NormalizeCatalog(c: RawCatalog): (r: Catalog)
    ensures TruthyString(c.city) ==> r.city == c.city.value
    ensures !TruthyString(c.city) ==> r.city == ""
    ensures TruthyString(c.brand) ==> r.brand == c.brand.value
    ensures !TruthyString(c.brand) ==> r.brand == UnknownBrand
    ensures TruthyString(c.chain) ==> r.chain == c.chain.value
    ensures !TruthyString(c.chain) ==> r.chain == UnknownBrand
    ensures TruthyString(c.phone) ==> r.phone == c.phone.value
    ensures !TruthyString(c.phone) ==> r.phone == ""
    ensures TruthyString(c.category) ==> r.category == c.category.value
    ensures !TruthyString(c.category) ==> r.category == ""
    ensures TruthyNumber(c.starRating) ==> r.starRating == c.starRating.value
    ensures !TruthyNumber(c.starRating) ==> r.starRating == 0.0
    ensures r.reviewCount == c.reviewCount && r.reviewRating == c.reviewRating
    ensures c.heroImageUrl.Some? && TruthyString(c.heroImageUrl.value.lg) ==> r.heroImageUrl.lg == c.heroImageUrl.value.lg.value
    ensures c.heroImageUrl.None? || !TruthyString(c.heroImageUrl.value.lg) ==> r.heroImageUrl.lg == ""
  {
    Catalog(
      OrString(c.city, ""),
      OrString(c.brand, UnknownBrand),
      OrString(c.chain, UnknownBrand),
      OrString(c.phone, ""),
      OrString(c.category, ""),
      OrNumber(c.starRating, 0.0),
      c.reviewCount,
      c.reviewRating,
      HeroImage(if c.heroImageUrl.Some? then OrString(c.heroImageUrl.value.lg, "") else ""))
  }

  /**
   * The object literal both fetch actions build from one entry, without the
   * amenity flags. `None` stands for the TypeError thrown by reading
   * `data.catalog.city` when `catalog` is absent.
   */
  function Normalize(raw: RawHotel): (r: Option<Hotel>)
    ensures r.Some? <==> raw.catalog.Some?
    ensures r.Some? ==> r.value.id == raw.id && r.value.name == raw.name
    ensures r.Some? && TruthyString(raw.countryCode) ==> r.value.countryCode == raw.countryCode.value
    ensures r.Some? && !TruthyString(raw.countryCode) ==> r.value.countryCode == ""
    ensures r.Some? && TruthyString(raw.addressLine) ==> r.value.addressLine == raw.addressLine.value
    ensures r.Some? && !TruthyString(raw.addressLine) ==> r.value.addressLine == ""
    ensures r.Some? ==> r.value.catalog == NormalizeCatalog(raw.catalog.value)
    ensures r.Some? ==> r.value.city == r.value.catalog.city
    ensures r.Some? ==> r.value.catalog.brand != "" && r.value.catalog.chain != ""
    ensures r.Some? ==> r.value.swimmingPool.None? && r.value.gym.None?
    ensures r.Some? && raw.rooms.Some? ==> r.value.rooms == raw.rooms.value
    ensures r.Some? && raw.rooms.None? ==> r.value.rooms == PlaceholderRooms
  {
    match raw.catalog
    case None => None
    case Some(c) =>
      var catalog := NormalizeCatalog(c);
      Some(Hotel(
        raw.id,
        raw.name,
        OrString(raw.countryCode, ""),
        OrString(raw.addressLine, ""),
        catalog.city,
        catalog,
        if raw.rooms.Some? then raw.rooms.value else PlaceholderRooms,
        None,
        None))
  }

  /** The catalog block every field of which was absent. */
  const DefaultCatalog: Catalog :=
    Catalog("", UnknownBrand, UnknownBrand, "", "", 0.0, None, None, HeroImage(""))

  /** A catalog whose fields are all absent normalises to the all-default block. */
  lemma AbsentFieldsTakeDefaults(c: RawCatalog)
    requires c.city.None? && c.brand.None? && c.chain.None? && c.phone.None? && c.category.None?
    requires c.starRating.None? && c.reviewCount.None? && c.reviewRating.None? && c.heroImageUrl.None?
    ensures NormalizeCatalog(c) == DefaultCatalog
  {
  }

  /** An empty string, a zero rating and an empty `lg` take the same defaults as absent ones. */
  lemma FalsyIsAbsent(c: RawCatalog)
    ensures NormalizeCatalog(c.(city := Some(""))) == NormalizeCatalog(c.(city := None))
    ensures NormalizeCatalog(c.(brand := Some(""))) == NormalizeCatalog(c.(brand := None))
    ensures NormalizeCatalog(c.(chain := Some(""))) == NormalizeCatalog(c.(chain := None))
    ensures NormalizeCatalog(c.(phone := Some(""))) == NormalizeCatalog(c.(phone := None))
    ensures NormalizeCatalog(c.(category := Some(""))) == NormalizeCatalog(c.(category := None))
    ensures NormalizeCatalog(c.(starRating := Some(0.0))) == NormalizeCatalog(c.(starRating := None))
    ensures NormalizeCatalog(c.(heroImageUrl := Some(RawHeroImage(Some(""))))) == NormalizeCatalog(c.(heroImageUrl := None))
  {
  }

  /** A present `rooms` list is kept even when empty: `[]` is truthy in JavaScript. */
  lemma EmptyRoomsKept(raw: RawHotel)
    requires raw.catalog.Some? && raw.rooms == Some([])
    ensures Normalize(raw).value.rooms == []
  {
  }

  /** A normalised record: non-empty brand and chain, top-level city copied from the catalog. */
  predicate IsNormalized(h: Hotel)
  {
    h.catalog.brand != "" && h.catalog.chain != "" && h.city == h.catalog.city
  }

  /** A record written back in the content API's shape, every field present. */
  function ToRaw(h: Hotel): RawHotel
  {
    RawHotel(
      h.id, h.name, Some(h.countryCode), Some(h.addressLine),
      Some(RawCatalog(
        Some(h.catalog.city), Some(h.catalog.brand), Some(h.catalog.chain),
        Some(h.catalog.phone), Some(h.catalog.category), Some(h.catalog.starRating),
        h.catalog.reviewCount, h.catalog.reviewRating,
        Some(RawHeroImage(Some(h.catalog.heroImageUrl.lg))))),
      Some(h.rooms), h.swimmingPool, h.gym)
  }

  /**
   * Normalisation is a left inverse of `ToRaw` on normalised records without
   * amenity flags: such a record is a fixed point of the defaulting.
   */
  lemma NormalizeToRaw(h: Hotel)
    requires IsNormalized(h) && h.swimmingPool.None? && h.gym.None?
    ensures Normalize(ToRaw(h)) == Some(h)
  {
  }

  /** Normalising a normalised record again changes nothing. */
  lemma NormalizeIdempotent(raw: RawHotel)
    requires raw.catalog.Some?
    ensures Normalize(ToRaw(Normalize(raw).value)) == Normalize(raw)
  {
    NormalizeToRaw(Normalize(raw).value);
  }
}
