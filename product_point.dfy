/**
 The translation of one product observation into a time-series point, as done by
 `WriteProductDatapoint` before it hands the point to the store client.

 A point carries five string tags (the product's dimensions) and an integer field
 map with the price, the weight and, only when the price moved, the signed change.
 */
module ProductPoint {

  /** A wall-clock reading; the model never looks inside it. */
  type Instant = int

  /** The members of a product record that the translation reads, plus the two it ignores. */
  datatype ProductInfo = ProductInfo(
    id: string,
    name: string,
    description: string,
    store: string,
    department: string,
    location: string,
    priceCents: int,
    previousPriceCents: int,
    weightGrams: int,
    timestamp: Instant
  )

  /** What is handed to the store: measurement name, tags, fields and the point's time. */
  datatype Point = Point(
    table: string,
    tags: map<string, string>,
    fields: map<string, int>,
    time: Instant
  )

  const IdTag := "id"
  const NameTag := "name"
  const StoreTag := "store"
  const LocationTag := "location"
  const DepartmentTag := "department"

  const CentsField := "cents"
  const GramsField := "grams"
  const CentsChangeField := "cents_change"

  const TagKeys: set<string> := {IdTag, NameTag, StoreTag, LocationTag, DepartmentTag}
  const FieldKeys: set<string> := {CentsField, GramsField, CentsChangeField}

  /** The tag map: every dimension of the record copied verbatim, empty strings included. */
  function Tags(info: ProductInfo): (t: map<string, string>)
    ensures t.Keys == TagKeys
    ensures t[IdTag] == info.id && t[NameTag] == info.name && t[StoreTag] == info.store
    ensures t[LocationTag] == info.location && t[DepartmentTag] == info.department
  {
    map[
      IdTag := info.id,
      NameTag := info.name,
      StoreTag := info.store,
      LocationTag := info.location,
      DepartmentTag := info.department
    ]
  }

  /** True when the record's price differs from its previous price, the only test the writer makes. */
  predicate PriceChanged(info: ProductInfo)
  {
    info.priceCents != info.previousPriceCents
  }

  /**
   The field map: price and weight always; the signed price change only when the price
   changed, and then as an absent key rather than a zero otherwise.
   */
  function Fields(info: ProductInfo): (f: map<string, int>)
    ensures f.Keys <= FieldKeys
    ensures CentsField in f && f[CentsField] == info.priceCents
    ensures GramsField in f && f[GramsField] == info.weightGrams
    ensures CentsChangeField in f <==> PriceChanged(info)
    ensures CentsChangeField in f ==> f[CentsChangeField] == info.priceCents - info.previousPriceCents
  {
    var base := map[CentsField := info.priceCents, GramsField := info.weightGrams];
    if PriceChanged(info) then base[CentsChangeField := info.priceCents - info.previousPriceCents]
    else base
  }

  /**
   The point written for `info`: the measurement is the supplied table name and the time is
   the clock reading `now` taken at write time, not the record's own timestamp.
   */
  function BuildProductPoint(table: string, info: ProductInfo, now: Instant): (p: Point)
    ensures p.table == table && p.time == now
  {
    Point(table, Tags(info), Fields(info), now)
  }

  /** Tag keys and field keys never overlap. */
  lemma TagsAndFieldsDisjoint(info: ProductInfo)
    ensures Tags(info).Keys !! Fields(info).Keys
  {
  }

  /** The field map has two entries when the price is unchanged and three when it changed. */
  lemma FieldCount(info: ProductInfo)
    ensures |Fields(info)| == if PriceChanged(info) then 3 else 2
  {
  }

  /** The point has exactly the five tags and two or three fields, whatever the record holds. */
  lemma PointShape(table: string, info: ProductInfo, now: Instant)
    ensures var p := BuildProductPoint(table, info, now);
      && |p.tags| == 5
      && 2 <= |p.fields| <= 3
      && p.fields.Keys <= FieldKeys
      && p.tags.Keys !! p.fields.Keys
  {
  }

  /**
   The point depends on the table, the clock reading and the eight translated members only:
   description and the record's timestamp reach neither map, and the measurement name is
   never taken from the record.
   */
  lemma PointIgnoresUntranslatedMembers(table: string, a: ProductInfo, b: ProductInfo, now: Instant)
    requires a.id == b.id && a.name == b.name && a.store == b.store
    requires a.location == b.location && a.department == b.department
    requires a.priceCents == b.priceCents && a.previousPriceCents == b.previousPriceCents
    requires a.weightGrams == b.weightGrams
    ensures BuildProductPoint(table, a, now) == BuildProductPoint(table, b, now)
  {
  }

  /** An unchanged price leaves `cents_change` out of the fields altogether. */
  lemma UnchangedPriceHasNoChangeField(info: ProductInfo)
    requires info.priceCents == info.previousPriceCents
    ensures CentsChangeField !in Fields(info)
    ensures Fields(info) == map[CentsField := info.priceCents, GramsField := info.weightGrams]
  {
  }

  /**
   A previous price of zero is not special: a record with a non-zero price and no earlier
   price still gets a change equal to its whole price.
   */
  lemma ZeroPreviousPriceStillChanges(info: ProductInfo)
    requires info.previousPriceCents == 0 && info.priceCents != 0
    ensures CentsChangeField in Fields(info) && Fields(info)[CentsChangeField] == info.priceCents
  {
  }
}
