/**
 * `GET /api/stays` and `OPTIONS /api/stays`: the public catalogue of stays,
 * open to other origins. Only published listings are shown, newest first.
 */
module StaysApi {
  import opened Wrappers
  import Query
  import opened Store

  /** A listing row joined with its property, as `findMany` with `include: { property: true }` yields it. */
  datatype ListingRow = ListingRow(id: Id, listing: Listing, propertyId: Id, property: Property)

  datatype PropertySummary = PropertySummary(id: Id, title: string, address: string)

  /** One stay as the API returns it. */
  datatype StayView = StayView(
    id: Id, slug: string, title: string, description: string,
    nightlyRate: int, cleaningFee: int, maxGuests: int, currency: string,
    publishedAt: Option<int>, heroImage: Option<string>, property: PropertySummary)

  type Headers = seq<(string, string)>

  const CorsHeaders: Headers := [
    ("Access-Control-Allow-Origin", "*"),
    ("Access-Control-Allow-Methods", "GET, OPTIONS"),
    ("Access-Control-Allow-Headers", "Content-Type, Authorization")]

  datatype Response = Response(status: nat, headers: Headers, stays: seq<StayView>)

  predicate IsPublished(r: ListingRow) {
    r.listing.status == Published
  }

  /** `orderBy: { publishedAt: "desc" }`; an unpublished date sorts first. */
  function PublishedRank(r: ListingRow): Query.Rank {
    match r.listing.publishedAt
    case None => Query.Top
    case Some(t) => Query.At(t)
  }

  /** The rank of a view, by the same rule. */
  function ViewRank(v: StayView): Query.Rank {
    match v.publishedAt
    case None => Query.Top
    case Some(t) => Query.At(t)
  }

  /** The public shape of one row: prices in the listing's terms, USD, the first photo as the hero image. */
  function View(r: ListingRow): (v: StayView)
    ensures v.id == r.id && v.slug == r.listing.slug && v.publishedAt == r.listing.publishedAt
    ensures v.title == r.listing.title && v.description == r.listing.description
    ensures v.nightlyRate == r.listing.nightlyRate && v.cleaningFee == r.listing.cleaningFee
    ensures v.maxGuests == r.listing.maxGuests
    ensures v.currency == "usd"
    ensures v.heroImage.Some? <==> r.property.photos != []
    ensures v.heroImage.Some? ==> v.heroImage.value == r.property.photos[0]
    ensures v.property == PropertySummary(r.propertyId, r.property.title, r.property.address)
    ensures ViewRank(v) == PublishedRank(r)
  {
    StayView(r.id, r.listing.slug, r.listing.title, r.listing.description,
             r.listing.nightlyRate, r.listing.cleaningFee, r.listing.maxGuests, "usd",
             r.listing.publishedAt,
             if r.property.photos == [] then None else Some(r.property.photos[0]),
             PropertySummary(r.propertyId, r.property.title, r.property.address))
  }

  /** The published rows, newest first. */
  function Selected(rows: seq<ListingRow>): (sel: seq<ListingRow>)
    ensures |sel| <= |rows|
    ensures Query.SortedDesc(sel, PublishedRank)
  {
    Query.OrderByDesc(Query.Where(rows, IsPublished), PublishedRank)
  }

  /** `GET`: the views of the selected rows, with the cross-origin headers. */
  function Get(rows: seq<ListingRow>): (r: Response)
    ensures r.status == 200 && r.headers == CorsHeaders
    ensures |r.stays| == |Selected(rows)|
    ensures forall i :: 0 <= i < |r.stays| ==> r.stays[i] == View(Selected(rows)[i])
  {
    var sel := Selected(rows);
    Response(200, CorsHeaders, seq(|sel|, i requires 0 <= i < |sel| => View(sel[i])))
  }

  /** Every stay shown comes from a published listing row. */
  lemma OnlyPublishedShown(rows: seq<ListingRow>, i: nat)
    requires i < |Get(rows).stays|
    ensures exists j :: 0 <= j < |rows| && IsPublished(rows[j]) && Get(rows).stays[i] == View(rows[j])
  {
    var sel := Selected(rows);
    var pub := Query.Where(rows, IsPublished);
    assert sel[i] in multiset(pub);
    assert sel[i] in pub;
    var j :| 0 <= j < |rows| && rows[j] == sel[i];
  }

  /** Every published listing row is shown, as many times as it occurs. */
  lemma EveryPublishedShown(rows: seq<ListingRow>, r: ListingRow)
    requires IsPublished(r)
    ensures multiset(Selected(rows))[r] == multiset(rows)[r]
    ensures r in rows ==> View(r) in Get(rows).stays
  {
    Query.WhereCounts(rows, IsPublished);
    var sel := Selected(rows);
    if r in rows {
      assert r in multiset(sel);
      var i :| 0 <= i < |sel| && sel[i] == r;
      assert Get(rows).stays[i] == View(r);
    }
  }

  /** The stays come newest first, the ones without a publication date ahead of all others. */
  lemma NewestFirst(rows: seq<ListingRow>)
    ensures Query.SortedDesc(Get(rows).stays, ViewRank)
  {
    var sel := Selected(rows);
    var out := Get(rows).stays;
    forall i, j | 0 <= i < j < |out|
      ensures Query.RankGe(ViewRank(out[i]), ViewRank(out[j]))
    {
      assert ViewRank(out[i]) == PublishedRank(sel[i]);
      assert ViewRank(out[j]) == PublishedRank(sel[j]);
    }
  }

  /** Only published rows are selected: an unpublished listing is never shown, whatever else the table holds. */
  lemma DraftsHidden(rows: seq<ListingRow>)
    ensures forall r :: r in Selected(rows) ==> IsPublished(r)
  {
    var pub := Query.Where(rows, IsPublished);
    forall r | r in Selected(rows)
      ensures IsPublished(r)
    {
      assert r in multiset(pub);
      var i :| 0 <= i < |pub| && pub[i] == r;
    }
  }

  /** `OPTIONS`: the preflight answer, 204 with the cross-origin headers and no body. */
  function Options(): (r: Response)
    ensures r.status == 204 && r.headers == CorsHeaders && r.stays == []
  {
    Response(204, CorsHeaders, [])
  }
}
