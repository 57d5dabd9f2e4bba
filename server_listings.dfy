/** The listing routes: search with optional location and price filters, fetch
    by id, host-only create, owner-only update and delete. */
module ServerListings {

  import opened Common
  import opened Text
  import opened Crypto

  datatype Listing = Listing(
    title: string,
    description: string,
    location: string,
    price: int,
    amenities: seq<string>,
    images: seq<string>,
    hostId: UserId)

  /** The body of `POST /`, including whatever `hostId` the client sent. */
  datatype ListingBody = ListingBody(
    title: string,
    description: string,
    location: string,
    price: int,
    amenities: seq<string>,
    images: seq<string>,
    hostId: Option<UserId>)

  /** The body of `PUT /:id`: `Some` for each field present in the request. */
  datatype ListingPatch = ListingPatch(
    title: Option<string>,
    description: Option<string>,
    location: Option<string>,
    price: Option<int>,
    amenities: Option<seq<string>>,
    images: Option<seq<string>>,
    hostId: Option<UserId>)

  /** `new Listing({ ...req.body, hostId: req.user.id })` */
  function NewListing(body: ListingBody, host: UserId): (l: Listing)
    ensures l.hostId == host
    ensures && l.title == body.title && l.description == body.description && l.location == body.location
            && l.price == body.price && l.amenities == body.amenities && l.images == body.images
  {
    Listing(body.title, body.description, body.location, body.price, body.amenities, body.images, host)
  }

  /** `findByIdAndUpdate(id, req.body)`: each field present in the body replaces the stored one. */
  function ApplyPatch(l: Listing, p: ListingPatch): (r: Listing)
    ensures r.title == (if p.title.Some? then p.title.value else l.title)
    ensures r.description == (if p.description.Some? then p.description.value else l.description)
    ensures r.location == (if p.location.Some? then p.location.value else l.location)
    ensures r.price == (if p.price.Some? then p.price.value else l.price)
    ensures r.amenities == (if p.amenities.Some? then p.amenities.value else l.amenities)
    ensures r.images == (if p.images.Some? then p.images.value else l.images)
    ensures r.hostId == (if p.hostId.Some? then p.hostId.value else l.hostId)
  {
    Listing(
      p.title.GetOr(l.title),
      p.description.GetOr(l.description),
      p.location.GetOr(l.location),
      p.price.GetOr(l.price),
      p.amenities.GetOr(l.amenities),
      p.images.GetOr(l.images),
      p.hostId.GetOr(l.hostId))
  }

  /** Applying the same update twice is applying it once; an empty body changes nothing. */
  lemma ApplyPatchIdempotent(l: Listing, p: ListingPatch)
    ensures ApplyPatch(ApplyPatch(l, p), p) == ApplyPatch(l, p)
    ensures ApplyPatch(l, ListingPatch(None, None, None, None, None, None, None)) == l
  {
  }

  // -----------------------------------------------------------------------
  // GET / : the search filter
  // -----------------------------------------------------------------------

  /** The query string of `GET /`. `location` is "" when missing or empty; a
      price is `None` when missing or empty and otherwise the number `+value`. */
  datatype ListingQuery = ListingQuery(location: string, minPrice: Option<int>, maxPrice: Option<int>)

  datatype PriceBounds = PriceBounds(gte: Option<int>, lte: Option<int>)

  /** The filter object handed to the store. */
  datatype ListingFilter = ListingFilter(location: Option<string>, price: Option<PriceBounds>)

  /** How the store evaluates a filter on one listing (the location pattern is
      taken literally, case-insensitively). */
  predicate Admits(f: ListingFilter, l: Listing) {
    && (f.location.Some? ==> ContainsIgnoreCase(l.location, f.location.value))
    && (f.price.Some? ==>
          && (f.price.value.gte.Some? ==> l.price >= f.price.value.gte.value)
          && (f.price.value.lte.Some? ==> l.price <= f.price.value.lte.value))
  }

  /** What a search promises: a case-insensitive location match conjoined with
      inclusive lower and upper price bounds, each applying only when given. */
  predicate SearchMatches(q: ListingQuery, l: Listing) {
    && (q.location != "" ==> ContainsIgnoreCase(l.location, q.location))
    && (q.minPrice.Some? ==> q.minPrice.value <= l.price)
    && (q.maxPrice.Some? ==> l.price <= q.maxPrice.value)
  }

  /** Builds the filter object step by step, as the route does. */
  method BuildFilter(q: ListingQuery) returns (f: ListingFilter)
    ensures f.location.Some? <==> q.location != ""
    ensures f.price.Some? <==> q.minPrice.Some? || q.maxPrice.Some?
    ensures forall l :: Admits(f, l) <==> SearchMatches(q, l)
  {
    f := ListingFilter(None, None);
    if q.location != "" {
      f := f.(location := Some(q.location));
    }
    if q.minPrice.Some? || q.maxPrice.Some? {
      f := f.(price := Some(PriceBounds(None, None)));
    }
    if q.minPrice.Some? {
      f := f.(price := Some(f.price.value.(gte := q.minPrice)));
    }
    if q.maxPrice.Some? {
      f := f.(price := Some(f.price.value.(lte := q.maxPrice)));
    }
  }

  // -----------------------------------------------------------------------
  // The listings table and its handlers
  // -----------------------------------------------------------------------

  class ListingTable {
    var listings: map<ListingId, Listing>
    var nextId: ListingId

    /** Every stored id was handed out before `nextId`. */
    ghost predicate Valid()
      reads this
    {
      forall id :: id in listings ==> id < nextId
    }

    constructor ()
      ensures Valid() && listings == map[]
    {
      listings := map[];
      nextId := 0;
    }

    /** `GET /`: exactly the listings the query matches; all of them for an empty query. */
    method Search(q: ListingQuery) returns (found: map<ListingId, Listing>)
      ensures forall id :: id in found <==> id in listings && SearchMatches(q, listings[id])
      ensures forall id :: id in found ==> found[id] == listings[id]
      ensures q == ListingQuery("", None, None) ==> found == listings
    {
      var f := BuildFilter(q);
      found := map id | id in listings && Admits(f, listings[id]) :: listings[id];
    }

    /** `GET /:id`: the listing, or `null` with status 200 when there is none. */
    method Get(id: ListingId) returns (status: Status, found: Option<Listing>)
      ensures status == OK
      ensures found.Some? <==> id in listings
      ensures found.Some? ==> found.value == listings[id]
    {
      status := OK;
      found := if id in listings then Some(listings[id]) else None;
    }

    /** `POST /`: hosts only; the new listing is owned by the caller whatever the body says. */
    method Create(caller: Claims, body: ListingBody) returns (status: Status, id: Option<ListingId>)
      requires Valid()
      modifies this
      ensures Valid()
      ensures !IsHost(caller) ==> status == FORBIDDEN && id == None && listings == old(listings)
      ensures IsHost(caller) ==>
                && status == CREATED && id.Some? && id.value !in old(listings)
                && listings == old(listings)[id.value := NewListing(body, caller.id)]
                && listings[id.value].hostId == caller.id
    {
      if !IsHost(caller) {
        return FORBIDDEN, None;
      }
      listings := listings[nextId := NewListing(body, caller.id)];
      id := Some(nextId);
      nextId := nextId + 1;
      status := CREATED;
    }

    /** `PUT /:id`: only the owner may update. A missing id makes the handler
        dereference null, so no response is sent. */
    method Update(caller: Claims, id: ListingId, patch: ListingPatch) returns (status: Status, updated: Option<Listing>)
      requires Valid()
      modifies this
      ensures Valid() && nextId == old(nextId)
      ensures id !in old(listings) ==> status == Unhandled && updated == None && listings == old(listings)
      ensures id in old(listings) && old(listings)[id].hostId != caller.id ==>
                status == FORBIDDEN && updated == None && listings == old(listings)
      ensures id in old(listings) && old(listings)[id].hostId == caller.id ==>
                && status == OK
                && updated == Some(ApplyPatch(old(listings)[id], patch))
                && listings == old(listings)[id := updated.value]
    {
      if id !in listings {
        return Unhandled, None;
      }
      if listings[id].hostId != caller.id {
        return FORBIDDEN, None;
      }
      var l := ApplyPatch(listings[id], patch);
      listings := listings[id := l];
      status, updated := OK, Some(l);
    }

    /** `DELETE /:id`: only the owner may delete; a missing id gets no response. */
    method Delete(caller: Claims, id: ListingId) returns (status: Status)
      requires Valid()
      modifies this
      ensures Valid() && nextId == old(nextId)
      ensures id !in old(listings) ==> status == Unhandled && listings == old(listings)
      ensures id in old(listings) && old(listings)[id].hostId != caller.id ==>
                status == FORBIDDEN && listings == old(listings)
      ensures id in old(listings) && old(listings)[id].hostId == caller.id ==>
                status == OK && listings == old(listings) - {id}
    {
      if id !in listings {
        return Unhandled;
      }
      if listings[id].hostId != caller.id {
        return FORBIDDEN;
      }
      listings := listings - {id};
      status := OK;
    }
  }
}
