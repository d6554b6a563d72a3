/** The admin dashboard (client-side/src/pages/admin/Dashboard.jsx): three counts fetched
    together. */
module Dashboard {
  import opened Shared
  import opened Api

  datatype Stats = Stats(categories: nat, locations: nat, reservations: nat)

  const Zero := Stats(0, 0, 0)

  function CategoriesRequest(): Request {
    Request(Get, "/locations-categories", NoPayload, map[])
  }

  function LocationsRequest(): Request {
    Request(Get, "/location/filter/check", NoPayload, map[])
  }

  function ReservationsRequest(): Request {
    Request(Get, "/reservations/filter/check", NoPayload, map[])
  }

  /** `res.data.data?.length || 0`: the length of the `data` list, 0 when there is none;
      the `success` flag is not read. */
  function Count<T>(body: ListBody<T>): (n: nat)
    ensures body.Envelope? && body.data.Some? ==> n == |body.data.value|
    ensures !(body.Envelope? && body.data.Some?) ==> n == 0
  {
    match body
    case Envelope(_, Some(items)) => |items|
    case _ => 0
  }

  /** The state after the three calls are issued, with the session of that moment, and
      all three answers are in. */
  function AllSettled<A, B, C>(b: Browser, x: Outcome<A>, y: Outcome<B>, z: Outcome<C>): Browser {
    var issued := Dispatch(Dispatch(Dispatch(b, CategoriesRequest()), LocationsRequest()), ReservationsRequest());
    Settle(Settle(Settle(issued, x), y), z)
  }

  /** All three requests carry the same headers: they leave before any answer arrives. */
  lemma IssuedTogether<A, B, C>(b: Browser, x: Outcome<A>, y: Outcome<B>, z: Outcome<C>)
    ensures var s := AllSettled(b, x, y, z).sent;
      |s| == |b.sent| + 3 && s[..|b.sent|] == b.sent &&
      s[|b.sent|].headers == s[|b.sent| + 1].headers == s[|b.sent| + 2].headers
  {
    var issued := Dispatch(Dispatch(Dispatch(b, CategoriesRequest()), LocationsRequest()), ReservationsRequest());
    assert issued.sent == b.sent + [Stamp(CategoriesRequest(), b.session), Stamp(LocationsRequest(), b.session),
                                    Stamp(ReservationsRequest(), b.session)];
  }

  class Overview {
    const api: Client
    var stats: Stats
    var isLoading: bool

    constructor (api: Client)
      ensures this.api == api && stats == Zero && isLoading
    {
      this.api := api;
      stats := Zero;
      isLoading := true;
    }

    /** `fetchStats`: the counts are replaced only when all three calls succeed. */
    method FetchStats(cats: Outcome<ListBody<Category>>, locs: Outcome<ListBody<CatalogItem>>,
                      orders: Outcome<ListBody<Reservation>>)
      modifies this`stats, this`isLoading, api
      ensures api.Snapshot() == AllSettled(old(api.Snapshot()), cats, locs, orders)
      ensures cats.Ok? && locs.Ok? && orders.Ok? ==>
                stats == Stats(Count(cats.body), Count(locs.body), Count(orders.body))
      ensures !(cats.Ok? && locs.Ok? && orders.Ok?) ==> stats == old(stats)
      ensures !isLoading
    {
      isLoading := true;
      api.Issue(CategoriesRequest());
      api.Issue(LocationsRequest());
      api.Issue(ReservationsRequest());
      var resCats := api.Receive(cats);
      var resLocs := api.Receive(locs);
      var resOrders := api.Receive(orders);
      if resCats.Ok? && resLocs.Ok? && resOrders.Ok? {
        stats := Stats(Count(resCats.body), Count(resLocs.body), Count(resOrders.body));
      }
      isLoading := false;
    }
  }
}
