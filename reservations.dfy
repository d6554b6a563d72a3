/** The reservation table of the admin area (client-side/src/pages/admin/Reservations.jsx):
    a filtered fetch, a location drop-down, and a confirmed delete. */
module Reservations {
  import opened Shared
  import opened Api
  import Query
  import Decimal

  const ListEndpoint := "/reservations/filter/check"
  const VenuesEndpoint := "/location/filter/check"

  const RouteMissingText := "Error 404: Route /reservations/filter/check tidak ditemukan. Cek php artisan route:list"
  const FetchFailedText := "Gagal mengambil data reservasi."
  const DeletedText := "Data berhasil dihapus!"
  const DeleteFailedText := "Gagal menghapus data."

  /** Where a key stands in the query the page builds. */
  function Rank(key: string): nat {
    if key == "search" then 0 else if key == "date" then 1 else 2
  }

  /** One optional filter: the pair when the value is non-empty. */
  function Optional(key: string, value: string): seq<(string, string)> {
    if value != "" then [(key, value)] else []
  }

  /** The filter query: `search`, `date`, `location_id`, in that order, each only when
      its filter is non-empty. */
  function ReservationQuery(search: string, date: string, location: string): seq<(string, string)> {
    Optional("search", search) + Optional("date", date) + Optional("location_id", location)
  }

  lemma FindOptional(key: string, value: string, k: string)
    ensures Find(Optional(key, value), k) == if k == key then NonEmpty(value) else None
  {
    if value != "" {
      assert Optional(key, value)[1..] == [];
    }
  }

  /** Each filter can be read back under its own key, and is there only when non-empty. */
  lemma ReservationQueryKeys(search: string, date: string, location: string)
    ensures var q := ReservationQuery(search, date, location);
      Find(q, "search") == NonEmpty(search) && Find(q, "date") == NonEmpty(date) &&
      Find(q, "location_id") == NonEmpty(location)
  {
    var a, b, c := Optional("search", search), Optional("date", date), Optional("location_id", location);
    assert a + b + c == a + (b + c);
    forall k | k in {"search", "date", "location_id"}
      ensures Find(a + (b + c), k) == if k == "search" then NonEmpty(search)
                                      else if k == "date" then NonEmpty(date) else NonEmpty(location)
    {
      FindAppend(a, b + c, k);
      FindAppend(b, c, k);
      FindOptional("search", search, k);
      FindOptional("date", date, k);
      FindOptional("location_id", location, k);
    }
  }

  /** Only the three filters occur, in the order `search`, `date`, `location_id`. */
  lemma ReservationQueryOrder(search: string, date: string, location: string)
    ensures var q := ReservationQuery(search, date, location);
      (forall i :: 0 <= i < |q| ==>
         q[i] == ("search", search) || q[i] == ("date", date) || q[i] == ("location_id", location)) &&
      (forall i, j :: 0 <= i < j < |q| ==> Rank(q[i].0) < Rank(q[j].0))
  {
    var a, b, c := Optional("search", search), Optional("date", date), Optional("location_id", location);
    var q := a + b + c;
    assert forall i :: 0 <= i < |q| ==>
      (i < |a| ==> q[i] == ("search", search)) &&
      (|a| <= i < |a| + |b| ==> q[i] == ("date", date)) &&
      (|a| + |b| <= i ==> q[i] == ("location_id", location));
  }

  /** Filter text without `&` reads back from the URL as the same three filters. */
  lemma ReservationQueryReadsBack(search: string, date: string, location: string)
    requires '&' !in search && '&' !in date && '&' !in location
    ensures Query.Parse(Query.Join(ReservationQuery(search, date, location))) ==
            ReservationQuery(search, date, location)
  {
    var q := ReservationQuery(search, date, location);
    ReservationQueryOrder(search, date, location);
    assert Query.Plain(("search", search)) && Query.Plain(("date", date)) &&
           Query.Plain(("location_id", location));
    Query.ParseJoin(q);
  }

  function ListRequest(search: string, date: string, location: string): Request {
    Request(Get, ListEndpoint + "?" + Query.Join(ReservationQuery(search, date, location)), NoPayload, map[])
  }

  function VenuesRequest(): Request {
    Request(Get, VenuesEndpoint, NoPayload, map[])
  }

  function DeleteRequest(id: int): Request {
    Request(Delete, "/reservations/" + Decimal.Show(id), NoPayload, map[])
  }

  /** Which body becomes the list: `data.data` when present, else a bare array;
      `None` leaves the list as it was. The `success` flag plays no part. */
  function Listed<T>(body: ListBody<T>): (r: Option<seq<T>>)
    ensures body.Envelope? ==> r == body.data
    ensures body.BareArray? ==> r == Some(body.items)
    ensures body.Blank? ==> r.None?
  {
    match body
    case Envelope(_, data) => data
    case BareArray(items) => Some(items)
    case Blank => None
  }

  /** Every list that a `success`-keyed page would accept, this page accepts too. */
  lemma ListedExtendsSuccessData<T>(body: ListBody<T>)
    ensures SuccessData(body).Some? ==> Listed(body) == SuccessData(body)
    ensures Listed(body).Some? && SuccessData(body).None? ==>
              body.BareArray? || (body.Envelope? && !body.success)
  {
  }

  /** The notice of a failed list fetch: the route-missing text exactly for a 404. */
  function FetchFailure<T>(answer: Outcome<T>): (n: Notice)
    ensures n.tone == Failure
    ensures n.text == RouteMissingText <==> answer.HasStatus(404)
    ensures !answer.HasStatus(404) ==> n.text == FetchFailedText
  {
    if answer.HttpErr? && answer.status == 404 then Notice(Failure, RouteMissingText)
    else Notice(Failure, FetchFailedText)
  }

  class ReservationList {
    const api: Client
    var reservations: seq<Reservation>
    var locations: seq<CatalogItem>
    var isLoading: bool
    var search: string
    var filterDate: string
    var filterLocation: string
    var message: Option<Notice>

    constructor (api: Client)
      ensures this.api == api
      ensures reservations == [] && locations == [] && isLoading
      ensures search == "" && filterDate == "" && filterLocation == "" && message.None?
    {
      this.api := api;
      reservations := [];
      locations := [];
      isLoading := true;
      search := "";
      filterDate := "";
      filterLocation := "";
      message := None;
    }

    /** The `URLSearchParams` of `fetchReservations`, appended filter by filter. */
    method Params() returns (params: seq<(string, string)>)
      ensures params == ReservationQuery(search, filterDate, filterLocation)
    {
      params := [];
      if search != "" {
        params := params + [("search", search)];
      }
      if filterDate != "" {
        params := params + [("date", filterDate)];
      }
      if filterLocation != "" {
        params := params + [("location_id", filterLocation)];
      }
    }

    /** `fetchReservations`. */
    method FetchReservations(answer: Outcome<ListBody<Reservation>>)
      modifies this`reservations, this`message, this`isLoading, api
      ensures api.Snapshot() == Exchange(old(api.Snapshot()), ListRequest(search, filterDate, filterLocation), answer)
      ensures answer.Ok? ==> reservations == Listed(answer.body).GetOr(old(reservations)) && message == old(message)
      ensures answer.Failed() ==> reservations == old(reservations) && message == Some(FetchFailure(answer))
      ensures !isLoading
    {
      isLoading := true;
      var params := Params();
      var r := api.Send(Request(Get, ListEndpoint + "?" + Query.Join(params), NoPayload, map[]), answer);
      if r.Ok? {
        match r.body
        case Envelope(_, Some(items)) =>
          reservations := items;
        case BareArray(items) =>
          reservations := items;
        case _ =>
      } else if r.HttpErr? && r.status == 404 {
        message := Some(Notice(Failure, RouteMissingText));
      } else {
        message := Some(Notice(Failure, FetchFailedText));
      }
      isLoading := false;
    }

    /** `fetchLocations`, for the location drop-down; a failure is only logged. */
    method FetchLocations(answer: Outcome<ListBody<CatalogItem>>)
      modifies this`locations, api
      ensures api.Snapshot() == Exchange(old(api.Snapshot()), VenuesRequest(), answer)
      ensures answer.Ok? && answer.body.Envelope? && answer.body.data.Some? ==> locations == answer.body.data.value
      ensures !(answer.Ok? && answer.body.Envelope? && answer.body.data.Some?) ==> locations == old(locations)
    {
      var r := api.Send(VenuesRequest(), answer);
      if r.Ok? && r.body.Envelope? && r.body.data.Some? {
        locations := r.body.data.value;
      }
    }

    /** `handleDelete`: nothing without confirmation; the list is fetched again only
        after the delete succeeded. */
    method HandleDelete(id: int, confirmed: bool, answer: Outcome<()>, refetch: Outcome<ListBody<Reservation>>)
      modifies this`reservations, this`message, this`isLoading, api
      ensures !confirmed ==> unchanged(this) && unchanged(api)
      ensures confirmed && answer.Failed() ==>
                api.Snapshot() == Exchange(old(api.Snapshot()), DeleteRequest(id), answer) &&
                message == Some(Notice(Failure, DeleteFailedText)) &&
                reservations == old(reservations) && isLoading == old(isLoading)
      ensures confirmed && answer.Ok? ==>
                api.Snapshot() == Exchange(Exchange(old(api.Snapshot()), DeleteRequest(id), answer),
                                           ListRequest(search, filterDate, filterLocation), refetch) &&
                !isLoading
      ensures confirmed && answer.Ok? && refetch.Ok? ==>
                message == Some(Notice(Success, DeletedText)) &&
                reservations == Listed(refetch.body).GetOr(old(reservations))
      ensures confirmed && answer.Ok? && refetch.Failed() ==>
                message == Some(FetchFailure(refetch)) && reservations == old(reservations)
    {
      if !confirmed {
        return;
      }
      var r := api.Send(DeleteRequest(id), answer);
      if r.Ok? {
        message := Some(Notice(Success, DeletedText));
        FetchReservations(refetch);
      } else {
        message := Some(Notice(Failure, DeleteFailedText));
      }
    }
  }
}
