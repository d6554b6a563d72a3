/** The public booking form (client-side/src/pages/public/OrderForm.jsx), reached at
    `/reservation/:id`: the location's detail prefills the address, and the submit
    stores a reservation. */
module OrderForm {
  import opened Shared
  import opened Api
  import Decimal
  import LandingPage

  const StorePath := "/reservations/store"
  const LoadFailedText := "Gagal memuat data gedung."
  const ConfirmedPrefix := "Berhasil! Order ID Anda: "
  const SystemErrorText := "Terjadi kesalahan sistem (500)."

  /** `parseInt(id)` as JSON carries it: a number, or `null` for NaN. */
  function LocationId(routeId: string): Value {
    match Decimal.ParseInt(routeId)
    case Some(n) => Number(n)
    case None => Null
  }

  /** The booking payload, given the parsed location id. */
  function BookingPayload(locationId: Value, customerName: string, phoneNumber: string,
                          address: string, date: string): seq<(string, Value)> {
    [("location_id", locationId), ("customer_name", Text(customerName)),
     ("phone_number", Text(phoneNumber)), ("address", Text(address)),
     ("date", Text(date)), ("user_id", Number(1))]
  }

  /** The location and the customer's name and phone under their JSON keys. */
  lemma BookingPayloadCustomer(locationId: Value, customerName: string, phoneNumber: string,
                               address: string, date: string)
    ensures var p := BookingPayload(locationId, customerName, phoneNumber, address, date);
      Find(p, "location_id") == Some(locationId) &&
      Find(p, "customer_name") == Some(Text(customerName)) &&
      Find(p, "phone_number") == Some(Text(phoneNumber))
  {
    var p := BookingPayload(locationId, customerName, phoneNumber, address, date);
    FindAt(p, 0);
    FindAt(p, 1);
    FindAt(p, 2);
  }

  /** The address and the date under their JSON keys. */
  lemma BookingPayloadVisit(locationId: Value, customerName: string, phoneNumber: string,
                            address: string, date: string)
    ensures var p := BookingPayload(locationId, customerName, phoneNumber, address, date);
      Find(p, "address") == Some(Text(address)) && Find(p, "date") == Some(Text(date))
  {
    var p := BookingPayload(locationId, customerName, phoneNumber, address, date);
    assert |p[0].0| == 11 && |p[1].0| == 13 && |p[2].0| == 12 && |p[3].0| == 7;
    FindAt(p, 3);
    FindAt(p, 4);
  }

  /** Six keys, the last the fixed `user_id` 1. */
  lemma BookingPayloadUser(locationId: Value, customerName: string, phoneNumber: string,
                           address: string, date: string)
    ensures var p := BookingPayload(locationId, customerName, phoneNumber, address, date);
      |p| == 6 && Find(p, "user_id") == Some(Number(1))
  {
    var p := BookingPayload(locationId, customerName, phoneNumber, address, date);
    assert |p[0].0| == 11 && |p[1].0| == 13 && |p[2].0| == 12 && |p[4].0| == 4;
    assert p[3].0[0] == 'a' && p[5].0[0] == 'u';
    FindAt(p, 5);
  }

  /** A form opened from the catalogue's booking link books the location of that link. */
  lemma BookedFromCatalogue(id: int)
    ensures LocationId(LandingPage.BookingPath(id)[|"/reservation/"|..]) == Number(id)
  {
    var routeId := LandingPage.BookingPath(id)[|"/reservation/"|..];
    assert routeId == Decimal.Show(id);
    Decimal.ParseShow(id, "");
    assert Decimal.Show(id) + "" == Decimal.Show(id);
  }

  function DetailRequest(routeId: string): Request {
    Request(Get, "/location/" + routeId, NoPayload, map[])
  }

  function StoreRequest(routeId: string, customerName: string, phoneNumber: string,
                        address: string, date: string): Request {
    Request(Post, StorePath, Json(BookingPayload(LocationId(routeId), customerName, phoneNumber, address, date)), map[])
  }

  /** The customer's inputs, the validation map and the notice. */
  datatype FormState = FormState(customerName: string, phoneNumber: string, reservationDate: string,
                                 validation: Errors, message: Option<Notice>)

  predicate Stored(answer: Outcome<Reply<Reservation>>) {
    answer.Ok? && answer.body.Reply? && answer.body.success && answer.body.data.Some?
  }

  /** The form after a submit: validation and notice are cleared first; a stored
      reservation announces its order number and clears name, phone and date; a
      `success` answer without a record fails while it is read and, like every failure
      other than a 422, shows the system-error notice; a 422 fills the validation map;
      an answer without `success` leaves the form cleared and silent. */
  function AfterStore(f: FormState, answer: Outcome<Reply<Reservation>>): (g: FormState)
    ensures Stored(answer) ==>
              g == FormState("", "", "", map[], Some(Notice(Success, ConfirmedPrefix + answer.body.data.value.orderNumber)))
    ensures !Stored(answer) ==>
              g.customerName == f.customerName && g.phoneNumber == f.phoneNumber &&
              g.reservationDate == f.reservationDate
    ensures answer.HasStatus(422) ==> g.validation == answer.error.errors && g.message.None?
    ensures !answer.HasStatus(422) ==> g.validation == map[]
    ensures answer.Ok? && !(answer.body.Reply? && answer.body.success) ==> g.message.None?
    ensures (answer.Failed() && !answer.HasStatus(422)) || (answer.Ok? && answer.body.Reply? && answer.body.success && answer.body.data.None?) ==>
              g.message == Some(Notice(Failure, SystemErrorText))
  {
    var cleared := f.(validation := map[], message := None);
    match answer
    case Ok(Reply(true, Some(reservation))) =>
      FormState("", "", "", map[], Some(Notice(Success, ConfirmedPrefix + reservation.orderNumber)))
    case Ok(Reply(true, None)) => cleared.(message := Some(Notice(Failure, SystemErrorText)))
    case Ok(_) => cleared
    case HttpErr(status, error) =>
      if status == 422 then cleared.(validation := error.errors)
      else cleared.(message := Some(Notice(Failure, SystemErrorText)))
    case NoResponse => cleared.(message := Some(Notice(Failure, SystemErrorText)))
  }

  /** What the form held in validation and notice before a submit does not matter. */
  lemma AfterStoreClearsFirst(f: FormState, answer: Outcome<Reply<Reservation>>)
    ensures AfterStore(f.(validation := map[], message := None), answer) == AfterStore(f, answer)
  {
  }

  /** Only a stored reservation produces a success notice. */
  lemma SuccessOnlyWhenStored(f: FormState, answer: Outcome<Reply<Reservation>>)
    ensures var g := AfterStore(f, answer);
      (g.message.Some? && g.message.value.tone == Success) <==> Stored(answer)
  {
  }

  class Booking {
    const api: Client
    /** The `:id` segment of the route. */
    const routeId: string
    var location: Option<Venue>
    var customerName: string
    var phoneNumber: string
    var address: string
    var reservationDate: string
    var isLoading: bool
    var validation: Errors
    var message: Option<Notice>

    constructor (api: Client, routeId: string)
      ensures this.api == api && this.routeId == routeId
      ensures location.None? && customerName == "" && phoneNumber == "" && address == ""
      ensures reservationDate == "" && !isLoading && validation == map[] && message.None?
    {
      this.api := api;
      this.routeId := routeId;
      location := None;
      customerName := "";
      phoneNumber := "";
      address := "";
      reservationDate := "";
      isLoading := false;
      validation := map[];
      message := None;
    }

    /** `fetchLocationDetail`: a `success` answer stores the location and prefills the
        address; a `success` answer without a record clears the location and then
        fails on reading its address. */
    method FetchLocationDetail(answer: Outcome<Reply<Venue>>)
      modifies this`location, this`address, this`message, api
      ensures api.Snapshot() == Exchange(old(api.Snapshot()), DetailRequest(routeId), answer)
      ensures answer.Ok? && answer.body.Reply? && answer.body.success && answer.body.data.Some? ==>
                location == answer.body.data && address == answer.body.data.value.address.GetOr("") &&
                message == old(message)
      ensures answer.Ok? && answer.body.Reply? && answer.body.success && answer.body.data.None? ==>
                location.None? && address == old(address) && message == Some(Notice(Failure, LoadFailedText))
      ensures answer.Ok? && !(answer.body.Reply? && answer.body.success) ==>
                location == old(location) && address == old(address) && message == old(message)
      ensures answer.Failed() ==>
                location == old(location) && address == old(address) && message == Some(Notice(Failure, LoadFailedText))
    {
      var r := api.Send(DetailRequest(routeId), answer);
      if r.Ok? {
        if r.body.Reply? && r.body.success {
          location := r.body.data;
          match r.body.data
          case Some(venue) =>
            address := venue.address.GetOr("");
          case None =>
            message := Some(Notice(Failure, LoadFailedText));
        }
      } else {
        message := Some(Notice(Failure, LoadFailedText));
      }
    }

    /** The part of the form a submit can change, besides `isLoading`. */
    function Form(): FormState
      reads this
    {
      FormState(customerName, phoneNumber, reservationDate, validation, message)
    }

    /** The `try`/`catch` of `handleSubmit` once the answer is in. */
    method Conclude(r: Outcome<Reply<Reservation>>)
      requires validation == map[] && message.None?
      modifies this`customerName, this`phoneNumber, this`reservationDate, this`validation, this`message
      ensures Form() == AfterStore(old(Form()), r)
    {
      if r.Ok? {
        if r.body.Reply? && r.body.success {
          match r.body.data
          case Some(reservation) =>
            message := Some(Notice(Success, ConfirmedPrefix + reservation.orderNumber));
            customerName := "";
            phoneNumber := "";
            reservationDate := "";
          case None =>
            message := Some(Notice(Failure, SystemErrorText));
        }
      } else if r.HttpErr? && r.status == 422 {
        validation := r.error.errors;
      } else {
        message := Some(Notice(Failure, SystemErrorText));
      }
    }

    /** `handleSubmit`: loading while the call is out; the form then changes as
        `AfterStore` says; the address is kept. */
    method HandleSubmit(answer: Outcome<Reply<Reservation>>)
      modifies this`customerName, this`phoneNumber, this`reservationDate, this`isLoading,
               this`validation, this`message, api
      ensures api.Snapshot() == Exchange(old(api.Snapshot()),
                StoreRequest(routeId, old(customerName), old(phoneNumber), address, old(reservationDate)), answer)
      ensures Form() == AfterStore(old(Form()), answer)
      ensures !isLoading
    {
      isLoading := true;
      validation := map[];
      message := None;
      var payload := BookingPayload(LocationId(routeId), customerName, phoneNumber, address, reservationDate);
      var r := api.Send(Request(Post, StorePath, Json(payload), map[]), answer);
      AfterStoreClearsFirst(old(Form()), r);
      Conclude(r);
      isLoading := false;
    }
  }
}
