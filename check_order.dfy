/** The order lookup page (client-side/src/pages/public/CheckOrder.jsx): order number
    and phone number, sent as entered, find a reservation or explain why not. */
module CheckOrder {
  import opened Shared
  import opened Api

  const CheckPath := "/reservations/check"
  const NotFoundText := "Data pemesanan tidak ditemukan. Pastikan nomor order dan HP benar."
  const SearchFailedText := "Terjadi kesalahan saat mencari data. Silakan coba lagi."

  /** The lookup body: exactly the two inputs, untrimmed. */
  function LookupRequest(orderNumber: string, phoneNumber: string): Request {
    Request(Post, CheckPath, Json([("order_number", Text(orderNumber)), ("phone_number", Text(phoneNumber))]), map[])
  }

  /** What a lookup ends with: the order found, or the error to show. A `success`
      answer shows its data (which may be absent) and no error; any other answer shows
      the not-found text; a failed call shows the retry text. */
  function Lookup(answer: Outcome<Reply<Reservation>>): (r: (Option<Reservation>, Option<string>))
    ensures !(r.0.Some? && r.1.Some?)
    ensures r.0.Some? ==> answer.Ok? && answer.body.Reply? && answer.body.success && r.0 == answer.body.data
    ensures answer.Ok? && answer.body.Reply? && answer.body.success ==> r.0 == answer.body.data
    ensures r.1 == Some(NotFoundText) <==> answer.Ok? && !(answer.body.Reply? && answer.body.success)
    ensures r.1 == Some(SearchFailedText) <==> answer.Failed()
    ensures r.1.None? <==> answer.Ok? && answer.body.Reply? && answer.body.success
  {
    match answer
    case Ok(Reply(true, data)) => (data, None)
    case Ok(_) => (None, Some(NotFoundText))
    case _ => (None, Some(SearchFailedText))
  }

  class OrderLookup {
    const api: Client
    var orderNumber: string
    var phoneNumber: string
    var orderDetail: Option<Reservation>
    var isLoading: bool
    var error: Option<string>

    constructor (api: Client)
      ensures this.api == api
      ensures orderNumber == "" && phoneNumber == "" && orderDetail.None? && !isLoading && error.None?
    {
      this.api := api;
      orderNumber := "";
      phoneNumber := "";
      orderDetail := None;
      isLoading := false;
      error := None;
    }

    /** `handleCheckOrder`: error and order cleared, one call, then the outcome. */
    method HandleCheckOrder(answer: Outcome<Reply<Reservation>>)
      modifies this`orderDetail, this`isLoading, this`error, api
      ensures api.Snapshot() == Exchange(old(api.Snapshot()), LookupRequest(orderNumber, phoneNumber), answer)
      ensures (orderDetail, error) == Lookup(answer)
      ensures !isLoading
    {
      isLoading := true;
      error := None;
      orderDetail := None;
      var r := api.Send(Request(Post, CheckPath,
                 Json([("order_number", Text(orderNumber)), ("phone_number", Text(phoneNumber))]), map[]), answer);
      if r.Ok? {
        if r.body.Reply? && r.body.success {
          orderDetail := r.body.data;
        } else {
          error := Some(NotFoundText);
        }
      } else {
        error := Some(SearchFailedText);
      }
      isLoading := false;
    }
  }
}
