/** Values every page shares: optional values, notices, validation maps, key/value
    lookup, and the records the server hands out (categories, locations, reservations). */
module Shared {

  datatype Option<T> = None | Some(value: T) {
    /** `x || default` for a value that may be missing. */
    function GetOr(default: T): T {
      if Some? then value else default
    }
  }

  /** A field-keyed validation map, as a 422 answer carries it in `errors`. */
  type Errors = map<string, seq<string>>

  /** The `type` of a `{type, text}` notice: 'success' or 'error'. */
  datatype Tone = Success | Failure

  /** The `{type, text}` notice the admin and booking pages show. */
  datatype Notice = Notice(tone: Tone, text: string)

  /** A filter value as JavaScript tests it: the empty string is falsy. */
  function NonEmpty(s: string): Option<string> {
    if s == "" then None else Some(s)
  }

  /** The value of the first pair whose key is `key`, like `URLSearchParams.get`. */
  function Find<V>(pairs: seq<(string, V)>, key: string): (r: Option<V>)
    ensures r.None? <==> forall i :: 0 <= i < |pairs| ==> pairs[i].0 != key
    ensures r.Some? ==> exists i :: 0 <= i < |pairs| && pairs[i] == (key, r.value) &&
                          forall j :: 0 <= j < i ==> pairs[j].0 != key
  {
    if pairs == [] then None
    else if pairs[0].0 == key then Some(pairs[0].1)
    else
      var r := Find(pairs[1..], key);
      assert forall i :: 1 <= i < |pairs| ==> pairs[1..][i - 1] == pairs[i];
      assert r.Some? ==> exists i :: 1 <= i < |pairs| && pairs[i] == (key, r.value) &&
                          forall j :: 0 <= j < i ==> pairs[j].0 != key;
      r
  }

  /** Looking a key up in two lists one after the other. */
  lemma {:induction false} FindAppend<V>(a: seq<(string, V)>, b: seq<(string, V)>, key: string)
    ensures Find(a + b, key) == if Find(a, key).Some? then Find(a, key) else Find(b, key)
  {
    if a != [] {
      assert (a + b)[1..] == a[1..] + b;
      FindAppend(a[1..], b, key);
    } else {
      assert a + b == b;
    }
  }

  /** The first pair with a key decides the lookup. */
  lemma FindAt<V>(pairs: seq<(string, V)>, i: int)
    requires 0 <= i < |pairs|
    requires forall j :: 0 <= j < i ==> pairs[j].0 != pairs[i].0
    ensures Find(pairs, pairs[i].0) == Some(pairs[i].1)
  {
    var r := Find(pairs, pairs[i].0);
    var k :| 0 <= k < |pairs| && pairs[k] == (pairs[i].0, r.value) &&
             forall j :: 0 <= j < k ==> pairs[j].0 != pairs[i].0;
    assert k == i;
  }

  /** A location category (`{id, name}`). */
  datatype Category = Category(id: int, name: string)

  /** A location as the public catalogue lists it; name and address may be missing. */
  datatype CatalogItem = CatalogItem(id: int, name: Option<string>, address: Option<string>)

  /** A location as the admin table lists it and the edit form is seeded from. */
  datatype LocationRow = LocationRow(
    id: int, title: string, categoryId: string, description: string,
    address: string, image: Option<string>)

  /** A location as its detail endpoint returns it for the booking form. */
  datatype Venue = Venue(id: int, name: Option<string>, address: Option<string>)

  /** A reservation (order) as the server returns it. */
  datatype Reservation = Reservation(
    id: int, orderNumber: string, customerName: string,
    phoneNumber: string, reservationDate: string)
}
