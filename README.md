# Reservation front-end, modelled in Dafny

This project models the client side of a venue-reservation application. It is a
React single-page front-end that talks to a JSON API through one shared axios
instance. The model covers:

- the API client: base URL, default headers, the request hook that adds a bearer
  token, and the response hook that signs the browser out on a 401;
- the session (the `token` and `user` keys of `localStorage`) and the browser's
  location;
- every page the application has: the public catalogue, the booking form, the
  order lookup, the login page, the admin layout, the dashboard, and the admin
  pages for categories, locations and reservations.

Server answers are inputs. A call ends as `Ok(body)`, as `HttpErr(status, error)`
or as `NoResponse`. A `TypeError` thrown while a page reads a body that lacks an
expected field has no `error.response` either, so it is modelled as the failure
path the source's `catch` takes.

Each page is a class whose fields are the page's `useState` variables. It holds a
shared `Api.Client` (the axios instance plus `localStorage` and
`window.location`). Each event handler is a method that takes the server's
answers, and a `confirmed` flag where the page asks `window.confirm`. Its contract
gives the new page state case by case. It also ties the client's state
(session, location, log of sent requests) to the pure functions
`Dispatch`/`Settle`/`Exchange`.

The pure parts are functions, with lemmas:

- the catalogue filter, checked against a reference definition (case-insensitive
  substring search);
- query construction, with a round trip through query-string parsing;
- response normalisation and message selection;
- `parseInt` of the route id, with a round trip against `${id}`.

Modules: `Shared` (records, `Option`, key lookup), `Text` (case folding,
substring search), `Decimal` (`${n}` and `parseInt`), `Query` (query strings),
`Api`, and one module per page.

Four facts about the code that the model keeps as they are:

- The order lookup (`CheckOrder.jsx:23-26`) sends its two inputs as they were
  typed, without trimming.
- On the order lookup, a 404 answer shows the generic retry text, not the
  not-found text. Only a 2xx answer without `success` shows the not-found text.
- No page guards against a stale response overwriting a newer one. The model has
  no guard either.
- The location admin page fetches its categories from the singular path
  `/location-categories` (`Locations.jsx:41`). The category page and the
  catalogue use `/locations-categories`. Each page is modelled with its own path.

## Model

| member | source | states |
|---|---|---|
| Api.SuccessData | client-side/src/pages/public/LandingPage.jsx:21-23 | Yields the `data` list of a `success` envelope, and `None` for every other body. A `success` envelope without `data` also yields `None`, where the source takes the branch and stores `undefined` (see "## Left out"). |
| Api.Authorized | client-side/src/api/index.js:14-18 | The Authorization header becomes `"Bearer " + token` exactly when a truthy token is stored. Otherwise the headers pass through unchanged. No other header changes. |
| Api.Stamp | client-side/src/api/index.js:3-18 | A sent request goes to the base URL plus the path and keeps verb and body. A truthy stored token puts `Bearer <token>` in the Authorization header, overriding any the page set. Without one the headers are the defaults merged with the page's. Every other header takes the page's value when the page sets it, and the default value otherwise. |
| Api.SettleCommutes | client-side/src/api/index.js:32-38 | The 401 hook's effect does not depend on the order in which pending answers arrive. |
| Api.Client.OnRequest | client-side/src/api/index.js:13-18 | Writes `config.headers` in place to the `Authorized` headers for the stored token. |
| Api.Client.OnError | client-side/src/api/index.js:30-41 | A 401 removes both session keys and sets the location to `/login`. Any other error leaves session and location alone. Every error is passed back to the caller. |
| Api.Client.Issue | client-side/src/api/index.js:3-18 | A request is logged with the base URL, the default headers merged with the page's headers, and the interceptor's Authorization header. |
| Api.Client.Receive | client-side/src/api/index.js:26-41 | A response is returned unchanged. An error is returned after the 401 rule is applied to the browser state. |
| Api.Client.Send | client-side/src/api/index.js:3-41 | One awaited call: the browser state afterwards is `Exchange` of the state before, and the answer is returned unchanged. |
| Text.Lower | client-side/src/pages/public/LandingPage.jsx:50-53 | Case folding keeps the length and folds every character independently. |
| Text.LowerIdempotent | client-side/src/pages/public/LandingPage.jsx:50-53 | Folding an already folded text changes nothing. |
| Text.IncludesIsInfix | client-side/src/pages/public/LandingPage.jsx:52-53 | `includes` holds exactly when the needle occurs at some position of the text. |
| LandingPage.KeepsIffMentions | client-side/src/pages/public/LandingPage.jsx:48-55 | For a non-empty search, the filter callback keeps an item exactly when its name or address contains the search text, ignoring case. |
| LandingPage.FilteredEmptySearch | client-side/src/pages/public/LandingPage.jsx:49 | An empty search keeps the fetched list as it is. |
| LandingPage.FilteredCounts | client-side/src/pages/public/LandingPage.jsx:48-55 | A kept item occurs in the result as often as in the fetched list. A dropped item does not occur at all. |
| LandingPage.FilteredIsSublist | client-side/src/pages/public/LandingPage.jsx:48 | The filtered list is an order-preserving sub-list of the fetched list. |
| LandingPage.FilteredExactly | client-side/src/pages/public/LandingPage.jsx:48-55 | An item is shown exactly when it was fetched and the search is empty or the item mentions it (both directions). |
| LandingPage.BlankItemDropped | client-side/src/pages/public/LandingPage.jsx:52-53 | For a non-empty search, an item with no name and no address is never shown. |
| LandingPage.FilterIgnoresSearchCase | client-side/src/pages/public/LandingPage.jsx:50 | The filter gives the same result for the search text and for its lower-case form. |
| LandingPage.CategoryQuery | client-side/src/pages/public/LandingPage.jsx:17-18 | The catalogue query has `category_id` as its only possible key, and has it exactly when the category filter is non-empty. |
| LandingPage.Landing.constructor | client-side/src/pages/public/LandingPage.jsx:5-11 | The page starts with empty lists, empty filters and loading on. |
| LandingPage.FilteredMembership | client-side/src/pages/public/LandingPage.jsx:48-55 | For every item at once: it is shown exactly when it was fetched and the search is empty or the item mentions it. |
| LandingPage.Landing.FilteredLocations | client-side/src/pages/public/LandingPage.jsx:48-55 | The list the page shows holds exactly the fetched items that the search, ignoring case, finds in the name or address. With an empty search it holds every fetched item. |
| LandingPage.Landing.FetchData | client-side/src/pages/public/LandingPage.jsx:13-28 | Sends the category query. A `success` answer with data replaces the list. Anything else keeps it. Loading is off afterwards in every case. |
| LandingPage.Landing.FetchCategories | client-side/src/pages/public/LandingPage.jsx:30-40 | The category drop-down follows the same `success` rule. |
| LandingPage.Landing.Book | client-side/src/pages/public/LandingPage.jsx:130 | The booking button sets the location to `/reservation/` followed by the item's id. |
| Decimal.ParseShow | client-side/src/pages/public/OrderForm.jsx:42 | `parseInt` reads back every integer that `${n}` prints, also when a non-alphanumeric character follows it. |
| OrderForm.BookedFromCatalogue | client-side/src/pages/public/OrderForm.jsx:6-42 | A booking form opened from the catalogue's link sends the linked item's id as `location_id`. |
| Query.ParseJoin | client-side/src/pages/admin/Reservations.jsx:24-30 | Splitting a joined query at its separators gives the pairs back, as long as keys hold no `&` or `=` and values hold no `&` (no decoding takes part). |
| Reservations.ReservationQueryKeys | client-side/src/pages/admin/Reservations.jsx:24-27 | `search`, `date` and `location_id` each read back as their filter, and each is present exactly when its filter is non-empty. |
| Reservations.ReservationQueryOrder | client-side/src/pages/admin/Reservations.jsx:24-27 | Only the three filters occur, and always in the order `search`, `date`, `location_id`. |
| Reservations.ReservationQueryReadsBack | client-side/src/pages/admin/Reservations.jsx:24-30 | Filters without `&` read back from the request URL as the same pairs. |
| Reservations.Listed | client-side/src/pages/admin/Reservations.jsx:33-38 | An envelope's `data` list becomes the list whatever `success` says. Otherwise a bare array does. A blank body changes nothing. |
| Reservations.ListedExtendsSuccessData | client-side/src/pages/admin/Reservations.jsx:33-38 | Every list the `success` rule accepts is accepted here too. The extra lists are bare arrays or envelopes without `success`. |
| Reservations.FetchFailure | client-side/src/pages/admin/Reservations.jsx:41-48 | A failed fetch shows the route-missing text exactly for a 404, and the generic fetch-failure text otherwise. Both are errors. |
| Reservations.ReservationList.constructor | client-side/src/pages/admin/Reservations.jsx:6-16 | The page starts with empty lists and filters, no notice, and loading on. |
| Reservations.ReservationList.Params | client-side/src/pages/admin/Reservations.jsx:24-27 | The step-by-step `append`s build exactly `ReservationQuery` of the three filters. |
| Reservations.ReservationList.FetchReservations | client-side/src/pages/admin/Reservations.jsx:20-51 | Sends the filter query. A response updates the list as `Listed` says and leaves the notice alone. A failure keeps the list and sets `FetchFailure`. Loading is off afterwards. |
| Reservations.ReservationList.FetchLocations | client-side/src/pages/admin/Reservations.jsx:55-66 | The drop-down takes `data.data` when present, and is otherwise unchanged. A failure is only logged. |
| Reservations.ReservationList.HandleDelete | client-side/src/pages/admin/Reservations.jsx:82-92 | Without confirmation nothing is sent and nothing changes. A failed delete sets the delete-failure notice and does not fetch again. A successful delete sets the success notice and fetches again; a failing re-fetch replaces the notice with its own. |
| Locations.ListQueryReadsBack | client-side/src/pages/admin/Locations.jsx:28-29 | The list query always carries both `search` and `category_id`, empty values included. Values without `&` split back out at the separators. This is a split without `+`/`%` decoding or `#` handling, not what a server reads. |
| Locations.LocationFormFields | client-side/src/pages/admin/Locations.jsx:89-93 | The form always holds title, category_id, description and address, each with its field's value. |
| Locations.LocationFormOptionalParts | client-side/src/pages/admin/Locations.jsx:94-96 | The form holds `image` exactly when a file is selected and `_method=PUT` exactly in edit mode. It has four, five or six entries accordingly. |
| Locations.SubmitSendsMultipart | client-side/src/pages/admin/Locations.jsx:99-102 | After the request interceptor, the submit's Content-Type is multipart, because the page's header overrides the default, and it still accepts JSON. |
| Locations.LocationAdmin.constructor | client-side/src/pages/admin/Locations.jsx:5-23 | The page starts with empty lists, an empty closed form, empty filters and validation, and loading on. |
| Locations.LocationAdmin.FetchData | client-side/src/pages/admin/Locations.jsx:25-37 | Sends `/locations?search=…&category_id=…`. A `success` answer with data replaces the list, and anything else keeps it. Loading is off afterwards. |
| Locations.LocationAdmin.FetchCategories | client-side/src/pages/admin/Locations.jsx:39-48 | The category list follows the same `success` rule, from `/location-categories`. |
| Locations.LocationAdmin.HandleFileChange | client-side/src/pages/admin/Locations.jsx:55-59 | A picked file becomes the image, and its object URL becomes the preview. |
| Locations.LocationAdmin.OpenAddModal | client-side/src/pages/admin/Locations.jsx:61-72 | Add mode with no id. All text fields are empty, image and preview are null, validation is empty, and the modal is shown. |
| Locations.LocationAdmin.OpenEditModal | client-side/src/pages/admin/Locations.jsx:74-85 | Edit mode with the field values copied from the row. The row's image becomes only the preview; no file is selected. Validation is empty and the modal is shown. |
| Locations.LocationAdmin.FormParts | client-side/src/pages/admin/Locations.jsx:89-96 | The step-by-step `append`s build exactly `LocationForm` of the form fields. |
| Locations.LocationAdmin.HandleSubmit | client-side/src/pages/admin/Locations.jsx:87-112 | Always a POST, to `/locations/{id}` in edit mode and to `/locations` otherwise. Success sets the saved notice, closes the modal and fetches again. A 422 fills the validation map and keeps the modal. Any other failure changes nothing on the page. |
| Locations.LocationAdmin.HandleDelete | client-side/src/pages/admin/Locations.jsx:114-123 | Without confirmation nothing happens. A successful delete sets the notice and fetches again. A failed one changes nothing on the page. |
| Categories.Accepted | client-side/src/pages/admin/Categories.jsx:21-25 | The `data` list of a `success` envelope becomes the list. Otherwise a bare array does. Anything else leaves it unchanged, including a `success` envelope without `data`, where the source stores `undefined` (see "## Left out"). |
| Categories.SaveRequest | client-side/src/pages/admin/Categories.jsx:59-65 | A PUT to `/locations-categories/{id}` exactly in edit mode, and a POST to `/locations-categories` otherwise. The body is `{name}` only. |
| Categories.SavedNotice | client-side/src/pages/admin/Categories.jsx:61-64 | A successful save shows the "updated" text exactly in edit mode, and the "added" text otherwise. |
| Categories.CategoryAdmin.constructor | client-side/src/pages/admin/Categories.jsx:5-14 | The page starts with an empty list, a closed empty form, no notice, and loading on. |
| Categories.CategoryAdmin.FetchData | client-side/src/pages/admin/Categories.jsx:16-31 | A response updates the list as `Accepted` says. A failure keeps it and sets the load-failure notice. Loading is off afterwards. |
| Categories.CategoryAdmin.OpenAddModal | client-side/src/pages/admin/Categories.jsx:37-44 | Add mode with no id and an empty name. Validation and notice are cleared, and the modal is shown. |
| Categories.CategoryAdmin.OpenEditModal | client-side/src/pages/admin/Categories.jsx:46-53 | Edit mode with id and name from the row. Validation and notice are cleared, and the modal is shown. |
| Categories.CategoryAdmin.HandleSubmit | client-side/src/pages/admin/Categories.jsx:55-76 | Sends `SaveRequest`. Success closes the modal, shows `SavedNotice` and fetches again. A 422 sets only validation and keeps the modal. Any other failure sets the save-failure notice. |
| Categories.CategoryAdmin.HandleDelete | client-side/src/pages/admin/Categories.jsx:78-88 | Without confirmation nothing happens. A failed delete sets the delete-failure notice and does not fetch again. A successful one sets the success notice and fetches again. |
| OrderForm.BookingPayloadCustomer | client-side/src/pages/public/OrderForm.jsx:41-44 | The payload carries `location_id`, `customer_name` and `phone_number` with the form's values. |
| OrderForm.BookingPayloadVisit | client-side/src/pages/public/OrderForm.jsx:45-46 | The payload carries `address` and `date` with the form's values. |
| OrderForm.BookingPayloadUser | client-side/src/pages/public/OrderForm.jsx:41-48 | The payload has exactly six entries, and `user_id` is always 1. |
| OrderForm.AfterStore | client-side/src/pages/public/OrderForm.jsx:37-74 | A stored reservation announces its order number and clears name, phone and date. A 422 sets validation and no notice. Any other failure, including a `success` answer without a record, shows the system-error notice. An answer without `success` leaves the form cleared and silent. The inputs are kept unless the reservation was stored. |
| OrderForm.AfterStoreClearsFirst | client-side/src/pages/public/OrderForm.jsx:38-39 | The validation map and notice from before a submit never survive it. |
| OrderForm.SuccessOnlyWhenStored | client-side/src/pages/public/OrderForm.jsx:53-57 | A success notice appears exactly when the server stored a reservation. |
| OrderForm.Booking.constructor | client-side/src/pages/public/OrderForm.jsx:6-15 | The form starts with no location, empty fields, no notice, and loading off. |
| OrderForm.Booking.FetchLocationDetail | client-side/src/pages/public/OrderForm.jsx:17-29 | A `success` answer stores the location and prefills the address (`''` when absent). If that answer has no record, the location is cleared and the load-failure notice shown. Without `success` nothing changes. A failure sets the load-failure notice. |
| OrderForm.Booking.Conclude | client-side/src/pages/public/OrderForm.jsx:53-74 | The branches after the call change the form exactly as `AfterStore` says. |
| OrderForm.Booking.HandleSubmit | client-side/src/pages/public/OrderForm.jsx:35-76 | Posts the booking payload to `/reservations/store`. The form then changes as `AfterStore` says, the address is kept, and loading is off. |
| CheckOrder.Lookup | client-side/src/pages/public/CheckOrder.jsx:28-35 | A `success` answer yields its data and no error. Any other response yields the not-found text. A failed call yields the retry text. Order and error are never both set. |
| CheckOrder.OrderLookup.constructor | client-side/src/pages/public/CheckOrder.jsx:6-12 | Empty inputs, no order, no error, loading off. |
| CheckOrder.OrderLookup.HandleCheckOrder | client-side/src/pages/public/CheckOrder.jsx:15-37 | Posts exactly `{order_number, phone_number}` as typed. Order and error end as `Lookup` says, and loading is off. |
| Login.Classify | client-side/src/pages/auth/Login.jsx:33-51 | A login succeeds exactly when the answer carries credentials. A 422 is a validation failure carrying the server's errors, and a 401 carries the server's message. Any other status is a server error. No response, or an answer without credentials, is "unreachable". |
| Login.FailedText | client-side/src/pages/auth/Login.jsx:44-51 | Each failure kind has its own `loginFailed` text. A validation failure has none. |
| Login.LoginForm.constructor | client-side/src/pages/auth/Login.jsx:6-11 | Empty inputs, empty validation, no failure text, loading off. |
| Login.LoginForm.Mount | client-side/src/pages/auth/Login.jsx:15-19 | A stored truthy token sends the browser to `/admin`. Otherwise the location is kept. |
| Login.LoginForm.HandleLogin | client-side/src/pages/auth/Login.jsx:21-55 | Posts `{email, password}`. Success stores the token and user and goes to `/admin`. A failure sets validation or `loginFailed`, as `Classify` and `FailedText` say, and leaves the other empty. Loading ends in every case. |
| AdminLayout.DisplayName | client-side/src/layouts/AdminLayout.jsx:32 | The stored user's name when it is non-empty, otherwise `Admin`. Never empty. |
| AdminLayout.Layout.Guard | client-side/src/layouts/AdminLayout.jsx:6-11 | Renders exactly when a truthy token is stored. Otherwise it redirects to `/login`. |
| AdminLayout.Layout.HandleLogout | client-side/src/layouts/AdminLayout.jsx:13-25 | Without confirmation nothing changes. Otherwise the logout call is sent, and however it ends the session is removed and the location is `/login`. |
| Dashboard.Count | client-side/src/pages/admin/Dashboard.jsx:23-27 | A count is the length of the envelope's `data` list, and 0 when there is none (a bare array included). |
| Dashboard.IssuedTogether | client-side/src/pages/admin/Dashboard.jsx:17-21 | The three requests leave together, with the same headers, before any answer arrives. |
| Dashboard.Overview.constructor | client-side/src/pages/admin/Dashboard.jsx:6-11 | Stats start at zero, and loading is on. |
| Dashboard.Overview.FetchStats | client-side/src/pages/admin/Dashboard.jsx:13-32 | All three answers settle the browser. Only when all three succeed are the stats replaced by their counts. Otherwise they keep their values. Loading is off afterwards. |

## Left out

- JSX, rendering, CSS and routing. `App.jsx` and `PublicLayout.jsx` are not part of this model.
- OrderForm.BookedFromCatalogue: the routes for the booking form and the order lookup are not declared in `App.jsx:13-29`. The lemma assumes the booking form's route parameter is the text after `/reservation/` in the catalogue's link.
- React effect scheduling and dependency arrays: fetches are explicit method calls.
- The 500 ms debounce in `Reservations.jsx:74-79`, which is timing behaviour.
- Not-awaited re-fetches after a save or delete are modelled as a second call that runs straight after. There is no interleaving with other calls.
- Dashboard's `Promise.all` is modelled as three requests issued together, then three answers settled in order. Rejection on the first failure and true parallelism are not modelled.
- Percent-encoding by `URLSearchParams` is not modelled: values go into the query unencoded, so the round-trip lemmas require values without `&`.
- Locations.ListQueryReadsBack: the location admin page builds its query by interpolating `search` and `category_id` unencoded (`Locations.jsx:28`). `+`, `%xx` and `#` keep their URL meaning on the way to the server, so a search `a+b` reads as `a b`, and a `#` cuts off the rest of the URL, including `category_id`. The model's `Query.Parse` does no such decoding or fragment cutting, so the lemma says nothing about what the server receives for such values.
- JSON serialisation of the stored user, and of request bodies.
- Non-ASCII case folding: `toLowerCase` is modelled on ASCII letters only.
- JavaScript number precision: ids and counts are unbounded integers.
- `FormData`, `File` and `URL.createObjectURL`: the form is a list of entries, a file is a name, and the object URL is a parameter of `HandleFileChange`.
- A cancelled file picker, where `files[0]` is undefined, is not modelled.
- `window.confirm` becomes a boolean parameter. Console logging is left out.
- The difference between a router `navigate` and a full page load (`window.location.href`): both set the location, and page state survives either.
- Login.LoginForm.HandleLogin: a wrong password (401) also runs the 401 hook (`index.js:32-38`), whose `window.location.href = '/login'` reloads the login page. The `loginFailed` text set at `Login.jsx:45` is then lost. The model keeps it, because it does not model reloads.
- Axios' browser adapter changes headers after the request interceptor. It drops Content-Type on calls without a body, and it lets the browser set `multipart/form-data; boundary=…` for a `FormData` body. This is not modelled: a sent request in the model is the config as the request interceptor hands it on.
- Api.SuccessData: an envelope with `success` but no `data` passes the source's `response.data && response.data.success` test (`LandingPage.jsx:21-22`), and the page stores `undefined`. Here it yields `None`, so the callers keep their previous list.
- Categories.Accepted: the same. A `success` envelope without `data` is stored as `undefined` at `Categories.jsx:21-22`, and here it yields `None`.
- LandingPage.Landing.FetchData: an envelope with `success` but no `data` stores `undefined` in the source. The model keeps the previous list. The same holds for LandingPage.Landing.FetchCategories, Locations.LocationAdmin.FetchData, Locations.LocationAdmin.FetchCategories and Categories.CategoryAdmin.FetchData.
- An error response is assumed to always carry `errors` and `message`; a body without them is not modelled.
- Login.LoginForm.HandleLogin: the stored token is the string the server sent. Storing a missing token as the text `undefined` is not modelled.
- Bodies of other shapes (numbers, strings other than empty, `data` of the wrong type) are not modelled.
- Stale-response protection and input trimming are absent from the code and are not added.
