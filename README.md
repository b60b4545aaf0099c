# Hotel booking: a verified model of the data and form logic

This project models, in Dafny, the deterministic pieces of a hotel-booking
web application (Next.js, TypeScript). Every network or service call is replaced by an
abstract input: a response value, a callback outcome, or a function the handler applies.

- **Content normaliser** (`action/fetchHotelsByIds.ts`, `action/fetchHotelsById.ts`). A raw
  property-content entry becomes a `HotelWithRooms` record (`types/types.ts`) under JavaScript
  `||` defaulting. A falsy raw value (absent, `""`, `0`) takes the default: `""`,
  `"Unknown Brand"`, `0`, or one zero-priced room. The batch action maps the caller's ids in
  order and rethrows on the first unreadable entry. The single action returns `null` on a
  missing entry and on any exception, and it also sets `swimmingPool` and `gym`.
- **Search filter** (`components/hotel/HotelList.tsx`). A case-insensitive substring match on
  name or category that keeps order. The component's `searchQuery`/`filteredHotels` state is a
  class whose methods re-establish `filteredHotels == VisibleHotels(hotels, searchQuery)`.
- **Listing forms** (`components/hotel/AddHotelForm.tsx`, `components/room/AddRoomForm.tsx`).
  This covers the schemas as predicates with issue lists, the image key (the text after the
  last `/`), the image state cell with its upload and remove handlers, and the submit handlers.
  Submit picks PATCH, POST or no request, and sets `isLoading` in two phases: request issued,
  then promise settled. It also covers the `open` dialog flag, which the hotel form toggles and
  hands to the room form as `handleDialogueOpen`.
- **Image-delete route** (`app/api/uploadthing/delete/route.ts`). The 401/400/200/500
  decision chain and the public id (the key up to its first `.`). The media host's `destroy`
  is a function parameter.
- **Hotel detail view** (`components/hotel/HotelDetail.tsx`). The state cells and their
  initial values, and the availability request built from them. Each response maps to exactly
  one outcome: navigation with the first offer, or one of three alerts. Also the `min` rules of
  the two date inputs.

Four behaviours of the code a reader might not expect:

- A record without `catalog` does not get an all-default catalog block. Reading
  `data.catalog.city` throws. The batch action rethrows (`Failure(CatalogUndefined(id))`) and
  the single action returns `null`.
- The room list can be empty. A present `rooms: []` is truthy and is kept; only an absent list
  becomes `[{roomPrice: 0}]`.
- A requested id that is missing from a batch response fails the whole batch. It is neither
  skipped nor passed on as a malformed record.
- Stay parameters are not validated before the availability request. The two date inputs and
  the two number inputs carry `min` attributes (today, `checkin || today`, and 1). The number
  inputs' `onChange` stores whatever number was typed.

## Model

| member | source | states |
|---|---|---|
| `Text.ContainsIff` | components/hotel/HotelList.tsx:26-27 | `includes` holds exactly when the needle occurs at some position of the haystack |
| `Text.Lower` | components/hotel/HotelList.tsx:23 | `toLowerCase`: same length, each character lower-cased on its own |
| `Text.LowerIdempotent` | components/hotel/HotelList.tsx:23 | lower-casing an already lower-cased query changes nothing |
| `Text.Contains` | components/hotel/HotelList.tsx:26-27 | `includes` as a scan over start positions; its meaning is stated by `Text.ContainsIff` |
| `Text.IndexOf` | app/api/uploadthing/delete/route.ts:25 | the first position holding the character, -1 exactly when it is absent; nothing before it holds the character |
| `Text.LastIndexOf` | components/hotel/AddHotelForm.tsx:257-258 | the last position holding the character, -1 exactly when absent; nothing after it holds the character |
| `Text.Split` | app/api/uploadthing/delete/route.ts:25 | `split` on one character always yields at least one piece; `Text.SplitPiecesFree` and `Text.JoinSplit` pin the pieces down |
| `Text.SplitPiecesFree` | app/api/uploadthing/delete/route.ts:25 | no piece produced by `split` contains the separator |
| `Text.JoinSplit` | app/api/uploadthing/delete/route.ts:25 | joining the pieces of `split` with the separator gives the string back |
| `HotelRecords.NormalizeCatalog` | action/fetchHotelsByIds.ts:29-41 | field by field, independently: a truthy city, brand, chain, phone, category, star rating or `hero_image_url.lg` is copied; an absent or falsy one becomes `""`, `"Unknown Brand"` (brand, chain) or `0`; review count and rating are copied as they are |
| `HotelRecords.Normalize` | action/fetchHotelsByIds.ts:21-43 | succeeds exactly when `catalog` is present; copies `id` and `name`; a truthy `country_code`/`address_line` is copied, else `""`; the catalog block is `NormalizeCatalog`'s and the top-level city its city; brand and chain never empty; no amenity flags; rooms kept when present, else the placeholder |
| `HotelRecords.AbsentFieldsTakeDefaults` | action/fetchHotelsByIds.ts:28-40 | a catalog with every field absent yields `""` strings, `"Unknown Brand"` brand and chain, star rating 0, review fields absent, `lg` `""` |
| `HotelRecords.FalsyIsAbsent` | action/fetchHotelsByIds.ts:28-39 | an empty string, a zero star rating or an empty `lg` is treated exactly like an absent one |
| `HotelRecords.EmptyRoomsKept` | action/fetchHotelsByIds.ts:42 | a present empty `rooms` list stays empty (no placeholder) |
| `HotelRecords.NormalizeToRaw` | action/fetchHotelsByIds.ts:23-43 | a normalised record written back in raw shape normalises to itself |
| `HotelRecords.NormalizeIdempotent` | action/fetchHotelsById.ts:21-43 | normalising a normalised record again yields a structurally equal record |
| `FetchHotelsByIds.Entry` | action/fetchHotelsByIds.ts:22-43 | one id's record is its normalised entry; a missing entry or a missing catalog throws, naming the id |
| `FetchHotelsByIds.MapIds` | action/fetchHotelsByIds.ts:21-44 | succeeds exactly when every id's entry is readable; then one record per id, the i-th from `ids[i]` |
| `FetchHotelsByIds.FetchHotelsByIds` | action/fetchHotelsByIds.ts:8-48 | a transport error, or a missing body with ids requested, is rethrown; otherwise the result of the map |
| `FetchHotelsByIds.BatchOrderAndCompleteness` | action/fetchHotelsByIds.ts:21-44 | the batch succeeds iff every requested id has an entry with a catalog; then the length is the length of `ids` and the i-th record is the normalised entry of `ids[i]` |
| `FetchHotelsByIds.FirstFailureWins` | action/fetchHotelsByIds.ts:21-48 | the first failing id's error is the batch's error; no partial list is returned |
| `FetchHotelsByIds.MissingIdFailsBatch` | action/fetchHotelsByIds.ts:22-28 | an id absent from the response fails the whole batch |
| `FetchHotelsByIds.ExtraEntriesIgnored` | action/fetchHotelsByIds.ts:21-22 | entries under keys that were not requested do not affect the result |
| `FetchHotelById.RequestUrl` | action/fetchHotelsById.ts:9 | the URL is the fixed prefix, then the id verbatim, then `&language=en-us` |
| `FetchHotelById.UrlIdRoundTrip` | action/fetchHotelsById.ts:9 | the id can be read back from the URL, so distinct ids give distinct URLs |
| `FetchHotelById.WithAmenities` | action/fetchHotelsById.ts:41-42 | adds `swimmingPool` and `gym`, each true exactly when the raw value is `true`; nothing else changes |
| `FetchHotelById.FetchHotelById` | action/fetchHotelsById.ts:8-47 | non-null exactly when a body, an entry for the id and its catalog are all present; `swimmingPool` and `gym` always set, true only for a true source value |
| `FetchHotelById.AgreesWithBatch` | action/fetchHotelsById.ts:21-43 | the single record equals the batch record for the same id plus the amenity flags: the defaults are the same |
| `FetchHotelById.NullMeansBatchFails` | action/fetchHotelsById.ts:14-18 | if the single action gives `null` for a requested id, the batch over the same response fails |
| `HotelList.VisibleHotels` | components/hotel/HotelList.tsx:18-29 | the list the effect stores: the input itself for an empty query; otherwise no longer than the input, each hotel from the input and passing the query |
| `HotelList.FilterMatching` | components/hotel/HotelList.tsx:24-28 | no longer than the input, every kept hotel matches, every kept hotel comes from the input |
| `HotelList.FilterIsSubsequence` | components/hotel/HotelList.tsx:24 | the filtered list is a subsequence of the input (order preserved) |
| `HotelList.FilterCounts` | components/hotel/HotelList.tsx:24-28 | each matching hotel occurs as often as in the input, each non-matching one not at all |
| `HotelList.FilterComplete` | components/hotel/HotelList.tsx:24-28 | every matching input hotel is in the result |
| `HotelList.FilterKeepsAllMatching` | components/hotel/HotelList.tsx:24-28 | a list whose every element matches passes through unchanged |
| `HotelList.EmptyQueryShowsAll` | components/hotel/HotelList.tsx:18-20 | an empty query shows the input list, and filtering by it would too |
| `HotelList.VisibleSound` | components/hotel/HotelList.tsx:23-28 | every shown hotel has the lower-cased query in its lower-cased name or category |
| `HotelList.CaseInsensitive` | components/hotel/HotelList.tsx:23-27 | queries that differ only in letter case show the same hotels |
| `HotelList.LoweredQueryShowsSame` | components/hotel/HotelList.tsx:23-27 | a query and its lower-cased form show the same hotels |
| `HotelList.VisibleIdempotent` | components/hotel/HotelList.tsx:17-30 | filtering the shown list again by the same query changes nothing |
| `HotelList.ShowsNothingIff` | components/hotel/HotelList.tsx:36-42 | nothing is shown exactly when no hotel passes the query |
| `HotelList.HotelListView.constructor` | components/hotel/HotelList.tsx:13-15 | empty query, every hotel shown, state in sync |
| `HotelList.HotelListView.RunFilterEffect` | components/hotel/HotelList.tsx:17-30 | after the effect `filteredHotels` is `VisibleHotels(hotels, searchQuery)` |
| `HotelList.HotelListView.Search` | components/hotel/HotelList.tsx:13-30 | setting the query re-runs the effect: the new query is stored and its visible list shown |
| `HotelList.HotelListView.ReceiveHotels` | components/hotel/HotelList.tsx:17-30 | new props re-run the effect with the current query |
| `HotelList.HotelListView.ShowsNoHotelsMessage` | components/hotel/HotelList.tsx:36-42 | the "No hotels found" message shows exactly when no hotel passes the query |
| `FormShared.ImageKey` | components/hotel/AddHotelForm.tsx:257-258 | the key has no `/`, is a suffix of the URL, is preceded by a `/` when the URL has one, and is the whole URL when it has none |
| `FormShared.RemovalKey` | components/hotel/AddHotelForm.tsx:192 | no key for an undefined image, otherwise the image key |
| `FormShared.TrailingSlashNotRemovable` | components/hotel/AddHotelForm.tsx:192-193 | an image ending in `/` has an empty key, so nothing is removed |
| `FormShared.ImageField.constructor` | components/hotel/AddHotelForm.tsx:93 | the image state starts as the listing's image (undefined when new); the form value agrees |
| `FormShared.ImageField.ApplyUpload` | components/hotel/AddHotelForm.tsx:165-189 | a returned URL sets both the state and the form value, with a success toast; a failed upload changes nothing and shows the failure toast |
| `FormShared.ImageField.Remove` | components/hotel/AddHotelForm.tsx:191-210 | a request only for a non-empty key, posting that key; success clears the image, failure and no-key leave it |
| `FormShared.DialogState.constructor` | components/hotel/AddHotelForm.tsx:99 | the dialog starts closed |
| `FormShared.DialogState.Toggle` | components/hotel/AddHotelForm.tsx:289-291 | `open` is negated |
| `FormShared.DialogState.SetOpen` | components/hotel/AddHotelForm.tsx:573 | `onOpenChange` stores the visibility the dialog reports |
| `FormShared.ToggleTwice` | components/hotel/AddHotelForm.tsx:289-291 | two toggles restore `open` |
| `AddHotelForm.ValidHotelForm` | components/hotel/AddHotelForm.tsx:64-90 | the schema as a predicate: title at least 3, description and location at least 10, image and country non-empty; `AddHotelForm.HotelFormIssues` ties each rule to its message |
| `AddHotelForm.HotelFormIssues` | components/hotel/AddHotelForm.tsx:64-90 | no issue exactly when valid; the title issue iff fewer than 3 characters, description and location iff fewer than 10, image and country iff empty, each with the schema's message |
| `AddHotelForm.OptionalFieldsIrrelevant` | components/hotel/AddHotelForm.tsx:73-89 | state, city and the twelve amenities never change validity |
| `AddHotelForm.NewHotelDefaultsInvalid` | components/hotel/AddHotelForm.tsx:107-127 | the new-hotel defaults fail all five rules, the title rule first |
| `AddHotelForm.DefaultValues` | components/hotel/AddHotelForm.tsx:107-127 | an existing hotel's stored values, otherwise the new-hotel values, which fail all five rules |
| `AddHotelForm.SubmitRequest` | components/hotel/AddHotelForm.tsx:214-252 | PATCH `/api/hotel/{id}` exactly when a hotel exists, else POST `/api/hotel`; the body is the form values |
| `AddHotelForm.HotelForm.constructor` | components/hotel/AddHotelForm.tsx:93-99 | not loading, dialog closed, image from the existing hotel |
| `AddHotelForm.HotelForm.Submit` | components/hotel/AddHotelForm.tsx:212-235 | invalid values send nothing; valid ones set `isLoading` and send the submit request |
| `AddHotelForm.HotelForm.SubmitSettled` | components/hotel/AddHotelForm.tsx:217-251 | success and failure both clear `isLoading`; success navigates to `/hotel/{id}` with the created or updated toast |
| `AddHotelForm.HotelForm.RemoveImage` | components/hotel/AddHotelForm.tsx:191-210 | a request only for a non-empty key, posting that key to the delete route; success clears the image and form value with the success toast; a failed delete keeps both, with the failure toast |
| `AddHotelForm.HotelForm.HandleDialogueOpen` | components/hotel/AddHotelForm.tsx:289-291 | `open` is negated |
| `AddRoomForm.FailingFields` | components/room/AddRoomForm.tsx:35-64 | exactly the listed fields whose rule fails |
| `AddRoomForm.RoomFormIssues` | components/room/AddRoomForm.tsx:35-64 | no issue exactly when valid; a field is reported iff its rule fails; `breakFastPrice` is never reported |
| `AddRoomForm.Fails` | components/room/AddRoomForm.tsx:36-53 | each field's rule: title at least 3, description at least 10, the three counts and the price at least 1, the bed types at least 0, image non-empty, breakfast price unconstrained |
| `AddRoomForm.ValidRoomForm` | components/room/AddRoomForm.tsx:35-64 | the schema accepts exactly the values none of whose fields fails its rule |
| `AddRoomForm.OptionalFieldsIrrelevant` | components/room/AddRoomForm.tsx:52-63 | the breakfast price and the amenities never change validity |
| `AddRoomForm.NewRoomDefaultsInvalid` | components/room/AddRoomForm.tsx:74-95 | the new-room zeros fail the bed, guest, bathroom and price rules and pass the bed-type rules |
| `AddRoomForm.SubmitRequest` | components/room/AddRoomForm.tsx:151-174 | no request without a hotel; PATCH `/api/room/{room.id}` with the values when both exist; POST `/api/room` with the values plus `hotelId` otherwise |
| `AddRoomForm.RoomForm.constructor` | components/room/AddRoomForm.tsx:66-70 | not loading; image from the existing room |
| `AddRoomForm.RoomForm.Submit` | components/room/AddRoomForm.tsx:149-174 | invalid values send nothing; valid ones set `isLoading` first, so with no hotel it stays true and nothing is sent |
| `AddRoomForm.RoomForm.SubmitSettled` | components/room/AddRoomForm.tsx:154-191 | both outcomes clear `isLoading`; only success toggles the dialog, exactly once |
| `AddRoomForm.RoomForm.RemoveImage` | components/room/AddRoomForm.tsx:98-111 | a request only for a non-empty key, posting that key to the delete route; success clears the image and form value with the success toast; a failed delete keeps both, with the failure toast |
| `DeleteImageRoute.PublicId` | app/api/uploadthing/delete/route.ts:25 | the id has no `.`, is a prefix of the key, is followed by `.` when the key has one, and is the whole key when it has none |
| `DeleteImageRoute.HandlePost` | app/api/uploadthing/delete/route.ts:11-46 | 401 iff no user; 400 iff user but no key; `destroy` called, once, iff user and key, with the public id; success iff it answered `"ok"`; any other answer gives 500 "Failed to delete image"; a throw from the host or from parsing the body gives the catch block's 500 |
| `DeleteImageRoute.UnauthorizedIgnoresBody` | app/api/uploadthing/delete/route.ts:12-15 | without a user the body and the media host play no part and nothing is destroyed |
| `DeleteImageRoute.DestroyThrowBecomes500` | app/api/uploadthing/delete/route.ts:28-45 | whatever `destroy` does elsewhere, a throw for this public id gives 500 "Internal Server Error: " with its message, or "Unknown error", after the call |
| `DeleteImageRoute.ParseThrowBecomes500` | app/api/uploadthing/delete/route.ts:18-45 | a body that cannot be parsed gives the same 500 and nothing is destroyed |
| `DeleteImageRoute.StatusesAreFixed` | app/api/uploadthing/delete/route.ts:11-46 | every reply is 200, 400, 401 or 500 |
| `HotelDetail.AvailabilityRequest` | components/hotel/HotelDetail.tsx:31-40 | the path is the availability base followed by the hotel id; the four state values are passed unchanged |
| `HotelDetail.ClassifyBooking` | components/hotel/HotelDetail.tsx:43-59 | navigate iff status 200 with a non-empty offer list, to `/BookingDetail?` plus the first offer's encoding; "No offers available." iff 200 without offers; "Failed to retrieve booking data." iff another status; "An error occurred, please try again." iff thrown |
| `HotelDetail.OnlyFirstOfferMatters` | components/hotel/HotelDetail.tsx:47-49 | offers after the first never affect the outcome |
| `HotelDetail.Today` | components/hotel/HotelDetail.tsx:27 | the text before the first `T`: a `T`-free prefix of the timestamp, followed there by `T`, or the whole timestamp when it has none |
| `HotelDetail.CheckoutMin` | components/hotel/HotelDetail.tsx:149 | the check-out input's `min`: the check-in date, or today when none is chosen; its ordering is stated by `HotelDetail.CheckoutMinNotBeforeToday` |
| `HotelDetail.AcceptedDatesOrdered` | components/hotel/HotelDetail.tsx:141-149 | dates the inputs accept give a check-out not before today and not before check-in |
| `HotelDetail.CheckoutMinNotBeforeToday` | components/hotel/HotelDetail.tsx:141-149 | the check-out minimum is never before the check-in minimum |
| `HotelDetail.HotelDetailView.constructor` | components/hotel/HotelDetail.tsx:17-21 | modal closed, empty dates, one guest per room, one room |
| `HotelDetail.HotelDetailView.OpenModal` | components/hotel/HotelDetail.tsx:23 | the modal is open; no other cell changes |
| `HotelDetail.HotelDetailView.CloseModal` | components/hotel/HotelDetail.tsx:24 | the modal is closed; no other cell changes |
| `HotelDetail.HotelDetailView.SetCheckin` | components/hotel/HotelDetail.tsx:138 | stores the chosen check-in |
| `HotelDetail.HotelDetailView.SetCheckout` | components/hotel/HotelDetail.tsx:146 | stores the chosen check-out |
| `HotelDetail.HotelDetailView.SetGuestPerRoom` | components/hotel/HotelDetail.tsx:154 | stores the typed number unchecked |
| `HotelDetail.HotelDetailView.SetNumberOfRoom` | components/hotel/HotelDetail.tsx:162 | stores the typed number unchecked |
| `HotelDetail.HotelDetailView.HandleBooking` | components/hotel/HotelDetail.tsx:29-60 | the request is built from the current state; the outcome is the classification of the endpoint's answer; navigation only after status 200 |
| `HotelDetail.ModalRoundTrip` | components/hotel/HotelDetail.tsx:23-24 | opening twice then closing leaves the modal closed and the stay values untouched |

## Left out

- Network, database, authentication and media-host calls are not modelled. Their results are
  parameters: a `ContentResponse`, a settled outcome, or a function such as `destroy` or the
  availability `endpoint`. Await ordering and React's state scheduling are not modelled; each
  async handler is split into an "issued" method and a "settled" method.
- The batch request's query string (`paramsSerializer`) is not modelled. It sends only the
  repeated `id` parameters and drops `language`.
- Raw entries are assumed to carry `id` and `name` as strings. A `null` entry in the response
  map, a non-boolean amenity value and `NaN` are not represented. JavaScript numbers are
  `real` in hotel content and already-parsed integers in the forms (no `z.coerce.number`).
- `toLowerCase` is ASCII-only and lengths count characters, not UTF-16 code units.
- `URLSearchParams` encoding of the first offer is the opaque parameter `encode`. The
  booking-detail page that decodes it is not part of this model.
- HotelDetail.ClassifyBooking: stated over any status, as the code tests it. Under axios's
  default status check, only 2xx statuses reach that test; the others arrive as `Threw`.
- The upload handlers' reading of `secure_url` from a body without one is not modelled. The
  upload outcome is either a URL or a throw.
- A JSON body whose `imageKey` is not a string, or that is `null`, is not modelled.
- `handleDeleteHotel` (deleting the image, then the hotel, then navigating) is not modelled.
  Only its key derivation is, as `FormShared.ImageKey`.
- The image-sync effect (AddHotelForm.tsx:130-138) is folded into the `ImageField.Valid()`
  invariant. The country/state/city lookup effects are not modelled. `router.refresh()` is
  not modelled either.
- AddRoomForm.RoomFormIssues: reports the failing fields without the schema's messages.
- Determinism of the normaliser holds because every Dafny function is deterministic.
  `HotelRecords.NormalizeIdempotent` states the stronger re-normalisation property.
- Not part of this model: the payment-intent route (floating-point arithmetic), `getHotels`
  (the filtering happens in the database), `middleware.ts` (pattern matching belongs to the
  auth provider), the hotel and room API routes, and the purely presentational components.
