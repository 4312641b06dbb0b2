# Artist page: pagination and editor state

A Dafny model of the artist page component of a small Angular application. The
page manages a list of artist records held by a REST backend. The model covers
three parts of it:

- the client-side pagination: the page count, the page numbers, the slice of the
  list on show, the guarded page setter and the clamped neighbour pages;
- the reload that mirrors the backend's list after every change;
- the editor: the blank draft, the edited and viewed copies, the multipart
  encoding of a submitted draft and its routing to a create or an update, and
  the confirmation that guards a delete.

Modules, one per concern:

- `ArtistDto` (`artist_dto.dfy`): the record, with `id` and `rating` optional
  and the social media links as a list.
- `Text` (`text.dfy`): JavaScript's `join` and `split` for a one-character
  separator, with their round trip.
- `Dates` (`dates.dfy`): the date normalisation of the reload and the date pipe
  of the editor. The calendar library calls are function parameters.
- `Pagination` (`pagination.dfy`): ceiling division, the page-number list,
  JavaScript's `Array.prototype.slice` and the page slice, with the lemmas about
  them.
- `FormEncoding` (`form_encoding.dfy`): the keys of a draft, the parts each key
  contributes, the `forEach` loop as a method, the rating default and the
  create/update routing.
- `ArtistPage` (`artist_component.dfy`): the class `ArtistComponent`. Its fields
  are the component's fields. Its methods update them in place under
  field-granular `modifies` frames. `Valid()` ties the pagination fields to the
  list: the count is the list's length, the page count is the ceiling, the page
  numbers run from 1, and the page on show is the current page's slice. Every
  pagination method preserves it.

Backend calls are parameters of type `CallResult<T>` that hold their outcome. A
mutation's follow-up reload is applied last, because its callback fires after
the synchronous alert and close. Browser answers are also parameters: the
validity of the form, the files chosen in the image input, and the answer to the
confirmation dialog.

Three behaviours of the code that a reader might expect to be otherwise:

- A failed create shows the backend's message, or a fixed message when there
  is none. A failed update always shows the fixed message: the update request
  reads its response as text (`artist.service.ts:30`), and a text error body
  has no `message`. Field-level validation errors are not flattened.
- The page size is never changed, so nothing clamps the current page. A reload
  that shrinks the list can leave the current page past the last page. That
  page then shows nothing (`PageBeyondLastIsEmpty`).
- The update route is taken only when the id is present and non-empty, because
  the code tests the id's JavaScript truthiness.

## Model

| member | source | states |
|---|---|---|
| `ArtistDto.BlankArtist` | src/app/pages/artist/artist.component.ts:95-105 | the blank draft has no truthy id, so it is submitted as a create; its rating is 0, with no albums and no links |
| `ArtistDto.HasId` | src/app/pages/artist/artist.component.ts:139 | only a present id is truthy, and the empty id is not, so a draft with an empty id is submitted as a create |
| `Pagination.CeilDiv` | src/app/pages/artist/artist.component.ts:66 | the page count is the least `r` with `size * r >= total`, so zero items give zero pages |
| `Pagination.PageNumbers` | src/app/pages/artist/artist.component.ts:67-70 | the page numbers have length `n`, element `k` is `k + 1`, and they strictly increase |
| `Pagination.JsSlice` | src/app/pages/artist/artist.component.ts:76 | for non-negative bounds, `slice` is the range from `start` to `min(end, length)`, or empty when the bounds cross or start is past the end; never longer than the list |
| `Pagination.PageSlice` | src/app/pages/artist/artist.component.ts:74-76 | the page on show is never longer than the list and holds only items of the list; `PageSliceIsRange`, `PageSliceLength` and `PagesPartition` say which items |
| `Pagination.PageSliceIsRange` | src/app/pages/artist/artist.component.ts:73-77 | for a page of at least 1, the page is `artists[(page-1)*size .. min(page*size, total))`, empty when the start is at or past the end, and at most `size` long |
| `Pagination.PageSliceLength` | src/app/pages/artist/artist.component.ts:73-77 | on a page in range, every page but the last holds exactly `size` items; the last holds `total - size*(totalPages-1)`, which is at least 1 |
| `Pagination.PageBeyondLastIsEmpty` | src/app/pages/artist/artist.component.ts:50-56 | a current page left past the last page by a shrinking reload shows an empty slice |
| `Pagination.PagesArePrefix` | src/app/pages/artist/artist.component.ts:73-77 | pages 1..n laid end to end are the first `min(n*size, total)` items in order |
| `Pagination.PagesPartition` | src/app/pages/artist/artist.component.ts:65-77 | the pages 1..totalPages laid end to end give back the whole list: no item is lost, repeated or reordered |
| `Text.Join` | src/app/pages/artist/artist.component.ts:126 | the first link starts the joined text, two or more links put a comma in it, and no link is longer than the text; `SplitJoin` recovers the links |
| `Text.Split` | src/app/pages/artist/artist.component.ts:52 | `split` yields at least one piece, no piece holds the separator, and joining the pieces gives the text back |
| `Text.SplitJoin` | src/app/pages/artist/artist.component.ts:126 | splitting the comma-joined links on commas gives the links back, provided there is at least one link and none holds a comma |
| `Text.JoinEmptyAmbiguous` | src/app/pages/artist/artist.component.ts:126 | no links and a single empty link encode to the same empty text |
| `Dates.PipeDate` | src/app/pages/artist/artist.component.ts:133 | a date the pipe turns into `null` is sent (and edited, :161) as the empty text; any other is the pipe's output |
| `Dates.IsoDatePart` | src/app/pages/artist/artist.component.ts:52 | the stored date is the text of the ISO timestamp before its first `T`: a `T`-free prefix that is either the whole timestamp or followed by a `T` |
| `Dates.IsoDateRoundTrip` | src/app/pages/artist/artist.component.ts:52 | a date whose timestamp is `x` + `T` + time, with no `T` in `x`, is stored as `x`, whatever format the fetched date was in; a date-only `d` whose timestamp starts with it is stored as `d` |
| `Dates.NormaliseCareerStart` | src/app/pages/artist/artist.component.ts:50-53 | a fetched record keeps every field except the career start date; an empty date stays empty; any other becomes the date part of its ISO timestamp (`IsoDatePart`) |
| `Dates.NormaliseAll` | src/app/pages/artist/artist.component.ts:50-53 | the stored list has the fetched list's length, element `i` differs from fetched element `i` at most in its date, and that date is empty when the fetched one is and otherwise the date part of its ISO timestamp |
| `FormEncoding.DraftKeys` | src/app/pages/artist/artist.component.ts:124 | the draft's keys are distinct: `id` is present exactly when the draft has an id, `rating` exactly when it is defined, and every other field always |
| `FormEncoding.FieldParts` | src/app/pages/artist/artist.component.ts:125-136 | one key appends at most one part, under its own name; it appends none exactly when it is the image key and no file was chosen |
| `FormEncoding.EncodeDraft` | src/app/pages/artist/artist.component.ts:123-137 | the whole body holds one part per key of the draft, one fewer when no file was chosen; `EncodeDraftFields` gives each name's values |
| `FormEncoding.BuildFormData` | src/app/pages/artist/artist.component.ts:123-137 | the `forEach` loop over the draft's keys builds exactly the parts of those keys, in key order |
| `FormEncoding.KeysPartsNamed` | src/app/pages/artist/artist.component.ts:124-137 | over distinct keys, the parts named after a key are that key's expected values, and a key not in the list has none |
| `FormEncoding.KeysPartsLength` | src/app/pages/artist/artist.component.ts:124-137 | each key yields one part, except the image key when no file was chosen, which yields none |
| `FormEncoding.EncodeDraftFields` | src/app/pages/artist/artist.component.ts:124-137 | under each key's name the body holds exactly one part for every key other than the image: the links joined by `,`, the date through the date pipe, the id and the rating only when defined, every other field's own value; and an image part, the first chosen file, exactly when a file was chosen |
| `FormEncoding.EncodeDraftLength` | src/app/pages/artist/artist.component.ts:123-137 | the body has 7 parts for the required fields other than the image, plus one each for an id, a defined rating and a chosen file, and no other parts |
| `FormEncoding.DefaultRating` | src/app/pages/artist/artist.component.ts:119-121 | a missing rating becomes 0, a defined one is kept, and no other field changes |
| `FormEncoding.RouteRequest` | src/app/pages/artist/artist.component.ts:139-141 | a draft with a non-empty id is sent as an update of that id, and any other as a create, with the same body |
| `FormEncoding.Submission` | src/app/pages/artist/artist.component.ts:115-141 | an invalid form sends nothing; a valid one sends the body of the rating-defaulted draft, as an update exactly when the draft has a truthy id, and then an update of that id |
| `ArtistPage.ArtistComponent.constructor` | src/app/pages/artist/artist.component.ts:17-39 | a new page has an empty list, page 1, page size 5, zero items and pages, a blank draft and no alert, and satisfies `Valid()` |
| `ArtistPage.ArtistComponent.LoadArtists` | src/app/pages/artist/artist.component.ts:47-63 | on success the list is the normalised fetched list and `totalItems` is its length; `Valid()` then fixes the page count, the page numbers and the slice, and the current page is left as it was. On failure only the alert is raised |
| `ArtistPage.ArtistComponent.CalculateTotalPages` | src/app/pages/artist/artist.component.ts:65-71 | the push loop leaves `totalPages` as the ceiling and `pages` as `[1..totalPages]`, and touches nothing else |
| `ArtistPage.ArtistComponent.PaginateArtists` | src/app/pages/artist/artist.component.ts:73-77 | the page on show becomes the current page's slice, and nothing else changes |
| `ArtistPage.ArtistComponent.ChangePage` | src/app/pages/artist/artist.component.ts:79-84 | a page in `1..totalPages` becomes current and its slice is shown; any other page leaves the current page and the slice unchanged; `Valid()` is kept |
| `ArtistPage.ArtistComponent.PreviousPage` | src/app/pages/artist/artist.component.ts:86-88 | the result is `max(1, currentPage - 1)`, so it is at least 1; on a valid page it is a page `ChangePage` accepts |
| `ArtistPage.ArtistComponent.NextPage` | src/app/pages/artist/artist.component.ts:90-92 | the result is `min(totalPages, currentPage + 1)`, so it is at most `totalPages`; on a valid page it is a page `ChangePage` accepts |
| `ArtistPage.ArtistComponent.OpenCreateArtistForm` | src/app/pages/artist/artist.component.ts:94-109 | the draft is blank (empty texts, no albums, no links, rating 0, no id), the editor is open, and the validation and general errors are cleared |
| `ArtistPage.ArtistComponent.CloseCreateArtistForm` | src/app/pages/artist/artist.component.ts:111-113 | the editor is closed and nothing else changes |
| `ArtistPage.ArtistComponent.CreateOrUpdateArtist` | src/app/pages/artist/artist.component.ts:115-156 | an invalid form changes nothing and sends nothing. Otherwise the request is `Submission`'s and the draft's rating is defaulted. A failure sets the general error to the backend's message for a create (the fixed one when there is none, and always for an update), raises it as the alert, and keeps the editor and the list. A success closes the editor, reports the create or update, and applies the reload |
| `ArtistPage.ArtistComponent.SendDraft` | src/app/pages/artist/artist.component.ts:119-141 | the draft's rating is defaulted and the request sent is the one `Submission` describes for a valid form |
| `ArtistPage.ArtistComponent.SaveResponded` | src/app/pages/artist/artist.component.ts:143-155 | the two callbacks of the save request: the failure branch sets the error and the alert to the backend's message for a create, or the fixed one when there is none, and always to the fixed one for an update; the success branch sets the alert, closes the editor and reloads |
| `ArtistPage.ArtistComponent.EditArtist` | src/app/pages/artist/artist.component.ts:158-164 | the draft is a copy of the record with only its date passed through the date pipe (an empty date stays empty), and the editor is open |
| `ArtistPage.ArtistComponent.ViewArtist` | src/app/pages/artist/artist.component.ts:166-168 | the draft is a copy of the record, and the editor flag is untouched |
| `ArtistPage.ArtistComponent.DeleteArtist` | src/app/pages/artist/artist.component.ts:170-184 | a declined confirmation sends nothing and changes nothing; a confirmed one sends the delete for the id, then either reports the deletion and applies the reload, or raises the failure alert with the list unchanged |
| `ArtistPage.ArtistComponent.ShowAlertMessage` | src/app/pages/artist/artist.component.ts:186-188 | the banner shows the message |
| `ArtistPage.TwelveArtistsScenario` | src/app/pages/artist/artist.component.ts:65-92 | with 12 artists and 5 per page: the pages are `[1, 2, 3]`, the previous page of page 1 is 1, page 3 holds the last two artists, the next page of page 3 is 3, and page 4 is refused |

## Left out

- The date library calls are function parameters, so whatever they compute is taken as given. This covers `new Date(d).toISOString()` in the reload and `DatePipe.transform(d, 'yyyy-MM-dd')` in the editor and the encoding. A date string the library rejects is not modelled: `toISOString` throws on an invalid date in the reload, and `DatePipe.transform` throws on a string it cannot parse in `editArtist` and in the encoding.
- `FormEncoding.DraftKeys`: `Object.keys` is taken in declaration order (`id` first, `rating` last). Two things are not modelled: the runtime key order of a record parsed from the backend's JSON, and any extra keys that JSON may carry.
- The `string` alternative of `socialMediaLinks` in the record interface is not modelled, because `join` would fail on it at runtime. Links are always a list.
- A rating is a `real`, and the album count is an integer. The browser's conversion of numbers to text in a form part is left to `NumberValue`.
- The record copies (`{ ...artist }`) are values here. The array of links that the copy shares with the listed record is therefore not aliased.
- `form.resetForm()` after a successful save is a DOM call and is not modelled. So are `document.getElementById` (assumed to find the input) and `console.error`.
- The `setTimeout` that hides the alert after 2 seconds is timer-driven and is not modelled. Only the immediate `alertMessage` and `showAlert` assignments are. The unused `isError` flag is kept as a parameter.
- A failed save whose error has no `error` object would throw in the callback. That case is not modelled: the message is `""` when absent.
- `ngOnInit` only calls `loadArtists`, so a caller of the model calls `LoadArtists` directly.
- Async interleaving of callbacks is not modelled. Each request's outcome is applied in sequence.
- The service layer (`ArtistService`: list, get, create, update, delete, rate) is modelled only as outcomes, because it only builds URLs. The routing table has no logic. `rateArtist` and `getArtistById` are never called by the page.
- `validationErrors` is only ever cleared by the page, never filled, so it is modelled as a map that stays empty after opening the form.
