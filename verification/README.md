# Journal manager page — a Dafny model

This project models the logic of the journal CRUD page of `crud-app`
(`app/dashboard/get/page.js`). The page lists journals (title `judul`,
author `pembuat`, body `isi`, theme `tema`, date `tanggalBuat`) from a REST
endpoint. It lets the user create, edit and delete them, and it refetches the
whole list after every successful change.

Everything outside the page's own logic becomes an input:

- whether each HTTP request resolved or threw;
- the body the list endpoint returned;
- the clock's ISO string ("now");
- the user's answer to the delete confirmation.

Each handler is one atomic transition from state to state. It also reports
the requests it sends, so "a refetch happens" can be stated.

Modules:

- `Text`: JavaScript's `split(' ')` and `includes` over `seq<char>`, with the
  split/join round trip.
- `Dates`: `formatDateForInput` and the `" 00:00:00"` suffix a saved date gets.
- `Messages`: the six fixed status messages and the banner's "berhasil" test,
  with proofs of which messages pass it.
- `Journals`: ids with JavaScript truthiness, records, the form, the request
  payload, and the three mutation calls (`postPendaftaran`, `updateUser`,
  `deleteUser`).
- `ListApi`: `getUser` and the `data.data[i].data` envelope.
- `Page`: the component state, every handler, the submit dispatch, the banner,
  and runs of user events.
- `PageProperties`: properties that span several handlers or whole runs.

Behaviour of the code worth knowing, modelled as written:

- `getUser` catches every error itself and returns `[]` (lines 6-16).
  So the catch clause of `fetchData` (lines 104-105) is dead code, `error` is
  never set, and the error banner never shows. The model records this by
  having `FetchData` always leave `error` null. `RunStaysSettled` then shows
  that no run reaches an error state. The fact that the catch is dead comes
  from reading `getUser`, not from the proof.
- A successful create never touches `editingId` (lines 111-125). Creation
  happens only when the marker is absent or falsy, so the page is still in
  create mode afterwards.
- The date sent to the server is the form's date followed by `" 00:00:00"`.
  `formatDateForInput` gives back the original date whenever that date has
  no space, and every value a date input produces has none
  (`FormatRecoversStampedDate`).
- The dispatch and the title test `editingId` for truthiness. A record whose
  id is `0` or `""` therefore opens in create mode, and submitting creates a
  new record instead of updating it (`SubmitAfterEdit`).

## Model

| member | source | states |
|---|---|---|
| Text.SplitOnSpace | crud-app/app/dashboard/get/page.js:21 | `split(' ')` gives at least one piece and no piece holds a space. The first piece is a prefix of the input that ends at the first space or at the end. |
| Text.JoinSplit | crud-app/app/dashboard/get/page.js:21 | Joining the pieces of a split with single spaces gives back the input, so splitting loses nothing. |
| Text.SplitJoin | crud-app/app/dashboard/get/page.js:21 | Splitting the join of space-free pieces gives back those pieces: the other half of the round trip. |
| Dates.FormatDateForInput | crud-app/app/dashboard/get/page.js:19-22 | An empty date gives `""`. Otherwise the result is a space-free prefix of the input, followed in the input by a space or by nothing. It is the whole input when the input has no space. |
| Dates.PrefixBeforeSpaceIsFormatted | crud-app/app/dashboard/get/page.js:19-22 | The result is unique: any space-free prefix that ends at a space or at the end of the input is the function's result. |
| Dates.FormatIdempotent | crud-app/app/dashboard/get/page.js:19-22 | Formatting an already formatted date changes nothing. |
| Dates.FormatRecoversStampedDate | crud-app/app/dashboard/get/page.js:36-39 | Formatting `date + " 00:00:00"` gives back `date` if and only if `date` holds no space. |
| Messages.SuccessMessagesMarkSuccess | crud-app/app/dashboard/get/page.js:41-68 | The three success messages (create, delete, update) include "berhasil". |
| Messages.FailureMessagesMarkFailure | crud-app/app/dashboard/get/page.js:44-71 | None of the three failure messages includes "berhasil". |
| Journals.FormatPayload | crud-app/app/dashboard/get/page.js:63-66 | The request body equals the form except for the date, which is the form's date followed by `" 00:00:00"`. Formatting that date recovers the form's date exactly when it has no space. |
| Journals.PostPendaftaran | crud-app/app/dashboard/get/page.js:34-49 | A create POSTs the stamped form. Its success flag is whether the request resolved, and its message is one of the two fixed create messages. |
| Journals.UpdateUser | crud-app/app/dashboard/get/page.js:61-73 | An update PUTs the stamped form to the given id. It reports success as the request's outcome, with one of the two fixed update messages. |
| Journals.DeleteUser | crud-app/app/dashboard/get/page.js:51-59 | A delete sends DELETE for the given id. It reports success as the request's outcome, with one of the two fixed delete messages. |
| Journals.ResultsClassifiedBySuccess | crud-app/app/dashboard/get/page.js:171 | For every result the three mutations can return, the banner's "berhasil" test holds exactly when `success` is true. |
| ListApi.UnwrapItems | crud-app/app/dashboard/get/page.js:10 | Mapping `item => item.data` succeeds exactly when no item is null. The result then has one journal per item, in order, each the item's inner `data`. |
| ListApi.GetUser | crud-app/app/dashboard/get/page.js:5-17 | A thrown request, a missing or non-array `data`, or a null item gives the empty list. Otherwise the list has the array's length and element i is item i's inner `data`. |
| ListApi.UnwrapEnvelope | crud-app/app/dashboard/get/page.js:10 | Unwrapping the envelope a server builds around a list of journals gives back exactly that list. |
| Page.FetchData | crud-app/app/dashboard/get/page.js:98-109 | A fetch sends one GET, replaces the list with the unwrapped response, and ends with no request in flight and no error. Message, edit marker and form are untouched. |
| Page.Mount | crud-app/app/dashboard/get/page.js:164-166 | After mounting, the page shows the fetched list. The edit marker is null, the form is blank, the message is empty, and there is no error. |
| Page.HandleChange | crud-app/app/dashboard/get/page.js:90-96 | The named input takes the new value. Every other input and all other state is unchanged. |
| Page.HandleEdit | crud-app/app/dashboard/get/page.js:153-162 | The marker becomes the record's id, and edit mode starts exactly when that id is truthy. The four texts are copied verbatim. The date is `FormatDateForInput` of the record's date, so it is cut at its first space. Nothing else changes. |
| Page.Cancel | crud-app/app/dashboard/get/page.js:303-311 | Cancel clears the marker, leaves edit mode and blanks the form. List, message and flags are kept. |
| Page.HandleSubmit | crud-app/app/dashboard/get/page.js:111-125 | Submit POSTs the stamped form. The message becomes the create call's own message, so the banner turns green exactly on success. On success the form resets, the list is refetched and the marker is kept. On failure only the message changes. |
| Page.HandleUpdate | crud-app/app/dashboard/get/page.js:137-151 | Update PUTs the stamped form to the id. The message becomes the update call's own message, so the banner turns green exactly on success. On success the marker clears, the form resets and the list is refetched. On failure only the message changes. |
| Page.HandleDelete | crud-app/app/dashboard/get/page.js:127-135 | A declined confirmation changes nothing and sends nothing. A confirmed delete sends DELETE and shows the delete call's own message, green exactly on success. On success it sends exactly DELETE then GET, shows the refetched list and settles. On failure it sends only the DELETE and changes only the message. It never touches the form or the marker. |
| Page.Submit | crud-app/app/dashboard/get/page.js:234-237 | Submit sends a PUT for the marker exactly when the marker is truthy, and a POST otherwise. The message is the message of the call it made. Success resets the form, refetches and settles. After an update the marker is cleared; after a create it is kept. Failure changes only the message. |
| Page.BannerOf | crud-app/app/dashboard/get/page.js:170-176 | There is no banner for an empty message. The banner is green exactly when the message includes "berhasil". |
| Page.Apply | crud-app/app/dashboard/get/page.js:209-221 | A row's Edit button loads that row's record. Its Delete button runs the delete handler on that row's id, with that handler's requests, message and list. Typing and Cancel reach their handlers without sending anything. A submit goes through the dispatch. From a settled state, no event leaves a request in flight or an error shown. A GET is sent exactly when the event is a successful submit or a confirmed, successful delete. The displayed list changes only then, and it becomes the unwrapped response. |
| PageProperties.ChangeToSameValue | crud-app/app/dashboard/get/page.js:90-96 | Typing back the value an input already holds leaves the whole state unchanged. |
| PageProperties.ChangeOverrides | crud-app/app/dashboard/get/page.js:90-96 | A second change to the same input overrides the first. |
| PageProperties.EditThenCancel | crud-app/app/dashboard/get/page.js:303-311 | Edit followed by Cancel gives the same state as Cancel alone. |
| PageProperties.EditRestoresSavedForm | crud-app/app/dashboard/get/page.js:153-162 | Editing the record saved from a form loads that form back exactly when its date has no space. |
| PageProperties.SubmitAfterEdit | crud-app/app/dashboard/get/page.js:234-237 | After editing a record, submit updates it when its id is truthy and creates a new record when its id is falsy. |
| PageProperties.SubmitBanner | crud-app/app/dashboard/get/page.js:171 | After any submit the banner is green when the request succeeded and red when it failed. It is never hidden. |
| PageProperties.DeleteBanner | crud-app/app/dashboard/get/page.js:127-135 | After a confirmed delete the banner is green exactly on success. A declined delete leaves the banner as it was. |
| PageProperties.MountShowsServerList | crud-app/app/dashboard/get/page.js:164-166 | Mounting against a server that lists some journals shows exactly those journals. |
| PageProperties.RunStaysSettled | crud-app/app/dashboard/get/page.js:98-109 | From a settled state, any run of user events ends with no request in flight and no error. |
| PageProperties.RunWithoutRefetch | crud-app/app/dashboard/get/page.js:98-109 | After a run in which no event refetches, the list is the starting one: the page never edits it locally. |
| PageProperties.RunShowsLastRefetch | crud-app/app/dashboard/get/page.js:98-109 | When event k is the last refetch of a run, the list after the run is exactly the unwrapped response of event k. |

## Left out

- The HTTP calls and the fixed base URL are network I/O. Each call's outcome is a boolean input, and the list response is an input value. The URL text built from an id is not modelled; a request carries the id itself.
- The `console.log` and `console.error` calls are logging only.
- `formatDateForDisplay` (lines 24-32) depends on the JavaScript `Date` parser and the `id-ID` locale.
- The clock (`new Date().toISOString()`) and `window.confirm` are a UI clock and a dialog. Both are inputs. The clock string is not assumed to be `YYYY-MM-DD`.
- JSX rendering, Tailwind classes and the table layout are presentation. Only the banner colour rule and the title/dispatch/Cancel truthiness tests are modelled.
- Page.FetchData: the `isLoading = true` phase while the GET is in flight is not modelled. Overlapping fetches and requests that never return are not modelled either. Each handler is one atomic transition that runs to completion.
- ListApi.GetUser: a wrapper item that lacks `data` would put `undefined` into the list; items are either `null` or wrap a journal. A non-array `data` with a `map` method of its own is treated like any other non-array.
- Dates.FormatDateForInput: only string dates are modelled. A `null` or `undefined` date, which the source also maps to `""`, is not.
- Ids are integers or strings; `NaN` and other JSON values are not modelled.
- Page.HandleChange: only the five named inputs of the form can fire a change, so arbitrary field names are not modelled.
- Page.Enabled: a submit is always allowed, even with an empty field. The browser blocks those through the `required` attributes (lines 246-290). The model admits more events than the page can produce, so the run properties still hold.
- Page.Apply: an event whose control is not on screen cannot happen. Such events are a row outside the list, or Cancel while not editing.
- `crud-app/next.config.mjs` is bundler configuration with no logic.
