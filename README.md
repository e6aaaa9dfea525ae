# Support-ticket store

A model, in Dafny, of the ticket store of a browser support-ticket page
(`TicketManager` in `index.js`). A user fills in a title and a description,
optionally with a screenshot; a valid submission becomes a `pending` ticket
at the head of an in-memory list, and that list is written to the
`supportTickets` slot of `localStorage`. Two demonstration callbacks later
move the ticket to `in-progress` and then to `resolved`, saving the list
each time. The list can be filtered by status, statuses and priorities have
fixed Arabic labels, a chosen screenshot is checked for size and type, and
the same storage holds the current user, which logout removes together with
the session token.

Layout, one module per file:

- `wrappers.dfy` (`Wrappers`): `Option` and `Result`.
- `js_text.dfy` (`JsText`): `String.prototype.trim` and `startsWith`.
- `labels.dfy` (`Labels`): `getStatusText`, `getPriorityText`, `getPriorityClass`.
- `form.dfy` (`Form`): the form data, `validateForm`, the image check of `handleImageUpload`.
- `tickets.dfy` (`Tickets`): the ticket record, the ticket object (a class whose
  `status` and `response` are assigned in place), and the pure list operations:
  the stored snapshot, the status filter, `find` by id, the two lifecycle updates.
- `storage.dfy` (`Storage`): the storage slots, `loadTickets` with its sample tickets,
  `getCurrentUser` with its default identity.
- `manager.dfy` (`Manager`): the `TicketManager` class: the list of ticket objects
  and the storage map as fields, and the methods that change them.

Modelling choices:

- Storage is a `map<string, Slot>`; `JSON.stringify`/`JSON.parse` are the
  identity, so a slot holds the value written to it. `getItem` returning the
  empty string counts as absent, as `if (stored)` treats it.
- The list holds references to ticket objects, as the page does. The
  progress callbacks update the object that `find` returned when they were
  scheduled (index.js:274), so they take that object as their argument.
- `Date.now()`, the locale date texts, the `confirm()` answer and the data URL
  that `FileReader` produces are parameters.

Behaviour of the code worth stating explicitly:

- The lifecycle looks the ticket up once, when the callbacks are scheduled,
  not when they fire (index.js:273-275).
- The size and type check on a screenshot only decides whether a preview is
  shown (index.js:115-125). Submission attaches any non-empty file
  (index.js:72-79); `Tickets.OversizedScreenshotIsAttached` states this.
- Ticket ids are `Date.now()` and are not unique by construction; no
  uniqueness is assumed. `find` returns the first match, and after
  `unshift` the new ticket is that match (`Tickets.FindHead`).
- The sample tickets returned by `loadTickets` are not written to storage
  until the first change of the list.

## Model

| member | source | states |
|---|---|---|
| `JsText.LeadingRun` | index.js:90 | the length of the run of characters that `trim` strips starting at a position; the character after it is kept |
| `JsText.TrailingRun` | index.js:90 | the length of the run of strippable characters ending at a position; the character before it is kept |
| `JsText.Trim` | index.js:90 | the result is a contiguous piece of the text with only strippable characters before and after it, and starts and ends with a kept character; so it is empty exactly when every character is whitespace or a line terminator |
| `JsText.TrimIdempotent` | index.js:90 | trimming a trimmed text changes nothing |
| `JsText.StartsWith` | index.js:122 | holds exactly when the prefix is no longer than the text and they agree at every position of the prefix; then the text is the prefix followed by the rest |
| `Labels.StatusText` | index.js:262-270 | a status in the table gets its own entry, any other the pending label; so the label is always one of the table's four |
| `Labels.PriorityText` | index.js:251-259 | a priority in the table gets its own entry, any other the `low` label; so the label is always one of the table's four |
| `Labels.PriorityClass` | index.js:240-248 | a priority in the table gets its own classes, any other the `low` classes; so the classes are always one of the table's four entries |
| `Labels.StatusTextTable` | index.js:262-270 | the label of each of `pending`, `in-progress`, `resolved`, `closed`; the four differ; any other value reads as pending |
| `Labels.PriorityTables` | index.js:240-259 | the label and classes of each of `low`, `medium`, `high`, `urgent`; any other value gets the `low` entries |
| `Form.ValidateForm` | index.js:86-97 | succeeds exactly when title and description are both present and not blank after trimming; a failure shows one message, a success none |
| `Form.HasAttachment` | index.js:72-73 | a screenshot is attached exactly when a file is there and it has at least one byte; a chosen file that is not attached is empty |
| `Form.CheckImageUpload` | index.js:112-125 | no file: nothing; larger than 10·1024·1024 bytes: too large (checked first); otherwise a MIME type not starting with `image/`: not an image; otherwise a preview of that file |
| `Form.UploadErrors` | index.js:115-125 | at most one message; the size message for a too-large file, the type message for a non-image, none otherwise |
| `Form.OversizedImageRejected` | index.js:115-119 | a 15 MiB file is refused with the size message whatever its type |
| `Tickets.Ticket.constructor` | index.js:61-69 | a ticket object holds exactly the properties of the record it is made from |
| `Tickets.Snapshot` | index.js:327-329 | what is saved has one record per ticket, in list order, each equal to that ticket's current properties |
| `Tickets.FilterByStatus` | index.js:197-198 | keeps exactly the tickets with the given status (every kept one has it, every one with it is kept), in list order, each as many times as it occurs in the list |
| `Tickets.FilterIdempotent` | index.js:198 | filtering twice by the same status is filtering once |
| `Tickets.FilterExtremes` | index.js:198 | all tickets are kept when all have the status, none when none has it |
| `Tickets.FilterResolvedExample` | index.js:198 | a resolved and a pending ticket filtered by `resolved` give exactly the resolved one |
| `Tickets.FindById` | index.js:274 | none exactly when no ticket has the id; otherwise a ticket of the list with that id, with no earlier ticket having it |
| `Tickets.FindHead` | index.js:101-108 | after insertion at the head, looking up the new ticket's id finds the new ticket, whatever ids follow |
| `Tickets.NewTicketData` | index.js:61-69 | a new ticket is `pending` with the fixed under-review response |
| `Tickets.NewTicketFields` | index.js:61-82 | a new ticket has the given id and date, the form's title and description as entered, and a screenshot exactly when a file with at least one byte is attached |
| `Tickets.OversizedScreenshotIsAttached` | index.js:72-79 | a valid form with a 15 MiB image is refused a preview but its ticket still carries the image |
| `Tickets.WithInProgress` | index.js:279-280 | status `in-progress` and the working message; every other property kept |
| `Tickets.WithResolved` | index.js:287-288 | status `resolved` and the closing message; every other property kept |
| `Tickets.Lifecycle` | index.js:273-291 | a new ticket goes pending, in progress, resolved with its other properties kept; the callbacks are not chained, so the later one decides the status |
| `Storage.Present` | index.js:296-297 | a slot counts as present when it exists and is not the empty text; a missing slot or an empty text is absent |
| `Storage.SampleTickets` | index.js:302-323 | two tickets, id 1 resolved dated a day back and id 2 in progress dated half a day back, without screenshots |
| `Storage.LoadTickets` | index.js:295-299 | an absent slot gives the sample tickets; a stored list is returned as stored; any other content is an error |
| `Storage.GetCurrentUser` | index.js:362-374 | an absent slot gives the default user (id 1); a stored user is returned as stored; any other content is an error |
| `Storage.SaveThenLoad` | index.js:327-329 | what `saveTickets` writes, `loadTickets` restores unchanged |
| `Storage.SetThenGetUser` | index.js:377-378 | what `setCurrentUser` writes, `getCurrentUser` reads back |
| `Storage.LogoutEffects` | index.js:335-336 | after the two removals the current user is the default, and the ticket list loads as before |
| `Storage.SlotsIndependent` | index.js:327-378 | saving tickets leaves the current user as it was; setting the user leaves the tickets |
| `Manager.Revive` | index.js:298 | the revived list is one new object per stored record, in order, each object once |
| `Manager.TicketManager.constructor` | index.js:3-4 | the list is what `loadTickets` returns, as new objects each occurring once; storage is not changed |
| `Manager.TicketManager.SaveTickets` | index.js:327-329 | the `supportTickets` slot holds the list's snapshot, every other slot is unchanged, and loading gives the list back |
| `Manager.TicketManager.SimulateTicketProgress` | index.js:273-275 | the callbacks' target is the first ticket with the id; none (nothing scheduled) exactly when no ticket has it |
| `Manager.TicketManager.AddTicket` | index.js:100-108 | the list becomes the ticket followed by the old list in order, the slot holds the new list, and the new ticket is the one scheduled |
| `Manager.TicketManager.SubmitTicket` | index.js:52-83 | an invalid form shows one message and changes neither list nor storage; a valid one puts a new object holding `NewTicketData` at the head, keeps the old tickets and their properties, saves, and schedules the new ticket |
| `Manager.TicketManager.FilterTickets` | index.js:197-200 | the empty filter shows the whole list; any other shows exactly the tickets with that status, in list order, as `FilterByStatus` gives them; nothing changes |
| `Manager.TicketManager.MarkInProgress` | index.js:278-283 | the target gets status `in-progress` and its message, no other property and no other ticket changes, the list stays, and is saved; when the target is in the list, the saved list differs from the old one in exactly its row |
| `Manager.TicketManager.MarkResolved` | index.js:286-291 | the target gets status `resolved` and its message, no other property and no other ticket changes, the list stays, and is saved; when the target is in the list, the saved list differs from the old one in exactly its row |
| `Manager.TicketManager.SetCurrentUser` | index.js:377-379 | the `currentUser` slot holds the user, other slots unchanged, and reading it back gives the user |
| `Manager.TicketManager.HandleLogout` | index.js:332-345 | confirmed: exactly the `currentUser` and `userToken` slots are removed and the user reads as the default, then the call of the undefined `showNotification` throws, so no notice is shown and no redirect is scheduled; not confirmed: nothing changes |
| `Manager.TicketManager.HandleLogoutIntended` | index.js:332-345 | confirmed: the same two slots are removed, the logout notice is shown and the redirect to `login.html` is scheduled; not confirmed: nothing changes |
| `Manager.ConfirmedLogout` | index.js:332-345 | on a freshly started page a confirmed logout removes both session slots and, as written, ends in the TypeError, which differs from the intended signed-out outcome |
| `Manager.LoginIssueFormValid` | index.js:86-97 | the demonstration form with a "Login issue" title passes validation |
| `Manager.RunProgress` | index.js:273-291 | both callbacks on the head ticket leave it resolved after in-progress, the later tickets as they were, and the slot holding the new list |
| `Manager.LoginIssueScenario` | index.js:273-291 | starting from any readable store, submitting "Login issue" and running both callbacks saves the resolved ticket followed by the list the page started with |

## Left out

- Rendering (`renderTickets`, index.js:203-237): DOM output only. It shows a
  placeholder for an empty list and one row per ticket otherwise; the model
  stops at the list that would be rendered.
- The success modal, the error toast and its animation, `resetForm`,
  `removeImage`, `updateUserInfo`, the ripple effect and the injected CSS
  (index.js:137-194, 349-359, 394-448): page effects only. Error messages are
  returned as the list of texts shown instead.
- `setTimeout` (index.js:278, 286): the two progress callbacks are
  methods a caller runs directly; their delays and ordering are not modelled.
- `FileReader` (index.js:74-79, 127-132): the data URL is a field of the file.
  That the ticket is added only once the read completes, and never if it fails, is not modelled.
- `Date.now()` and `toLocaleDateString('ar-SA')` (index.js:62, 66, 310, 320): taken as parameters.
- `JSON.parse` / `JSON.stringify`: the identity. Text that some other code wrote to a slot is not parsed.
- `confirm()` (index.js:333): the answer is a parameter.
- The logout redirect (index.js:342-344) is never scheduled as the code is
  written, since the call before it throws. In `Manager.TicketManager.HandleLogoutIntended`
  it is the `redirect` field of the outcome; the 1500 ms delay and the navigation
  itself are not modelled.
- The TypeError of index.js:339 is an outcome value naming the missing method;
  the browser's own message text is not modelled.
- Storage.LoadTickets: a slot that holds something other than a ticket list
  is an error result; the page would `JSON.parse` it and either throw or go
  on with a non-list, which is not modelled.
- Storage.GetCurrentUser: likewise, a slot that holds something other than a
  user record is an error result instead of whatever `JSON.parse` returns.
- Manager.TicketManager.constructor: requires the ticket slot to be readable,
  since the page fails on start otherwise.
- Labels.StatusText: the table is looked up by its own keys only; a key that
  names an inherited `Object.prototype` property (such as `constructor`) is not
  modelled.
- Labels.PriorityText: same restriction on inherited property names.
- Labels.PriorityClass: same restriction on inherited property names.
- Form.ValidateForm: both failures show the same message, so the order in
  which the fields are checked (title first) is not observable in its result.
- The ticket class keeps the properties other than `status` and `response`
  as constants: nothing assigns them once the ticket is in the list. The
  `screenshot` assignment of index.js:76 happens before `addTicket` and is
  part of the record the ticket is built from (`Tickets.NewTicketData`).
- `localStorage.setItem` (index.js:328): every save succeeds in the model. A
  save that exceeds the browser's storage quota throws, and nothing in the page
  catches it. For example, a list holding the data URL of a large screenshot,
  which submission attaches whatever its size, is over the quota. Then
  `addTicket` has already put the ticket at the head but shows no modal and
  schedules no progress, and every later save throws too. This quota failure is
  not modelled, so `Manager.TicketManager.SaveTickets`, `Manager.TicketManager.AddTicket`
  and `Manager.TicketManager.SubmitTicket` promise a saved slot unconditionally.

## Findings

| source | as written | input that shows it | evidently intended | confidence | as-written member | corrected member |
|---|---|---|---|---|---|---|
| index.js:339 | a confirmed logout calls `this.showNotification`, which `TicketManager` does not define (its feedback methods are `showSuccessModal` and `showError`, index.js:149-194); the call throws a TypeError after the two slots are removed, so no notice is shown and the redirect of index.js:342-344 is never scheduled | `handleLogout()` with `confirm` answering yes | show the logout notice, then redirect to `login.html` | high; not executed | `Manager.TicketManager.HandleLogout`, `Manager.ConfirmedLogout` | `Manager.TicketManager.HandleLogoutIntended` |
