# Notes app client state, modelled in Dafny

This project models the client-side state logic of a small notes web app, in two parts.

- **The `App` component** (`src/App.js`). It keeps six state slots: the note collection, the show-all flag, the error message, the login form's username and password, and the logged-in user. It reads and writes one browser-storage entry. It updates these slots when events complete: the initial load, the session restore, a toggle of a note's importance (success or failure), a login (success or failure), note creation, the notification timer and the filter button.
- **The notes API client** (`src/services/notes.js`). This is a module-wide bearer token plus the request that each of `getAll`, `create` and `update` builds.

Files:

- `options.dfy`: `Option`, for JavaScript `null` and for a network call's outcome.
- `sequences.dfy`: `Filter`, `Count` and `IsSubsequence`. These give the meaning of `Array.prototype.filter`: the result is an order-preserving subsequence.
- `note_list.dfy`: the `Note` record and the pure collection computations the handlers use. These are find, the flipped copy, replace-by-id (`map`), remove-by-id and the important-only view (`filter`). It also holds the lemmas about unique ids.
- `note_service.dfy`: the `Service` class, which holds the token and has `SetToken`. Its `GetAll`, `Create` and `Update` functions return a `Request` record: verb, URL, Authorization header and body. `LastWriteWins` proves the token depends only on the latest `setToken` call.
- `app.dfy`: the `App` class. Its fields are the state slots, the storage map and a reference to the API client. It has one method per completion event. Each network result is a parameter: `Some(value)` for a response, `None` for a failure. A ghost `State()` snapshot lets every method state its whole new state as `old(State())` with some fields replaced. The method `Scenarios` walks a fresh app through three event sequences and asserts the resulting state: toggling note "1" is accepted, toggling note "2" is rejected, and a login fails.

Modelling choices:

- A note id is a string, because `update` puts it into the URL `/api/notes/<id>`.
- The Authorization entry of a request record is either `NotSent` or `Sent(value)`, where `value` is an `Option`. The record `create` builds carries an Authorization entry even when the token is `null` (`Sent(None)`); the records `getAll` and `update` build carry none (`NotSent`). Whether a null-valued entry reaches the wire is up to the transport, which is not modelled.
- `ToggleImportanceOf` requires the id to be present. When it is absent, `find` returns `undefined` and the handler throws while reading `note.important`, so no state transition happens.

Two points about the code are easy to miss:

- Only `create` attaches the token; `update` is a PUT without an Authorization header, so `Service.Update` has none.
- Every rejection of the update is handled alike, whatever its cause: the entries with that id are removed.

## Model

| member | source | states |
|---|---|---|
| Sequences.Filter | src/App.js:39 | the result is an order-preserving subsequence of the input; its entries are exactly the input entries that satisfy the predicate; its length is the number of such entries |
| NoteList.FindIndex | src/App.js:42 | the position of the first entry with the id: that entry has it and no earlier entry does |
| NoteList.Flip | src/App.js:43 | the copy has the same id and content and the negated `important` |
| NoteList.ReplaceById | src/App.js:48 | same length; every entry with the id becomes the returned note; every other entry is unchanged in its position |
| NoteList.RemoveById | src/App.js:59 | an order-preserving subsequence with no entry carrying the id; every other entry is kept; the length drops by the number of entries with the id |
| NoteList.ImportantOnly | src/App.js:39 | an order-preserving subsequence holding exactly the important entries, as many as there are |
| NoteList.SubsequenceKeepsUniqueIds | src/App.js:59 | any subsequence of a collection with unique ids has unique ids |
| NoteList.RemoveKeepsUniqueIds | src/App.js:59 | removal by id keeps ids unique |
| NoteList.ReplaceKeepsUniqueIds | src/App.js:48 | replacing by a note with the same id keeps every position's id, so ids stay unique |
| NoteList.AppendKeepsUniqueIds | src/App.js:107 | appending keeps ids unique if and only if the new note's id is not already present |
| NoteService.Bearer | src/services/notes.js:8 | the stored value is "bearer " followed by the token unchanged |
| NoteService.RawTokenOfBearer | src/services/notes.js:8 | the raw token can be read back from the stored value |
| NoteService.LastWriteWins | src/services/notes.js:7-9 | after a series of `setToken` calls the token is "bearer " + the last argument, or the starting token after no call |
| NoteService.Service.constructor | src/services/notes.js:4 | the token is null before any `setToken` call |
| NoteService.Service.SetToken | src/services/notes.js:7-9 | the token becomes exactly "bearer " + the argument, whatever it was before |
| NoteService.Service.GetAll | src/services/notes.js:11-14 | a GET of `/api/notes` with no Authorization header and no body |
| NoteService.Service.Create | src/services/notes.js:18-24 | a POST of the draft to `/api/notes` whose Authorization header is the current token, null included |
| NoteService.Service.Update | src/services/notes.js:26-29 | a PUT of the object to `/api/notes/` + id, whose URL names that id, with no Authorization header |
| App.RemovedMessage | src/App.js:51-53 | the message is "Note '" + the content + "' was already removed from server.", and the content can be read back from it |
| App.RemovedMessageDistinct | src/App.js:51-53 | two contents give the same message if and only if they are equal; no such message is "Wrong credentials" |
| App.App.constructor | src/App.js:13-18 | empty collection, show all, no message, empty fields, no user, the given storage, null token |
| App.App.NotesToShow | src/App.js:37-39 | all notes when show-all is set; otherwise an order-preserving subsequence holding every important note and nothing else, as many entries as there are important entries (duplicates kept); the collection is not changed |
| App.App.LoadInitialNotes | src/App.js:22-26 | sends the unauthenticated GET with no body; a response replaces the collection wholesale; a failure changes nothing |
| App.App.RestoreSession | src/App.js:28-35 | a stored session becomes the user and sets the token to "bearer " + its token; with no stored session nothing changes |
| App.App.ToggleImportanceOf | src/App.js:41-61 | sends the PUT of the flipped first match. On success the collection is replaced by id and nothing else changes. On failure no entry with the id remains, the message names the found note's content, and nothing else changes. Ids stay unique if they were unique and, on success, the returned note keeps the id |
| App.App.ClearMessage | src/App.js:54-57 | the timer event clears the message and nothing else |
| App.App.HandleLogin | src/App.js:74-102 | submits the current fields. On success the storage holds the user under `loggedNoteappUser`, the token is "bearer " + the user's token (so a `create` request built now carries it), the user is set and both fields are empty. On failure only the message changes, to "Wrong credentials" |
| App.App.AddNote | src/App.js:104-109 | sends the authenticated POST; on success the returned note is appended to the old collection; on failure nothing changes; ids stay unique when the new id is fresh |
| App.App.ToggleShowAll | src/App.js:143 | the filter flag flips and nothing else changes |
| App.App.SetUsername | src/App.js:116 | the username field takes the typed value |
| App.App.SetPassword | src/App.js:117 | the password field takes the typed value |

## Left out

- Rendering, the `loginForm` and `noteForm` builders, the list and button markup, and `src/components/Footer.js` are left out. They are presentation only.
- `noteFormRef.current.toggleVisibility()` is left out. It is a UI effect on a component that is not part of this model.
- The axios transport, promises and async ordering are left out. Each network call is the request record it builds plus an outcome supplied as a parameter.
- Handlers close over the `notes` value from the render in which they were called. The model applies each completion to the current collection, so overlapping operations and stale-closure races are not modelled.
- A rejected initial load or create is an unhandled promise rejection in the source. The model leaves the state unchanged in both cases.
- The 5000 ms `setTimeout` is left out. Only its firing is modelled, as the `ClearMessage` event. That event clears any message, including one raised after the timer was set, which matches the source.
- `JSON.stringify`/`JSON.parse` and `localStorage` are left out. Storage is a map from key to `User`. A present key stands for a non-empty stored string, and exceptions from storage are not modelled.
- `console.log` in the timer callback is left out. It is output only.
- The login service (`services/login`) is not part of this model. It is an input: `HandleLogin` takes its outcome and returns the credentials it would send. The `Note`, `Notification`, `LoginForm`, `Togglable` and `NoteForm` components are not part of this model either.
- The server may return note fields other than id, content and importance. Those are not modelled; the object spread in the flipped copy would carry them along.
