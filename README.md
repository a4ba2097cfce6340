# Mi_repertorio: the song repertoire service

This project models the core of a small HTTP service whose one file, `index.js`,
keeps a repertoire of songs. Each song is a record `{id, titulo, artista, tono}`.
The repertoire is an ordered, module-level array loaded from `repertorio.json` at
start-up. Four handlers work on it:

- `GET /canciones` lists the array as it is.
- `POST /canciones` checks that all three body fields are truthy. It rejects an
  exact duplicate of the `(titulo, artista, tono)` triple. Otherwise it appends
  a song with id `getMaxId() + 1`.
- `PUT /canciones/:id` checks the body first. It then finds the first song whose
  `id.toString()` equals the path text and overwrites that song's three text
  fields. The id stays the same.
- `DELETE /canciones/:id` finds the first match the same way and removes it
  with `splice`.

Every successful mutation rewrites the whole file from memory.

Files:

- `wrappers.dfy`: `Option`, for a body field that may be absent.
- `number_text.dfy`: the decimal text of an integer id, as `toString` renders a safe
  integer id (|id| <= 2^53),
  and its parser. Both round trips are proved, and so is injectivity.
- `songs.dfy`: the `Song` and `Payload` datatypes, truthiness of a field, and the
  specification functions for searching: `FindTriple` (the `find` in the POST
  handler), `IndexOfId` (the `findIndex` in PUT and DELETE) and `MaxIdOf` (what
  `getMaxId` returns). It also holds `Retitled`, the repertoire after an update,
  and the invariants that create maintains.
- `laws.dfy`: lemmas relating these. They cover which path texts select a song,
  the invariants create, update and delete keep, how the id text reaches a
  created song, the reuse of an id when a create follows the delete of the
  song created before it, and an update producing a duplicate triple.
- `service.dfy`: the `Repertoire` class. The field `songs` stands for
  `repertorio`. The ghost field `persisted` is the file's contents, assigned
  `songs` wherever the source calls `fs.writeFileSync`. The class has one method
  per handler and `GetMaxId` with its loop. Several client methods use only
  the specifications. `CreateSession` and `UpdateDeleteSession` replay a
  create, update, delete and list session. `ReuseSession` shows that after the newest song is deleted,
  the next create reissues its id. `CreateKeeps`, `UpdateKeeps` and
  `DeleteKeeps` show that each handler keeps ids unique and fields filled,
  with the store in step. Triple uniqueness is not kept by update.

Each handler returns a `Response`. `StatusCode` gives its HTTP status:

| response | status |
|---|---|
| `Created` | 201 |
| `Updated` | 200 |
| `Deleted` | 200 |
| `InvalidBody` | 400 |
| `AlreadyExists` | 400 |
| `NotFound` | 404 |

The model makes three modelling choices:

- A body field is an `Option<string>`. It is truthy when it is present and not
  empty, so a body missing a field and one with `""` are both rejected.
- A path text selects a song exactly when it equals `IntToString(song.id)`.
  `Laws.IdMatchesIffParsed` shows that this is the same as the text being an
  integer's canonical decimal text and naming that id. Text like `"abc"`, `"01"`,
  `""` or `"-0"` therefore never matches. The handlers answer not-found for it.
- Ids are unbounded integers. `getMaxId` starts from 0 and only moves to a larger
  id, so ids that are zero or negative never raise it.

## Model

| member | source | states |
|---|---|---|
| `NumberText.NatToString` | index.js:68 | the text of a natural number is non-empty, all digits, and has no leading zero unless it is "0" |
| `NumberText.IntToString` | index.js:68 | the text of an id is canonical integer text, and it starts with '-' exactly when the id is negative |
| `NumberText.IntToStringRoundTrip` | index.js:68 | parsing the text of an id gives back the id |
| `NumberText.ParseIntRoundTrip` | index.js:68 | every canonical integer text is the rendering of the integer it denotes |
| `NumberText.IntToStringInjective` | index.js:68 | different ids have different texts |
| `Songs.IsValidPayload` | index.js:31 | the body check of create (and of update, index.js:64) fails exactly when some field is absent or the empty string |
| `Songs.FindTriple` | index.js:36-37 | returns a song exactly when some song has the triple, and then the first such song; none when no song has it |
| `Songs.IndexOfId` | index.js:68 | -1 exactly when no song's id text equals the path text; otherwise the index of the first song whose id text equals it |
| `Songs.MaxIdOf` | index.js:103-111 | is at least 0 and at least every id, and is 0 or the id of some song (so 0 on an empty repertoire) |
| `Songs.Retitled` | index.js:71-73 | the updated song has the new three fields and its old id; the length and all other songs are unchanged |
| `Laws.IdMatchesIffParsed` | index.js:68 | a path text selects a song exactly when it is canonical integer text whose value is the song's id |
| `Laws.NonNumericPathFindsNothing` | index.js:89 | a path text that is not canonical integer text matches no song |
| `Laws.AtMostOneMatch` | index.js:68 | when ids are unique, at most one song matches a given path text |
| `Laws.CreatePreservesWellformed` | index.js:36-53 | appending the new song with id MaxIdOf+1 keeps ids unique on its own; it keeps fields filled when the new fields are non-empty, and triples unique when the triple was not found |
| `Laws.CreatedSongIsAddressable` | index.js:41-53 | a song appended with an id above every existing id is the first match for its id text |
| `Laws.CreateAfterDeleteReusesId` | index.js:41-42 | the text of the id a create issued finds the appended song, and after it is spliced out at that index the next create's id MaxIdOf+1 equals the deleted song's id |
| `Laws.UpdatePreservesIds` | index.js:68-73 | an update keeps ids unique and fields filled, leaves every lookup by path text unchanged, and is idempotent |
| `Laws.UpdateCanDuplicateTriple` | index.js:64-73 | an update does not check triples, so it can turn a well-formed repertoire into one with two identical triples |
| `Laws.DeletePreservesWellformed` | index.js:89-92 | removing one song keeps each of ids unique, fields filled and triples unique, each from its own premise |
| `Laws.DeleteRemovesTheMatch` | index.js:89-92 | when ids are unique, the text of a song's id finds exactly that song, and after it is deleted that text matches no song |
| `Service.StatusCode` | index.js:32-97 | 201 exactly for Created, 200 exactly for Updated and Deleted, 400 exactly for InvalidBody and AlreadyExists, 404 exactly for NotFound |
| `Service.CreateKeeps` | index.js:27-57 | a create, whatever the body, keeps ids unique, fields filled and the store in step with memory |
| `Service.UpdateKeeps` | index.js:60-83 | an update, whatever the id text and body, keeps ids unique, fields filled and the store in step |
| `Service.DeleteKeeps` | index.js:86-100 | a delete, whatever the id text, keeps ids unique, fields filled and the store in step |
| `Service.Repertoire.constructor` | index.js:6 | the collection is the loaded one, and the store holds it |
| `Service.Repertoire.List` | index.js:22-24 | returns the collection as it is and changes nothing |
| `Service.Repertoire.GetMaxId` | index.js:103-111 | the scan returns MaxIdOf(songs) |
| `Service.Repertoire.Create` | index.js:27-57 | invalid body: InvalidBody, nothing changed or written. Duplicate triple: AlreadyExists, nothing changed. Otherwise exactly one song is appended at the end with id MaxIdOf+1, returned as Created, and the store equals the collection |
| `Service.Repertoire.Update` | index.js:60-83 | invalid body: InvalidBody even when no id matches, nothing changed. No match: NotFound, nothing changed. Otherwise only the first matching song gets the new fields and keeps its id, it is returned as Updated, and the store equals the collection |
| `Service.Repertoire.Delete` | index.js:86-100 | no match: NotFound, nothing changed. Otherwise exactly the first matching song is removed, the others keep their order, the length drops by one, and the store equals the collection |

## Left out

- Express setup, CORS, JSON body parsing and the listening socket (index.js:1-14). These are framework plumbing.
- Serving the static page with `res.sendFile` (index.js:17-19). This is file I/O.
- Reading `repertorio.json` at start-up and `JSON.stringify` when writing. The constructor takes the loaded collection as a parameter. A write is modelled only as the assignment of the ghost `persisted` snapshot.
- The exact text of the response bodies (error JSON, the confirmation text). Only the kind of response and its status are modelled. `Deleted` carries the path text that the confirmation quotes.
- `console.log` diagnostics. The source's 404 branch of PUT also refers to an undefined `error` identifier (index.js:81). That throws only after the 404 response has been sent, so the model keeps the `NotFound` result and does not model the throw.
- The `Array.isArray` reset (index.js:49-51). In the model the collection is always a sequence, so this branch cannot happen.
- Values JSON can hold but the model does not: body fields that are numbers or other non-strings, ids that are not integers, extra fields on stored records.
- Strings are sequences of Dafny `char`, which are Unicode scalar values, so a body field holding a lone surrogate such as `"\ud800"` (which JavaScript strings accept) cannot be represented.
- Ids are unbounded integers, but in JavaScript they are double-precision numbers. Above 2^53, `toString` prints the shortest digits that read back to the same double (2^64 prints as "18446744073709552000"), so `IdMatches`, and with it the lookups of PUT and DELETE, can differ from the source there. From 10^21 on it gives exponent form. Once the largest id reaches 2^53, `getMaxId() + 1` equals `getMaxId()`, so the source issues a duplicate id. There `Laws.CreatePreservesWellformed` and `Laws.CreatedSongIsAddressable` do not hold for the source.
- Interleaving of concurrent requests, and failures of the file write. The model is sequential, and it writes only when the operation succeeds.
