# Noteful routers: a Dafny model

This project models the three Express routers of the Noteful backend, `/folders`, `/tags` and `/notes`, together with the part of the MongoDB/Mongoose store they depend on. Each handler is a Dafny method. It takes the store and the request's parts: path id, body, query, original URL. It returns a `Response`: a sent status with an optional JSON body and an optional `Location` header, a bare `next()`, or `next(err)`.

The model covers:

- **Request validation and its order.** POST needs a truthy `name` or `title`. Folder and tag GET, PUT and DELETE check the id with `Store.isValidId`. PUT checks `name` before the id. The notes routes do not check the id: a malformed note id goes to the database, and the database's cast rejects it.
- **Error translation.** A duplicate-key rejection (code 11000) from a folder or tag write becomes 400 with an entity-specific message. Every other error is passed on unchanged. The notes routes translate nothing.
- **Statuses and headers.** Reads and updates answer 200. Creates answer 201 with `Location = originalUrl + "/" + id`. Deletes answer 204. Tag DELETE answers 200 with the write result of the cascade.
- **Partial updates.** A folder or tag PUT changes only `name` and the `updatedAt` stamp. A note PUT changes only `title`, `content` and `updatedAt`.
- **Listings.** Folders and tags are listed in ascending order of name. Under unique names that listing is proved to be the only possible one. Notes are listed newest `updatedAt` first, optionally filtered so that the title or the content matches the search term.
- **Tag-delete cascade.** The tag is removed first. Then its id is pulled from the `tags` of every note, in a loop over the notes. The result is proved to remove every occurrence, to keep the order of the other tags and to leave the other fields alone. Pulling the same id again changes nothing.
- **The folder schema.** `name` is required and unique, and `createdAt <= updatedAt` holds. These are invariants of the `Store` class that every write keeps. The `toObject` transform is modelled as a pure function that produces the public shape `{id, name, createdAt, updatedAt}`.

Layout:

- `http.dfy`: module `Http`. Bodies, errors, responses, the shared checks, the duplicate-key translation and `Location`.
- `documents.dfy`: module `Documents`. The stored records and the `toObject` public shape.
- `ordering.dfy`: module `Ordering`. The name and recency orders, and what it means to list a collection, with the listing methods.
- `cascade.dfy`: module `Cascade`. `$pull` on one list, on one note and on all notes.
- `store.dfy`: module `Db`. The `Store` class and the Mongoose operations the routers call.
- `folders.dfy`, `tags.dfy`, `notes.dfy`: the three routers.
- `scenarios.dfy`: request sequences, stated as the responses the routers' contracts fix for them. Each one either mirrors a test case in `test/` or follows from the route lines its row cites.

`ObjectId.isValid` and the `$regex` match are foreign code. They are the function-valued constants `Store.isValidId` and `Store.matches`. The store assumes two things about ids: `"0"` is not a valid id, and a valid id is written exactly as the database stores it (see "## Left out"). Generated ids, storage failures and time are inputs to the model:

- a handler that creates takes the new id as a parameter;
- every storage call takes a `fault` parameter, the rejection it may meet;
- `Store.clock` stamps the timestamps and advances on every stamping write.

Three things the routers do not do, although a REST API of this shape often does:

- `routes/notes.js` checks neither `folderId` nor `tags` on create or update, and its listing has no `folderId` or `tagId` filter.
- The notes routes do not check the shape of their ids. A malformed id reaches the database, whose cast rejects it.
- In every router, GET /:id and PUT /:id call `next()` with no error when a valid id has no record. The model returns `Next` for it, not a 404. DELETE does not look: folder and note DELETE answer 204 and tag DELETE answers 200, whether or not the record existed.

## Model

| member | source | states |
|---|---|---|
| Http.CheckName | routes/folders.js:55-62 | POST passes validation exactly when the body's `name` is truthy; otherwise the error is 400 "Missing `name` in request body" |
| Http.CheckNameThenId | routes/folders.js:85-98 | PUT passes exactly when `name` is truthy and the id is valid; a falsy name gives the missing-name error even when the id is invalid, and otherwise an invalid id gives 400 "The `id` is not valid" |
| Http.TranslateDuplicate | routes/folders.js:72-78 | a duplicate-key (11000) rejection becomes 400 with the entity's message; every other error is returned unchanged |
| Http.Location | routes/folders.js:67 | the Location header is the original URL, a slash, then the new id, each recoverable by position |
| Http.LocationNamesResource | routes/tags.js:68 | two creates under the same URL have the same Location exactly when their ids are equal |
| Documents.ToObject | models/folder.js:12-17 | the public shape has exactly the keys id, name, createdAt, updatedAt (no `_id`, no `__v`), with `id` equal to the stored `_id` |
| Documents.FromObjectInvertsToObject | models/folder.js:12-17 | reading the public shape back gives the stored folder with its version key reset |
| Documents.ToObjectForgetsOnlyVersion | models/folder.js:13-16 | two folders have the same public shape if and only if they differ at most in the version key |
| Ordering.NameLeReflexive | routes/folders.js:14 | the ascending name order is reflexive |
| Ordering.NameLeTotal | routes/folders.js:14 | any two names are comparable in the ascending name order |
| Ordering.NameLeAntisymmetric | routes/folders.js:14 | names ordered both ways are equal |
| Ordering.NameLeTransitive | routes/folders.js:14 | the ascending name order is transitive |
| Ordering.NamePosition | routes/folders.js:14 | the insertion point is within the sequence or at its end; every name before it is not at or above the new name (strictly smaller, by totality), and the name at it, if any, is at or above the new name; on a sorted sequence this is the first place the name can go |
| Ordering.RecencyPosition | routes/notes.js:21 | the insertion point is within the sequence or at its end; every note before it was updated strictly later, and the note at it, if any, was updated no later; on a newest-first sequence this is the first place the note can go |
| Ordering.InsertByNameSorted | routes/tags.js:15 | inserting at that point keeps a name-sorted listing sorted |
| Ordering.InsertByRecencySorted | routes/notes.js:21 | inserting at that point keeps a newest-first listing sorted |
| Ordering.ListByName | routes/folders.js:14 | the listing holds every record of the collection exactly once, nothing else, in ascending order of name |
| Ordering.ListByRecency | routes/notes.js:21 | the listing holds every given note exactly once, nothing else, newest `updatedAt` first |
| Ordering.SortedListingUnique | models/folder.js:6 | with unique names, any two name-sorted listings of a collection are equal, so GET /folders and GET /tags have one answer |
| Cascade.Pull | routes/tags.js:134 | `$pull: { tags: id }` on one array: the id is gone from the result, which is no longer than the input and holds only values of the input |
| Cascade.PullAppend | routes/tags.js:134 | `$pull` works element by element: it distributes over concatenation |
| Cascade.PullMembers | routes/tags.js:132-136 | after the pull the id no longer occurs and every other tag id still does |
| Cascade.PullCounts | routes/tags.js:132-136 | the pull removes every occurrence of the id and keeps every other occurrence (multiset) |
| Cascade.PullKeepsOrder | routes/tags.js:132-136 | the remaining tag ids keep their relative order (a subsequence of the original) |
| Cascade.PullAbsent | routes/tags.js:132-136 | a tag list without the id is left unchanged |
| Cascade.PullIdempotent | routes/tags.js:132-136 | pulling the same id twice is the same as pulling it once |
| Cascade.PullFromNote | routes/tags.js:132-136 | the pull changes only a note's `tags`, and the id is gone from them |
| Cascade.PullFromAll | routes/tags.js:132-136 | the bulk update with filter `{}` and `multi: true` touches every note, keeps the set of notes, and leaves no note holding the id |
| Cascade.PullFromAllIdempotent | routes/tags.js:130-137 | running the cascade a second time for the same id leaves the notes unchanged |
| Cascade.PullFromEach | routes/tags.js:132-136 | the note-by-note loop computes the bulk update and counts exactly the notes that held the id |
| Db.InsertKeepsValid | models/folder.js:6-10 | inserting under a fresh id with an unused non-empty name and the current time keeps names required and unique and timestamps ordered |
| Db.RenameKeepsValid | models/folder.js:6-10 | renaming to a name no other record carries keeps names unique and timestamps ordered |
| Db.RemoveKeepsValid | models/folder.js:6 | removing a record keeps the collection's invariants |
| Db.Store.constructor | models/folder.js:5-10 | an empty store satisfies the schema invariants |
| Db.Store.Create | models/folder.js:5-10 | `create`: a fault or an empty name is a rejection; a name already in use is the duplicate-key rejection; otherwise exactly the new record, stamped now, is added and nothing else changes |
| Db.Store.SetName | routes/folders.js:100 | `findByIdAndUpdate` with `$set: {name}`: a cast error for a malformed id, nothing for a missing id, the duplicate-key rejection for a name another record has, otherwise only that record's name and updatedAt change and the updated record is returned |
| Db.Store.Remove | routes/folders.js:129 | `findByIdAndRemove`: afterwards no record has the id; resolves to the removed record or to nothing |
| Db.Store.FindNote | routes/notes.js:39 | `findById` on notes: a cast error for a malformed id, then the storage fault if there is one; it succeeds exactly when neither applies, with the note under the id or nothing |
| Db.Store.CreateNote | routes/notes.js:65 | `Note.create({title, content})` adds exactly one note with those fields, no folder, no tags, stamped now |
| Db.Store.SetNote | routes/notes.js:91 | `$set: {title, content}` changes only the targeted note's title, content and updatedAt |
| Db.Store.RemoveNote | routes/notes.js:110 | `findByIdAndRemove` on notes: afterwards no note has the id |
| Db.Store.PullTag | routes/tags.js:132-136 | the bulk `$pull` rewrites every note's tags and nothing else, and resolves to the matched and modified counts; a cast error changes nothing, and a failure part-way leaves the notes already written pulled and the rest as they were, since the multi-document update is not atomic |
| FoldersRoutes.List | routes/folders.js:12-26 | GET /folders answers 200 with every folder exactly once, in ascending order of name, or forwards the storage error |
| FoldersRoutes.Get | routes/folders.js:29-50 | an invalid id answers 400 "The `id` is not valid"; otherwise the folder with 200, or `next()` when there is none |
| FoldersRoutes.Post | routes/folders.js:53-79 | missing name: 400 and no change; duplicate name: 400 "The folder name already exists" and no change; other errors forwarded; otherwise 201, Location originalUrl/id, and exactly one folder added with the body's name alone |
| FoldersRoutes.Put | routes/folders.js:82-116 | name checked before id; a missing folder falls through to `next()`; duplicate name: 400 with the folder message; otherwise only that folder's name changes and it is answered with 200 |
| FoldersRoutes.Delete | routes/folders.js:119-136 | an invalid id answers 400 with no change; otherwise 204 whether or not the folder existed, no folder has the id, and notes are untouched |
| TagsRoutes.List | routes/tags.js:13-27 | GET /tags answers 200 with every tag exactly once, in ascending order of name |
| TagsRoutes.Get | routes/tags.js:30-51 | an invalid id answers 400 "The `id` is not valid"; otherwise the tag with 200, or `next()` |
| TagsRoutes.Post | routes/tags.js:54-80 | missing name: 400; duplicate name: 400 "The tag name already exists"; otherwise 201 with Location originalUrl/id and exactly one tag added |
| TagsRoutes.Put | routes/tags.js:83-117 | name checked before id; duplicate name: 400 with the tag message; otherwise only that tag's name changes |
| TagsRoutes.Delete | routes/tags.js:120-148 | an invalid id answers 400 with no change; otherwise the tag is gone, and, whether or not it existed, every note loses the id from its tags and the answer is 200 with the write result; a failure of the second step leaves the tag removed and each note either pulled (those written before the failure) or as it was |
| NotesRoutes.FilterFor | routes/notes.js:14-19 | the filter restricts to title-or-content matches exactly when `searchTerm` is truthy, and uses that term |
| NotesRoutes.Selects | routes/notes.js:16-18 | the empty filter `{}` passes every note; the `$or` of two `$regex` conditions passes a note whose title the term matches, and a note without `content` only then |
| NotesRoutes.Selected | routes/notes.js:21 | `Note.find(filter)` returns stored notes unchanged under their ids, and with `{}` all of them |
| NotesRoutes.SearchSelects | routes/notes.js:16-21 | without a search term every note is selected; with one, a note is selected exactly when the term matches its title or its content |
| NotesRoutes.List | routes/notes.js:12-33 | GET /notes answers 200 with exactly the selected notes, each once, newest updatedAt first |
| NotesRoutes.Get | routes/notes.js:36-51 | no id check: a malformed id yields the database's cast error, never 400 "The `id` is not valid"; otherwise the note with 200 or `next()` |
| NotesRoutes.Post | routes/notes.js:54-76 | missing title: 400 "Missing `title` in request body" and no change; storage errors forwarded untranslated; otherwise 201, Location originalUrl/id, one note with the body's title and content alone |
| NotesRoutes.Put | routes/notes.js:79-103 | missing title: 400 before any storage call; no id check; otherwise only the targeted note's title and content change, other notes unchanged |
| NotesRoutes.Delete | routes/notes.js:106-117 | no id check; 204 whether or not the note existed, and afterwards no note has the id |
| Scenarios.FolderIdZeroIsRejected | test/folders.js:109-117 | GET /api/folders/0 answers 400 "The `id` is not valid", and so does PUT /api/folders/0 with a name (test/folders.js:249-262); nothing changes |
| Scenarios.TagIdZeroIsRejected | test/tags.js:249-262 | PUT /api/tags/0 with a name answers 400 "The `id` is not valid", and so does GET /api/tags/0 (test/tags.js:109-117); nothing changes |
| Scenarios.PostWithoutName | test/folders.js:164-177 | a POST body without `name` answers 400 "Missing `name` in request body", not the duplicate-name message, and changes nothing; this is the body the duplicate-key test actually sends, because its `name` is read from a `Folder.findOne()` query, not a document |
| Scenarios.CreateReadDuplicate | test/folders.js:121-148 | a created folder has Location originalUrl/id and is returned by a subsequent GET under that id; a second POST of the same name then answers 400 "The folder name already exists", which follows from routes/folders.js:72-78, not from a test |
| Scenarios.RenameToTakenName | test/folders.js:232-247 | renaming a folder to another folder's name answers 400 "The folder name already exists" and changes nothing |

## Left out

- Express itself is not modelled: routing, body parsing, the mechanics of `res.location`, `res.json` and `res.sendStatus`, and the server's final error handler. `next()` is the `Next` response, and `next(err)` is `Forward(err)`.
- `ObjectId.isValid` and `$regex` are foreign code. They stay abstract functions of the store, and the model assumes nothing about them beyond `"0"` being invalid and the id spelling below.
- The text of Mongoose's cast-error and validation messages is an arbitrary stand-in. Cast errors are checked before the `fault` parameter.
- The database's ObjectId cast is assumed to reject exactly the ids `Store.isValidId` rejects, since both apply the same ObjectId rule. The cast-error clauses of NotesRoutes.Get, NotesRoutes.Put and NotesRoutes.Delete rest on this.
- Ids are compared as strings. A valid id is assumed to be written as the database prints an ObjectId: 24 lowercase hex digits. `ObjectId.isValid` also accepts uppercase hex and any 12-character string, and the cast inside `findById`, `findByIdAndUpdate`, `findByIdAndRemove` and `$pull` maps such a spelling onto a stored `_id`. The model does not. For example, GET /folders/507F1F77BCF86CD799439011 finds the folder stored under `507f1f77bcf86cd799439011` in the source, but gives `Next` in the model.
- Id generation, the wall clock and storage failures are inputs. The connection, network errors and timeouts collapse into the `fault` parameter.
- models/tag.js and models/note.js are not part of this model. Tags are assumed to have the folder schema, which their duplicate-name message implies. Notes carry the fields the routes and the test data use.
- Db.Store.Create: requires a `newId` not already in the collection, because MongoDB generates a fresh ObjectId for every insert.
- Db.Store.SetName: requires a non-empty name. `findByIdAndUpdate` runs no validators, and both callers check the name before they call it.
- A request body, and the query string of GET /notes, is a map from field names to strings. JSON numbers, booleans, arrays and `null` in a body are not modelled. Neither is a repeated query parameter such as `?searchTerm=a&searchTerm=b`, which reaches routes/notes.js:14 as an array.
- The `else next()` branches after `find`, `create` and `findByIdAndUpdate` are kept only where they can be taken, in all three routers. For the notes routes these are routes/notes.js:23-27 and 67-71. A `find` always resolves to an array, and a `create` always resolves to the new document. The tag DELETE branch that answers 204 on a falsy write result cannot be taken either, because `Note.update` resolves to an object.
- Whether `res.json` applies the folder's `toObject` transform is not modelled. Response bodies carry the stored record, and `Documents.ToObject` is a separate function.
- Db.Store.PullTag: leaves every note's `updatedAt` alone and counts as modified only the notes that held the tag. That assumes a note schema without `timestamps`. Db.Store.CreateNote and Db.Store.SetNote assume the opposite and stamp notes, as the `updatedAt` sort at routes/notes.js:21 suggests. With `timestamps`, the bulk update would also stamp every matched note, and `modified` would equal `matched`. models/note.js is not part of this model, so neither reading can be confirmed. TagsRoutes.Delete returns this count in its 200 body, while routes/tags.js:139 itself only tests the result for truthiness.
- No write changes the version key `__v`.
- The gap between removing the tag and pulling it from notes is modelled as two sequential steps. A failure of the second step leaves the tag removed. Which notes the bulk update had already written when it failed is an input, `pulledBeforeFault`. Concurrent requests that interleave with those steps are not modelled.
- Among notes with equal `updatedAt`, the listing order is whatever the insertion produces. The contract promises only the descending order, as MongoDB does.
- The string order of `sort({ name: 'asc' })` is modelled as lexicographic order by character code. MongoDB collations are not modelled.
- scratch/queries.js and utils/seed-database.js are connection, seeding and printing scripts, and are not part of this model. The test files are used only as evidence for the scenarios.
