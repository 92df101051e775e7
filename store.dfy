/** The three collections as the routers see them through their models:
    the unique index on `name`, the `timestamps` option, the cast of an id
    to an ObjectId, and the write operations the routers call. */
module Db {
  import opened Http
  import opened Documents
  import opened Ordering
  import opened Cascade

  /** Folders and tags are stored alike; `Kind` says which collection. */
  datatype Kind = FolderKind | TagKind

  function Other(kind: Kind): Kind
  {
    if kind == FolderKind then TagKind else FolderKind
  }

  /** What `Note.update(..., { multi: true })` resolves to: how many notes
      matched the (empty) filter and how many it changed. */
  datatype WriteResult = WriteResult(matched: nat, modified: nat)

  /** The rejection of an insert or update that breaks the unique index on `name`. */
  const DuplicateKeyError := StorageError(Some(DuplicateKeyCode), "E11000 duplicate key error")

  /** The rejection of a folder or tag insert whose `name` fails the `required` validator. */
  const NameRequired := StorageError(None, "Path `name` is required.")

  /** The rejection of a query whose id cannot be cast to an ObjectId. */
  function CastError(id: Id): Error
  {
    StorageError(None, "Cast to ObjectId failed for value \"" + id + "\"")
  }

  /** Some record other than `except` already carries `name`. */
  predicate NameInUse(m: map<Id, Named>, name: string, except: Option<Id>)
  {
    exists k :: k in m && Some(k) != except && m[k].name == name
  }

  ghost predicate NamedCollectionValid(m: map<Id, Named>, clock: nat)
  {
    && KeyedById(m, NamedId)
    && (forall k :: k in m ==> m[k].name != "" && m[k].createdAt <= m[k].updatedAt < clock)
    && UniqueNames(m)
  }

  ghost predicate NotesValid(m: map<Id, Note>, clock: nat)
  {
    && KeyedById(m, NoteId)
    && (forall k :: k in m ==> m[k].createdAt <= m[k].updatedAt < clock)
  }

  lemma LaterClockKeepsValid(m: map<Id, Named>, notes: map<Id, Note>, clock: nat, later: nat)
    requires clock <= later
    ensures NamedCollectionValid(m, clock) ==> NamedCollectionValid(m, later)
    ensures NotesValid(notes, clock) ==> NotesValid(notes, later)
  {
  }

  /** Inserting a record under a fresh id with an unused, non-empty name and
      the current time keeps a collection valid. */
  lemma InsertKeepsValid(m: map<Id, Named>, doc: Named, clock: nat)
    requires NamedCollectionValid(m, clock)
    requires doc.id !in m && doc.name != "" && !NameInUse(m, doc.name, None)
    requires doc.createdAt == doc.updatedAt == clock
    ensures NamedCollectionValid(m[doc.id := doc], clock + 1)
  {
  }

  /** Renaming a record to a name no other record carries, stamped with the
      current time, keeps a collection valid. */
  lemma RenameKeepsValid(m: map<Id, Named>, id: Id, name: string, clock: nat)
    requires NamedCollectionValid(m, clock)
    requires id in m && name != "" && !NameInUse(m, name, Some(id))
    ensures NamedCollectionValid(m[id := m[id].(name := name, updatedAt := clock)], clock + 1)
  {
  }

  lemma RemoveKeepsValid(m: map<Id, Named>, id: Id, clock: nat)
    requires NamedCollectionValid(m, clock)
    ensures NamedCollectionValid(m - {id}, clock)
  {
  }

  class Store {
    var folders: map<Id, Named>
    var tags: map<Id, Named>
    var notes: map<Id, Note>
    /** Stamps `createdAt` and `updatedAt`; every stamping write advances it. */
    var clock: nat
    /** `mongoose.Types.ObjectId.isValid`. */
    const isValidId: Id -> bool
    /** Whether a `$regex` pattern (first) matches a string (second). */
    const matches: (string, string) -> bool

    ghost predicate Valid()
      reads this
    {
      && !isValidId("0")
      && NamedCollectionValid(folders, clock)
      && NamedCollectionValid(tags, clock)
      && NotesValid(notes, clock)
    }

    constructor (isValidId: Id -> bool, matches: (string, string) -> bool)
      requires !isValidId("0")
      ensures Valid()
      ensures this.isValidId == isValidId && this.matches == matches
      ensures folders == map[] && tags == map[] && notes == map[]
    {
      this.isValidId := isValidId;
      this.matches := matches;
      folders, tags, notes, clock := map[], map[], map[], 0;
    }

    function Collection(kind: Kind): map<Id, Named>
      reads this
    {
      if kind == FolderKind then folders else tags
    }

    /** `Folder.create` / `Tag.create` with a fresh generated `newId`, or the
        storage failure `fault`. */
    method Create(kind: Kind, name: string, newId: Id, fault: Option<Error>) returns (r: Result<Named>)
      requires Valid()
      requires newId !in Collection(kind)
      modifies this
      ensures Valid()
      ensures fault.Some? ==> r == Err(fault.value) && unchanged(this)
      ensures fault.None? && name == "" ==> r == Err(NameRequired) && unchanged(this)
      ensures fault.None? && name != "" && NameInUse(old(Collection(kind)), name, None) ==>
        r == Err(DuplicateKeyError) && unchanged(this)
      ensures fault.None? && name != "" && !NameInUse(old(Collection(kind)), name, None) ==>
        && r == Ok(Named(newId, 0, name, old(clock), old(clock)))
        && Collection(kind) == old(Collection(kind))[newId := r.value]
        && Collection(Other(kind)) == old(Collection(Other(kind)))
        && notes == old(notes)
        && clock == old(clock) + 1
    {
      if fault.Some? {
        return Err(fault.value);
      }
      if name == "" {
        return Err(NameRequired);
      }
      if NameInUse(Collection(kind), name, None) {
        return Err(DuplicateKeyError);
      }
      var doc := Named(newId, 0, name, clock, clock);
      InsertKeepsValid(Collection(kind), doc, clock);
      LaterClockKeepsValid(Collection(Other(kind)), notes, clock, clock + 1);
      if kind == FolderKind {
        folders := folders[newId := doc];
      } else {
        tags := tags[newId := doc];
      }
      clock := clock + 1;
      r := Ok(doc);
    }

    /** `findByIdAndUpdate(id, { $set: { name } }, { new: true })`. Update
        validators do not run, so it is the caller that keeps `name` non-empty. */
    method SetName(kind: Kind, id: Id, name: string, fault: Option<Error>) returns (r: Result<Option<Named>>)
      requires Valid()
      requires name != ""
      modifies this
      ensures Valid()
      ensures !isValidId(id) ==> r == Err(CastError(id)) && unchanged(this)
      ensures isValidId(id) && fault.Some? ==> r == Err(fault.value) && unchanged(this)
      ensures isValidId(id) && fault.None? && id !in old(Collection(kind)) ==> r == Ok(None) && unchanged(this)
      ensures isValidId(id) && fault.None? && id in old(Collection(kind)) && NameInUse(old(Collection(kind)), name, Some(id)) ==>
        r == Err(DuplicateKeyError) && unchanged(this)
      ensures isValidId(id) && fault.None? && id in old(Collection(kind)) && !NameInUse(old(Collection(kind)), name, Some(id)) ==>
        && r == Ok(Some(old(Collection(kind))[id].(name := name, updatedAt := old(clock))))
        && Collection(kind) == old(Collection(kind))[id := r.value.value]
        && Collection(Other(kind)) == old(Collection(Other(kind)))
        && notes == old(notes)
        && clock == old(clock) + 1
    {
      if !isValidId(id) {
        return Err(CastError(id));
      }
      if fault.Some? {
        return Err(fault.value);
      }
      if id !in Collection(kind) {
        return Ok(None);
      }
      if NameInUse(Collection(kind), name, Some(id)) {
        return Err(DuplicateKeyError);
      }
      var doc := Collection(kind)[id].(name := name, updatedAt := clock);
      RenameKeepsValid(Collection(kind), id, name, clock);
      LaterClockKeepsValid(Collection(Other(kind)), notes, clock, clock + 1);
      if kind == FolderKind {
        folders := folders[id := doc];
      } else {
        tags := tags[id := doc];
      }
      clock := clock + 1;
      r := Ok(Some(doc));
    }

    /** `findByIdAndRemove(id)`: resolves to the removed record, or to nothing. */
    method Remove(kind: Kind, id: Id, fault: Option<Error>) returns (r: Result<Option<Named>>)
      requires Valid()
      modifies this
      ensures Valid()
      ensures !isValidId(id) ==> r == Err(CastError(id)) && unchanged(this)
      ensures isValidId(id) && fault.Some? ==> r == Err(fault.value) && unchanged(this)
      ensures isValidId(id) && fault.None? ==>
        && r == Ok(if id in old(Collection(kind)) then Some(old(Collection(kind))[id]) else None)
        && Collection(kind) == old(Collection(kind)) - {id}
        && Collection(Other(kind)) == old(Collection(Other(kind)))
        && notes == old(notes)
        && clock == old(clock)
    {
      if !isValidId(id) {
        return Err(CastError(id));
      }
      if fault.Some? {
        return Err(fault.value);
      }
      r := Ok(if id in Collection(kind) then Some(Collection(kind)[id]) else None);
      RemoveKeepsValid(Collection(kind), id, clock);
      if kind == FolderKind {
        folders := folders - {id};
      } else {
        tags := tags - {id};
      }
    }

    /** `findById(id)` on the notes. */
    function FindNote(id: Id, fault: Option<Error>): (r: Result<Option<Note>>)
      reads this
      ensures !isValidId(id) ==> r == Err(CastError(id))
      ensures isValidId(id) && fault.Some? ==> r == Err(fault.value)
      ensures r.Ok? <==> isValidId(id) && fault.None?
      ensures r.Ok? ==> (r.value.Some? <==> id in notes)
      ensures r.Ok? && r.value.Some? ==> r.value.value == notes[id]
    {
      if !isValidId(id) then Err(CastError(id))
      else if fault.Some? then Err(fault.value)
      else if id in notes then Ok(Some(notes[id]))
      else Ok(None)
    }

    /** `Note.create({ title, content })` with a fresh generated `newId`. */
    method CreateNote(title: string, content: Option<string>, newId: Id, fault: Option<Error>) returns (r: Result<Note>)
      requires Valid()
      requires newId !in notes
      modifies this
      ensures Valid()
      ensures fault.Some? ==> r == Err(fault.value) && unchanged(this)
      ensures fault.None? ==>
        && r == Ok(Note(newId, title, content, None, [], old(clock), old(clock)))
        && notes == old(notes)[newId := r.value]
        && folders == old(folders) && tags == old(tags)
        && clock == old(clock) + 1
    {
      if fault.Some? {
        return Err(fault.value);
      }
      var n := Note(newId, title, content, None, [], clock, clock);
      notes := notes[newId := n];
      clock := clock + 1;
      r := Ok(n);
    }

    /** `Note.findByIdAndUpdate(id, { $set: { title, content } }, { new: true })`.
        An absent `content` is written as `null`. */
    method SetNote(id: Id, title: string, content: Option<string>, fault: Option<Error>) returns (r: Result<Option<Note>>)
      requires Valid()
      modifies this
      ensures Valid()
      ensures !isValidId(id) ==> r == Err(CastError(id)) && unchanged(this)
      ensures isValidId(id) && fault.Some? ==> r == Err(fault.value) && unchanged(this)
      ensures isValidId(id) && fault.None? && id !in old(notes) ==> r == Ok(None) && unchanged(this)
      ensures isValidId(id) && fault.None? && id in old(notes) ==>
        && r == Ok(Some(old(notes)[id].(title := title, content := content, updatedAt := old(clock))))
        && notes == old(notes)[id := r.value.value]
        && folders == old(folders) && tags == old(tags)
        && clock == old(clock) + 1
    {
      if !isValidId(id) {
        return Err(CastError(id));
      }
      if fault.Some? {
        return Err(fault.value);
      }
      if id !in notes {
        return Ok(None);
      }
      var n := notes[id].(title := title, content := content, updatedAt := clock);
      notes := notes[id := n];
      clock := clock + 1;
      r := Ok(Some(n));
    }

    /** `Note.findByIdAndRemove(id)`. */
    method RemoveNote(id: Id, fault: Option<Error>) returns (r: Result<Option<Note>>)
      requires Valid()
      modifies this
      ensures Valid()
      ensures !isValidId(id) ==> r == Err(CastError(id)) && unchanged(this)
      ensures isValidId(id) && fault.Some? ==> r == Err(fault.value) && unchanged(this)
      ensures isValidId(id) && fault.None? ==>
        && r == Ok(if id in old(notes) then Some(old(notes)[id]) else None)
        && notes == old(notes) - {id}
        && folders == old(folders) && tags == old(tags) && clock == old(clock)
    {
      if !isValidId(id) {
        return Err(CastError(id));
      }
      if fault.Some? {
        return Err(fault.value);
      }
      r := Ok(if id in notes then Some(notes[id]) else None);
      notes := notes - {id};
    }

    /** `Note.update({}, { $pull: { tags: id } }, { multi: true })`: every
        note is visited and loses each occurrence of `id` in `tags`. The
        update is not atomic: when it fails with `fault`, the notes under
        `written` have already been pulled and the others have not. */
    method PullTag(id: Id, fault: Option<Error>, written: set<Id>) returns (r: Result<WriteResult>)
      requires Valid()
      modifies this
      ensures Valid()
      ensures !isValidId(id) ==> r == Err(CastError(id)) && unchanged(this)
      ensures isValidId(id) && fault.Some? ==>
        && r == Err(fault.value)
        && notes.Keys == old(notes).Keys
        && (forall k :: k in notes ==> notes[k] == if k in written then PullFromNote(old(notes)[k], id) else old(notes)[k])
        && folders == old(folders) && tags == old(tags) && clock == old(clock)
      ensures isValidId(id) && fault.None? ==>
        && r == Ok(WriteResult(|old(notes)|, |Holding(old(notes), id)|))
        && notes == PullFromAll(old(notes), id)
        && folders == old(folders) && tags == old(tags) && clock == old(clock)
    {
      if !isValidId(id) {
        return Err(CastError(id));
      }
      if fault.Some? {
        notes := map k | k in notes :: if k in written then PullFromNote(notes[k], id) else notes[k];
        return Err(fault.value);
      }
      var pulled, modified := PullFromEach(notes, id);
      notes := pulled;
      r := Ok(WriteResult(|pulled|, modified));
    }
  }
}
