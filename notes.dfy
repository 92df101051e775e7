/** The `/notes` router. Unlike the folder and tag routers it does not check
    the shape of a path id (a malformed id reaches the database, whose cast
    rejects it) and it translates no storage error. */
module NotesRoutes {
  import opened Http
  import opened Documents
  import opened Ordering
  import opened Db

  /** The query document passed to `Note.find`. */
  datatype Filter =
    | Everything                  // `{}`
    | TitleOrContent(term: string) // `{ $or: [{ title: { $regex: term } }, { content: { $regex: term } }] }`

  /** The filter of GET /notes: a search on title or content when the query
      carries a truthy `searchTerm`, otherwise no restriction. */
  function FilterFor(query: Body): (f: Filter)
    ensures f == Everything <==> !Truthy(Field(query, "searchTerm"))
    ensures f.TitleOrContent? ==> f.term == query["searchTerm"]
  {
    var searchTerm := Field(query, "searchTerm");
    if Truthy(searchTerm) then TitleOrContent(searchTerm.value) else Everything
  }

  /** Whether the database selects note `n` under filter `f`; a `$regex`
      condition on an absent `content` selects nothing. */
  predicate Selects(f: Filter, n: Note, matches: (string, string) -> bool)
    ensures f == Everything ==> Selects(f, n, matches)
    ensures f.TitleOrContent? && n.content == None ==> (Selects(f, n, matches) <==> matches(f.term, n.title))
    ensures f.TitleOrContent? && matches(f.term, n.title) ==> Selects(f, n, matches)
  {
    match f
    case Everything => true
    case TitleOrContent(term) => matches(term, n.title) || (n.content.Some? && matches(term, n.content.value))
  }

  /** The notes `Note.find(f)` returns, under their ids. */
  function Selected(notes: map<Id, Note>, f: Filter, matches: (string, string) -> bool): (r: map<Id, Note>)
    ensures r.Keys <= notes.Keys
    ensures forall k :: k in r ==> r[k] == notes[k]
    ensures f == Everything ==> r == notes
  {
    map k | k in notes && Selects(f, notes[k], matches) :: notes[k]
  }

  /** What a listing of notes holds, stated on the query: every note when
      there is no search term, and otherwise exactly the notes whose title or
      content the term matches. */
  lemma SearchSelects(notes: map<Id, Note>, query: Body, matches: (string, string) -> bool, k: Id)
    ensures !Truthy(Field(query, "searchTerm")) ==> Selected(notes, FilterFor(query), matches) == notes
    ensures Truthy(Field(query, "searchTerm")) ==>
      (k in Selected(notes, FilterFor(query), matches) <==>
        k in notes &&
        (matches(query["searchTerm"], notes[k].title) ||
         (notes[k].content.Some? && matches(query["searchTerm"], notes[k].content.value))))
  {
  }

  /** GET /notes: the selected notes, most recently updated first. */
  method List(store: Store, query: Body, fault: Option<Error>) returns (resp: Response<seq<Note>>)
    requires store.Valid()
    ensures fault.Some? ==> resp == Forward(fault.value)
    ensures fault.None? ==>
      && resp.Sent? && resp.status == 200 && resp.location == None && resp.body.Some?
      && ListsNotes(resp.body.value, Selected(store.notes, FilterFor(query), store.matches))
      && SortedByRecency(resp.body.value)
  {
    var filter := FilterFor(query);
    if fault.Some? {
      return Forward(fault.value);
    }
    var results := ListByRecency(Selected(store.notes, filter, store.matches));
    resp := Sent(200, Some(results), None);
  }

  /** GET /notes/:id: the id goes to the database unchecked. */
  method Get(store: Store, id: Id, fault: Option<Error>) returns (resp: Response<Note>)
    requires store.Valid()
    ensures fault != Some(InvalidId) ==> resp != Forward(InvalidId)
    ensures !store.isValidId(id) ==> resp == Forward(CastError(id))
    ensures store.isValidId(id) && fault.Some? ==> resp == Forward(fault.value)
    ensures store.isValidId(id) && fault.None? && id in store.notes ==>
      resp == Sent(200, Some(store.notes[id]), None)
    ensures store.isValidId(id) && fault.None? && id !in store.notes ==> resp == Next
  {
    match store.FindNote(id, fault) {
      case Ok(Some(n)) =>
        resp := Sent(200, Some(n), None);
      case Ok(None) =>
        resp := Next;
      case Err(err) =>
        resp := Forward(err);
    }
  }

  /** POST /notes: creates a note from the body's `title` and `content` alone. */
  method Post(store: Store, originalUrl: string, body: Body, newId: Id, fault: Option<Error>)
    returns (resp: Response<Note>)
    requires store.Valid()
    requires newId !in store.notes
    modifies store
    ensures store.Valid()
    ensures !Truthy(Field(body, "title")) ==> resp == Forward(MissingTitle) && unchanged(store)
    ensures Truthy(Field(body, "title")) && fault.Some? ==> resp == Forward(fault.value) && unchanged(store)
    ensures Truthy(Field(body, "title")) && fault.None? ==>
      var n := Note(newId, body["title"], Field(body, "content"), None, [], old(store.clock), old(store.clock));
      && resp == Sent(201, Some(n), Some(Location(originalUrl, newId)))
      && store.notes == old(store.notes)[newId := n]
      && store.folders == old(store.folders) && store.tags == old(store.tags)
  {
    var title := Field(body, "title");
    var content := Field(body, "content");
    if !Truthy(title) {
      return Forward(MissingTitle);
    }
    var result := store.CreateNote(title.value, content, newId, fault);
    match result {
      case Ok(n) =>
        resp := Sent(201, Some(n), Some(Location(originalUrl, n.id)));
      case Err(err) =>
        resp := Forward(err);
    }
  }

  /** PUT /notes/:id: sets `title` and `content` of one note; the title is
      checked, the id is not. */
  method Put(store: Store, id: Id, body: Body, fault: Option<Error>) returns (resp: Response<Note>)
    requires store.Valid()
    modifies store
    ensures store.Valid()
    ensures fault != Some(InvalidId) ==> resp != Forward(InvalidId)
    ensures !Truthy(Field(body, "title")) ==> resp == Forward(MissingTitle) && unchanged(store)
    ensures Truthy(Field(body, "title")) && !store.isValidId(id) ==> resp == Forward(CastError(id)) && unchanged(store)
    ensures Truthy(Field(body, "title")) && store.isValidId(id) && fault.Some? ==>
      resp == Forward(fault.value) && unchanged(store)
    ensures Truthy(Field(body, "title")) && store.isValidId(id) && fault.None? && id !in old(store.notes) ==>
      resp == Next && unchanged(store)
    ensures Truthy(Field(body, "title")) && store.isValidId(id) && fault.None? && id in old(store.notes) ==>
      var n := old(store.notes)[id].(title := body["title"], content := Field(body, "content"), updatedAt := old(store.clock));
      && resp == Sent(200, Some(n), None)
      && store.notes == old(store.notes)[id := n]
      && store.folders == old(store.folders) && store.tags == old(store.tags)
  {
    var title := Field(body, "title");
    var content := Field(body, "content");
    if !Truthy(title) {
      return Forward(MissingTitle);
    }
    var result := store.SetNote(id, title.value, content, fault);
    match result {
      case Ok(Some(n)) =>
        resp := Sent(200, Some(n), None);
      case Ok(None) =>
        resp := Next;
      case Err(err) =>
        resp := Forward(err);
    }
  }

  /** DELETE /notes/:id: 204 whether or not the note existed. */
  method Delete(store: Store, id: Id, fault: Option<Error>) returns (resp: Response<Note>)
    requires store.Valid()
    modifies store
    ensures store.Valid()
    ensures fault != Some(InvalidId) ==> resp != Forward(InvalidId)
    ensures !store.isValidId(id) ==> resp == Forward(CastError(id)) && unchanged(store)
    ensures store.isValidId(id) && fault.Some? ==> resp == Forward(fault.value) && unchanged(store)
    ensures store.isValidId(id) && fault.None? ==>
      && resp == Sent(204, None, None)
      && store.notes == old(store.notes) - {id}
      && id !in store.notes
      && store.folders == old(store.folders) && store.tags == old(store.tags)
  {
    var result := store.RemoveNote(id, fault);
    if result.Err? {
      return Forward(result.error);
    }
    resp := Sent(204, None, None);
  }
}
