/** The `/tags` router: the folder router's five handlers over the tag
    collection, except that DELETE also pulls the tag from every note. */
module TagsRoutes {
  import opened Http
  import opened Documents
  import opened Ordering
  import opened Cascade
  import opened Db

  const NameExists := "The tag name already exists"

  /** GET /tags: every tag, in ascending order of name. */
  method List(store: Store, fault: Option<Error>) returns (resp: Response<seq<Named>>)
    requires store.Valid()
    ensures fault.Some? ==> resp == Forward(fault.value)
    ensures fault.None? ==>
      && resp.Sent? && resp.status == 200 && resp.location == None && resp.body.Some?
      && ListsNamed(resp.body.value, store.tags)
      && SortedByName(resp.body.value)
  {
    if fault.Some? {
      return Forward(fault.value);
    }
    var results := ListByName(store.tags);
    resp := Sent(200, Some(results), None);
  }

  /** GET /tags/:id. */
  method Get(store: Store, id: Id, fault: Option<Error>) returns (resp: Response<Named>)
    requires store.Valid()
    ensures !store.isValidId(id) ==> resp == Forward(InvalidId)
    ensures store.isValidId(id) && fault.Some? ==> resp == Forward(fault.value)
    ensures store.isValidId(id) && fault.None? && id in store.tags ==>
      resp == Sent(200, Some(store.tags[id]), None)
    ensures store.isValidId(id) && fault.None? && id !in store.tags ==> resp == Next
  {
    if !store.isValidId(id) {
      return Forward(InvalidId);
    }
    if fault.Some? {
      return Forward(fault.value);
    }
    if id in store.tags {
      resp := Sent(200, Some(store.tags[id]), None);
    } else {
      resp := Next;
    }
  }

  /** POST /tags: creates a tag from the body's `name` alone. */
  method Post(store: Store, originalUrl: string, body: Body, newId: Id, fault: Option<Error>)
    returns (resp: Response<Named>)
    requires store.Valid()
    requires newId !in store.tags
    modifies store
    ensures store.Valid()
    ensures !Truthy(Field(body, "name")) ==> resp == Forward(MissingName) && unchanged(store)
    ensures Truthy(Field(body, "name")) && fault.Some? ==>
      resp == Forward(TranslateDuplicate(fault.value, NameExists)) && unchanged(store)
    ensures Truthy(Field(body, "name")) && fault.None? && NameInUse(old(store.tags), body["name"], None) ==>
      resp == Forward(HttpError(400, NameExists)) && unchanged(store)
    ensures Truthy(Field(body, "name")) && fault.None? && !NameInUse(old(store.tags), body["name"], None) ==>
      var doc := Named(newId, 0, body["name"], old(store.clock), old(store.clock));
      && resp == Sent(201, Some(doc), Some(Location(originalUrl, newId)))
      && store.tags == old(store.tags)[newId := doc]
      && |store.tags| == |old(store.tags)| + 1
      && store.folders == old(store.folders) && store.notes == old(store.notes)
  {
    var name := Field(body, "name");
    var missing := CheckName(body);
    if missing.Some? {
      return Forward(missing.value);
    }
    var result := store.Create(TagKind, name.value, newId, fault);
    match result {
      case Ok(doc) =>
        resp := Sent(201, Some(doc), Some(Location(originalUrl, doc.id)));
      case Err(err) =>
        resp := Forward(TranslateDuplicate(err, NameExists));
    }
  }

  /** PUT /tags/:id: renames a tag; `name` is checked before the id. */
  method Put(store: Store, id: Id, body: Body, fault: Option<Error>) returns (resp: Response<Named>)
    requires store.Valid()
    modifies store
    ensures store.Valid()
    ensures CheckNameThenId(body, id, store.isValidId).Some? ==>
      resp == Forward(CheckNameThenId(body, id, store.isValidId).value) && unchanged(store)
    ensures CheckNameThenId(body, id, store.isValidId) == None && fault.Some? ==>
      resp == Forward(TranslateDuplicate(fault.value, NameExists)) && unchanged(store)
    ensures CheckNameThenId(body, id, store.isValidId) == None && fault.None? && id !in old(store.tags) ==>
      resp == Next && unchanged(store)
    ensures CheckNameThenId(body, id, store.isValidId) == None && fault.None? && id in old(store.tags)
            && NameInUse(old(store.tags), body["name"], Some(id)) ==>
      resp == Forward(HttpError(400, NameExists)) && unchanged(store)
    ensures CheckNameThenId(body, id, store.isValidId) == None && fault.None? && id in old(store.tags)
            && !NameInUse(old(store.tags), body["name"], Some(id)) ==>
      var doc := old(store.tags)[id].(name := body["name"], updatedAt := old(store.clock));
      && resp == Sent(200, Some(doc), None)
      && store.tags == old(store.tags)[id := doc]
      && store.folders == old(store.folders) && store.notes == old(store.notes)
  {
    var invalid := CheckNameThenId(body, id, store.isValidId);
    if invalid.Some? {
      return Forward(invalid.value);
    }
    var result := store.SetName(TagKind, id, body["name"], fault);
    match result {
      case Ok(Some(doc)) =>
        resp := Sent(200, Some(doc), None);
      case Ok(None) =>
        resp := Next;
      case Err(err) =>
        resp := Forward(TranslateDuplicate(err, NameExists));
    }
  }

  /** DELETE /tags/:id: removes the tag, then pulls its id from the `tags`
      of every note whether or not a tag was removed. The write result of the
      pull is always an object, so the response is 200 with it. A pull that
      fails has already written the notes in `pulledBeforeFault`. */
  method Delete(store: Store, id: Id, removeFault: Option<Error>, pullFault: Option<Error>, pulledBeforeFault: set<Id>)
    returns (resp: Response<WriteResult>)
    requires store.Valid()
    modifies store
    ensures store.Valid()
    ensures !store.isValidId(id) ==> resp == Forward(InvalidId) && unchanged(store)
    ensures store.isValidId(id) && removeFault.Some? ==> resp == Forward(removeFault.value) && unchanged(store)
    ensures store.isValidId(id) && removeFault.None? ==>
      && store.tags == old(store.tags) - {id}
      && store.folders == old(store.folders)
    ensures store.isValidId(id) && removeFault.None? && pullFault.Some? ==>
      && resp == Forward(pullFault.value)
      && store.notes.Keys == old(store.notes).Keys
      && (forall k :: k in store.notes ==>
            store.notes[k] == if k in pulledBeforeFault then PullFromNote(old(store.notes)[k], id) else old(store.notes)[k])
    ensures store.isValidId(id) && removeFault.None? && pullFault.None? ==>
      && resp == Sent(200, Some(WriteResult(|old(store.notes)|, |Holding(old(store.notes), id)|)), None)
      && store.notes == PullFromAll(old(store.notes), id)
  {
    if !store.isValidId(id) {
      return Forward(InvalidId);
    }
    var removed := store.Remove(TagKind, id, removeFault);
    if removed.Err? {
      return Forward(removed.error);
    }
    var pulled := store.PullTag(id, pullFault, pulledBeforeFault);
    match pulled {
      case Err(err) =>
        resp := Forward(err);
      case Ok(result) =>
        // `if (result) res.json(result) else res.sendStatus(204)`: a write
        // result is an object, and every object is truthy.
        resp := Sent(200, Some(result), None);
    }
  }
}
