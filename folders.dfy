/** The `/folders` router: list, read, create, rename and delete folders. */
module FoldersRoutes {
  import opened Http
  import opened Documents
  import opened Ordering
  import opened Db

  const NameExists := "The folder name already exists"

  /** GET /folders: every folder, in ascending order of name. */
  method List(store: Store, fault: Option<Error>) returns (resp: Response<seq<Named>>)
    requires store.Valid()
    ensures fault.Some? ==> resp == Forward(fault.value)
    ensures fault.None? ==>
      && resp.Sent? && resp.status == 200 && resp.location == None && resp.body.Some?
      && ListsNamed(resp.body.value, store.folders)
      && SortedByName(resp.body.value)
  {
    if fault.Some? {
      return Forward(fault.value);
    }
    var results := ListByName(store.folders);
    resp := Sent(200, Some(results), None);
  }

  /** GET /folders/:id. */
  method Get(store: Store, id: Id, fault: Option<Error>) returns (resp: Response<Named>)
    requires store.Valid()
    ensures !store.isValidId(id) ==> resp == Forward(InvalidId)
    ensures store.isValidId(id) && fault.Some? ==> resp == Forward(fault.value)
    ensures store.isValidId(id) && fault.None? && id in store.folders ==>
      resp == Sent(200, Some(store.folders[id]), None)
    ensures store.isValidId(id) && fault.None? && id !in store.folders ==> resp == Next
  {
    if !store.isValidId(id) {
      return Forward(InvalidId);
    }
    if fault.Some? {
      return Forward(fault.value);
    }
    if id in store.folders {
      resp := Sent(200, Some(store.folders[id]), None);
    } else {
      resp := Next;
    }
  }

  /** POST /folders: creates a folder from the body's `name` alone. */
  method Post(store: Store, originalUrl: string, body: Body, newId: Id, fault: Option<Error>)
    returns (resp: Response<Named>)
    requires store.Valid()
    requires newId !in store.folders
    modifies store
    ensures store.Valid()
    ensures !Truthy(Field(body, "name")) ==> resp == Forward(MissingName) && unchanged(store)
    ensures Truthy(Field(body, "name")) && fault.Some? ==>
      resp == Forward(TranslateDuplicate(fault.value, NameExists)) && unchanged(store)
    ensures Truthy(Field(body, "name")) && fault.None? && NameInUse(old(store.folders), body["name"], None) ==>
      resp == Forward(HttpError(400, NameExists)) && unchanged(store)
    ensures Truthy(Field(body, "name")) && fault.None? && !NameInUse(old(store.folders), body["name"], None) ==>
      var doc := Named(newId, 0, body["name"], old(store.clock), old(store.clock));
      && resp == Sent(201, Some(doc), Some(Location(originalUrl, newId)))
      && store.folders == old(store.folders)[newId := doc]
      && |store.folders| == |old(store.folders)| + 1
      && store.tags == old(store.tags) && store.notes == old(store.notes)
  {
    var name := Field(body, "name");
    var missing := CheckName(body);
    if missing.Some? {
      return Forward(missing.value);
    }
    var result := store.Create(FolderKind, name.value, newId, fault);
    match result {
      case Ok(doc) =>
        resp := Sent(201, Some(doc), Some(Location(originalUrl, doc.id)));
      case Err(err) =>
        resp := Forward(TranslateDuplicate(err, NameExists));
    }
  }

  /** PUT /folders/:id: renames a folder; `name` is checked before the id. */
  method Put(store: Store, id: Id, body: Body, fault: Option<Error>) returns (resp: Response<Named>)
    requires store.Valid()
    modifies store
    ensures store.Valid()
    ensures CheckNameThenId(body, id, store.isValidId).Some? ==>
      resp == Forward(CheckNameThenId(body, id, store.isValidId).value) && unchanged(store)
    ensures CheckNameThenId(body, id, store.isValidId) == None && fault.Some? ==>
      resp == Forward(TranslateDuplicate(fault.value, NameExists)) && unchanged(store)
    ensures CheckNameThenId(body, id, store.isValidId) == None && fault.None? && id !in old(store.folders) ==>
      resp == Next && unchanged(store)
    ensures CheckNameThenId(body, id, store.isValidId) == None && fault.None? && id in old(store.folders)
            && NameInUse(old(store.folders), body["name"], Some(id)) ==>
      resp == Forward(HttpError(400, NameExists)) && unchanged(store)
    ensures CheckNameThenId(body, id, store.isValidId) == None && fault.None? && id in old(store.folders)
            && !NameInUse(old(store.folders), body["name"], Some(id)) ==>
      var doc := old(store.folders)[id].(name := body["name"], updatedAt := old(store.clock));
      && resp == Sent(200, Some(doc), None)
      && store.folders == old(store.folders)[id := doc]
      && store.tags == old(store.tags) && store.notes == old(store.notes)
  {
    var invalid := CheckNameThenId(body, id, store.isValidId);
    if invalid.Some? {
      return Forward(invalid.value);
    }
    var result := store.SetName(FolderKind, id, body["name"], fault);
    match result {
      case Ok(Some(doc)) =>
        resp := Sent(200, Some(doc), None);
      case Ok(None) =>
        resp := Next;
      case Err(err) =>
        resp := Forward(TranslateDuplicate(err, NameExists));
    }
  }

  /** DELETE /folders/:id: 204 whether or not the folder existed; notes that
      refer to it are left alone. */
  method Delete(store: Store, id: Id, fault: Option<Error>) returns (resp: Response<Named>)
    requires store.Valid()
    modifies store
    ensures store.Valid()
    ensures !store.isValidId(id) ==> resp == Forward(InvalidId) && unchanged(store)
    ensures store.isValidId(id) && fault.Some? ==> resp == Forward(fault.value) && unchanged(store)
    ensures store.isValidId(id) && fault.None? ==>
      && resp == Sent(204, None, None)
      && store.folders == old(store.folders) - {id}
      && id !in store.folders
      && store.tags == old(store.tags) && store.notes == old(store.notes)
  {
    if !store.isValidId(id) {
      return Forward(InvalidId);
    }
    var result := store.Remove(FolderKind, id, fault);
    if result.Err? {
      return Forward(result.error);
    }
    resp := Sent(204, None, None);
  }
}
