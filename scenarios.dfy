/** Request sequences that the routers' contracts settle, each stated as the
    responses it yields. */
module Scenarios {
  import opened Http
  import opened Documents
  import opened Db
  import FoldersRoutes
  import TagsRoutes

  /** `"0"` is not an ObjectId: GET and PUT on `/folders/0` answer 400 with
      "The `id` is not valid", even when the PUT carries a name, and change
      nothing. */
  method FolderIdZeroIsRejected(store: Store) returns (get: Response<Named>, put: Response<Named>)
    requires store.Valid()
    modifies store
    ensures get == Forward(InvalidId)
    ensures put == Forward(InvalidId)
    ensures unchanged(store)
  {
    get := FoldersRoutes.Get(store, "0", None);
    put := FoldersRoutes.Put(store, "0", map["name" := "best folder"], None);
  }

  /** The same two requests on `/tags/0`. */
  method TagIdZeroIsRejected(store: Store) returns (get: Response<Named>, put: Response<Named>)
    requires store.Valid()
    modifies store
    ensures get == Forward(InvalidId)
    ensures put == Forward(InvalidId)
    ensures unchanged(store)
  {
    get := TagsRoutes.Get(store, "0", None);
    put := TagsRoutes.Put(store, "0", map["name" := "best tag"], None);
  }

  /** A POST with an empty body (`{ name: undefined }` serialises to `{}`) is
      refused by the missing-name check before the database is reached,
      whatever names the collection already holds. */
  method PostWithoutName(store: Store, newId: Id) returns (resp: Response<Named>)
    requires store.Valid()
    requires newId !in store.folders
    modifies store
    ensures resp == Forward(MissingName)
    ensures resp != Forward(HttpError(400, FoldersRoutes.NameExists))
    ensures unchanged(store)
  {
    resp := FoldersRoutes.Post(store, "/api/folders", map[], newId, None);
  }

  /** A folder created by POST is what GET then returns under the id its
      `Location` ends with; a second POST of the same name is refused. */
  method CreateReadDuplicate(store: Store, name: string, newId: Id, otherId: Id)
    returns (created: Response<Named>, read: Response<Named>, again: Response<Named>)
    requires store.Valid()
    requires name != "" && !NameInUse(store.folders, name, None)
    requires newId !in store.folders && store.isValidId(newId)
    requires otherId !in store.folders && otherId != newId
    modifies store
    ensures created.Sent? && created.status == 201 && created.body.Some?
    ensures created.body.value.name == name && created.body.value.id == newId
    ensures created.location == Some(Location("/api/folders", newId))
    ensures read == Sent(200, created.body, None)
    ensures again == Forward(HttpError(400, FoldersRoutes.NameExists))
    ensures store.folders == old(store.folders)[newId := created.body.value]
  {
    var body := map["name" := name];
    created := FoldersRoutes.Post(store, "/api/folders", body, newId, None);
    read := FoldersRoutes.Get(store, newId, None);
    assert store.folders[newId].name == name;
    again := FoldersRoutes.Post(store, "/api/folders", body, otherId, None);
  }

  /** Renaming a folder to the name of another one is refused with the
      folder message, and the collection stays as it was. */
  method RenameToTakenName(store: Store, id: Id, otherId: Id)
    returns (resp: Response<Named>)
    requires store.Valid()
    requires id in store.folders && otherId in store.folders && id != otherId
    requires store.isValidId(id)
    modifies store
    ensures resp == Forward(HttpError(400, FoldersRoutes.NameExists))
    ensures unchanged(store)
  {
    var taken := store.folders[otherId].name;
    assert store.folders[otherId].id == otherId;
    resp := FoldersRoutes.Put(store, id, map["name" := taken], None);
  }
}
