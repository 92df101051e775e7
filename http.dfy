/** Values shared by the three routers: request bodies, the errors a handler
    passes to `next`, and the response a handler produces. */
module Http {

  datatype Option<T> = None | Some(value: T)

  /** A storage identifier as it arrives in a path parameter. */
  type Id = string

  /** A parsed request body (or query string): field name to string value. */
  type Body = map<string, string>

  function Field(body: Body, key: string): Option<string>
  {
    if key in body then Some(body[key]) else None
  }

  /** JavaScript truthiness of a string field that may be absent:
      `undefined` and `""` are falsy. */
  predicate Truthy(v: Option<string>)
  {
    v.Some? && v.value != ""
  }

  /** What a handler hands to `next(err)`. */
  datatype Error =
    | HttpError(status: int, message: string)          // `new Error(...)` with `err.status` set by a route
    | StorageError(code: Option<int>, message: string) // a rejection raised by the database driver

  /** MongoDB's duplicate-key error code. */
  const DuplicateKeyCode := 11000

  const MissingName := HttpError(400, "Missing `name` in request body")
  const MissingTitle := HttpError(400, "Missing `title` in request body")
  const InvalidId := HttpError(400, "The `id` is not valid")

  predicate IsDuplicateKey(err: Error)
  {
    err.StorageError? && err.code == Some(DuplicateKeyCode)
  }

  datatype Result<T> = Ok(value: T) | Err(error: Error)

  /** The outcome of one handler. */
  datatype Response<B> =
    | Sent(status: int, body: Option<B>, location: Option<string>) // `res.json`, `res.status(..).json`, `res.sendStatus`
    | Next                                                        // `next()`: no response from this router
    | Forward(err: Error)                                         // `next(err)`

  /** The check shared by POST of folders and tags: a truthy `name` is required. */
  function CheckName(body: Body): (r: Option<Error>)
    ensures r == None <==> Truthy(Field(body, "name"))
    ensures r != None ==> r == Some(MissingName)
  {
    if !Truthy(Field(body, "name")) then Some(MissingName) else None
  }

  /** The checks of PUT on folders and tags: `name` first, then the path id. */
  function CheckNameThenId(body: Body, id: Id, isValidId: Id -> bool): (r: Option<Error>)
    ensures r == None <==> Truthy(Field(body, "name")) && isValidId(id)
    ensures !Truthy(Field(body, "name")) ==> r == Some(MissingName)
    ensures Truthy(Field(body, "name")) && !isValidId(id) ==> r == Some(InvalidId)
  {
    if CheckName(body).Some? then CheckName(body)
    else if !isValidId(id) then Some(InvalidId)
    else None
  }

  /** The `catch` of a folder or tag write: a duplicate-key rejection becomes
      a client error carrying `message`; every other error is passed on as it is. */
  function TranslateDuplicate(err: Error, message: string): (r: Error)
    ensures IsDuplicateKey(err) ==> r == HttpError(400, message)
    ensures !IsDuplicateKey(err) ==> r == err
  {
    if IsDuplicateKey(err) then HttpError(400, message) else err
  }

  /** The `Location` header of a create: the request's original URL, a slash, the new id. */
  function Location(originalUrl: string, id: Id): (r: string)
    ensures |r| == |originalUrl| + 1 + |id|
    ensures r[..|originalUrl|] == originalUrl
    ensures r[|originalUrl|] == '/'
    ensures r[|originalUrl| + 1..] == id
  {
    originalUrl + "/" + id
  }

  /** The id of a created resource can be read back from its `Location`. */
  lemma LocationNamesResource(originalUrl: string, id1: Id, id2: Id)
    ensures Location(originalUrl, id1) == Location(originalUrl, id2) <==> id1 == id2
  {
    if Location(originalUrl, id1) == Location(originalUrl, id2) {
      calc {
        id1;
        Location(originalUrl, id1)[|originalUrl| + 1..];
        Location(originalUrl, id2)[|originalUrl| + 1..];
        id2;
      }
    }
  }
}
