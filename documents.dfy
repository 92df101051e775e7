/** The stored records of the three collections, and the public shape a
    folder takes through its schema's `toObject` transform. */
module Documents {
  import opened Http

  /** A folder or a tag as the database stores it: `_id`, the version key
      `__v`, the required and unique `name`, and the two timestamps the
      schema option `timestamps` adds (times are ticks of the store's clock). */
  datatype Named = Named(id: Id, version: nat, name: string, createdAt: nat, updatedAt: nat)

  /** A note as the database stores it. */
  datatype Note = Note(
    id: Id,
    title: string,
    content: Option<string>,
    folderId: Option<Id>,
    tags: seq<Id>,
    createdAt: nat,
    updatedAt: nat)

  /** A field value of a plain JavaScript object produced from a document. */
  datatype Value = Str(s: string) | Time(t: nat) | Version(v: nat)

  type PlainObject = map<string, Value>

  /** The plain object a folder document converts to before the transform runs. */
  function DocumentFields(d: Named): PlainObject
  {
    map["_id" := Str(d.id), "__v" := Version(d.version), "name" := Str(d.name),
        "createdAt" := Time(d.createdAt), "updatedAt" := Time(d.updatedAt)]
  }

  /** The folder schema's `toObject` options, applied in order: `virtuals`
      adds `id`, `versionKey: false` drops `__v`, and the transform deletes `_id`. */
  function ToObject(d: Named): (ret: PlainObject)
    ensures ret.Keys == {"id", "name", "createdAt", "updatedAt"}
    ensures ret["id"] == Str(d.id)
    ensures ret["name"] == Str(d.name)
    ensures ret["createdAt"] == Time(d.createdAt) && ret["updatedAt"] == Time(d.updatedAt)
  {
    var withVirtuals := DocumentFields(d)["id" := Str(d.id)];
    var withoutVersion := withVirtuals - {"__v"};
    withoutVersion - {"_id"}
  }

  /** Reads a public folder object back; `None` when it lacks a field or has
      a field of the wrong kind. The version key cannot be recovered. */
  function FromObject(obj: PlainObject): (r: Option<Named>)
  {
    if "id" in obj && "name" in obj && "createdAt" in obj && "updatedAt" in obj
       && obj["id"].Str? && obj["name"].Str? && obj["createdAt"].Time? && obj["updatedAt"].Time?
    then Some(Named(obj["id"].s, 0, obj["name"].s, obj["createdAt"].t, obj["updatedAt"].t))
    else None
  }

  /** The public shape loses exactly the version key: reading it back gives
      the document with its version reset. */
  lemma FromObjectInvertsToObject(d: Named)
    ensures FromObject(ToObject(d)) == Some(d.(version := 0))
  {
  }

  /** Two folders have the same public shape if and only if they differ at
      most in their version key. */
  lemma ToObjectForgetsOnlyVersion(d1: Named, d2: Named)
    ensures ToObject(d1) == ToObject(d2) <==> d1.(version := 0) == d2.(version := 0)
  {
    if ToObject(d1) == ToObject(d2) {
      FromObjectInvertsToObject(d1);
      FromObjectInvertsToObject(d2);
    }
  }
}
