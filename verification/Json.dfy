/** Raw conversation documents and the hash that identifies their content. */
module Json {
  import opened Prelude

  /** A parsed JSON value. Objects are maps, so two documents that differ only in
      key order are the same value, as they are to the canonical form that is hashed. */
  datatype Json =
    | Null
    | Bool(b: bool)
    | Int(n: int)
    | Float(x: real)
    | Str(s: string)
    | Arr(items: seq<Json>)
    | Obj(fields: map<string, Json>)

  /** The content hash. SHA-256 over the canonical form is taken to be free of
      collisions, so a digest is as good as the document it was computed from. */
  datatype Digest = Sha256(doc: Json)

  /** `raw.get(name)`: absent keys read as null. */
  function Get(raw: Json, name: string): Json {
    if raw.Obj? && name in raw.fields then raw.fields[name] else Null
  }

  predicate NonEmptyString(v: Json) {
    v.Str? && v.s != ""
  }

  /** `(tenant_id, conversation_id)`, the primary key of all three tables. */
  datatype Key = Key(tenant: string, conversation: string)

  /** The identity a document carries, if it carries a routable one. */
  function Identity(raw: Json): Option<Key> {
    var tenant, conversation := Get(raw, "tenant_id"), Get(raw, "conversation_id");
    if NonEmptyString(tenant) && NonEmptyString(conversation) then
      Some(Key(tenant.s, conversation.s))
    else
      None
  }

  /** The two identity fields, each a string with something in it, and nothing else. */
  lemma IdentityIs(raw: Json, key: Key)
    ensures Identity(raw) == Some(key)
            <==> && raw.Obj? && "tenant_id" in raw.fields && "conversation_id" in raw.fields
                 && raw.fields["tenant_id"] == Str(key.tenant) && key.tenant != ""
                 && raw.fields["conversation_id"] == Str(key.conversation) && key.conversation != ""
  {
  }
}
