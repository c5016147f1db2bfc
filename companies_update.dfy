/**
 * `POST /api/companies/update`: a whitelisted partial update of one row of
 * the `companies` table. The environment variables are a parameter, the
 * store's answer to the update is a parameter, and so is the message of
 * the error JavaScript throws for a body that is not JSON or is `null`.
 */
module CompaniesUpdate {
  import opened Wrappers
  import opened JsonValue

  /** `NEXT_PUBLIC_SUPABASE_URL` and `SUPABASE_SERVICE_ROLE_KEY`, `None` when unset. */
  datatype Env = Env(url: Option<string>, serviceKey: Option<string>)

  /** What the store answers to the update. */
  datatype StoreAnswer = StoreOk | StoreError(message: string, code: string)

  /** The update the route sends: the row's id and the patch. */
  datatype Write = Write(id: Json, patch: map<string, Json>)

  datatype Reply = Reply(status: int, body: Json)

  /** The fields a client may set. */
  const Allowed: seq<string> := ["arr", "amount_invested", "ownership_percent", "last_round_date", "last_round_note"]

  function ErrorReply(status: int, message: string): Reply
  {
    Reply(status, JObj(map["error" := JStr(message)]))
  }

  /** An environment variable that is unset or empty fails `if (!url)`. */
  predicate Set(v: Option<string>)
  {
    v.Some? && v.value != ""
  }

  /** `typeof update !== "object"` fails for objects and arrays (`null` is already falsy). */
  predicate IsObject(v: Json)
  {
    v.JObj? || v.JArr?
  }

  /** The body destructured, with a truthy `id` and an object (or array) `update`. */
  predicate Accepted(body: Option<Json>)
  {
    && body.Some? && body.value != JNull
    && TruthyOpt(Get(body.value, "id")) && TruthyOpt(Get(body.value, "update"))
    && IsObject(Get(body.value, "update").value)
  }

  /** The whitelisted fields of `update` that are defined, with their values (`null` included). */
  function SafeUpdate(update: Json): (r: map<string, Json>)
    ensures forall k :: k in r <==> k in Allowed && Get(update, k).Some?
    ensures forall k :: k in r ==> r[k] == Get(update, k).value
  {
    Picked(update, Allowed)
  }

  /** The defined fields of `update` among `keys`. */
  function Picked(update: Json, keys: seq<string>): map<string, Json>
  {
    map k | k in keys && Get(update, k).Some? :: Get(update, k).value
  }

  /** `Picked` over one more key: that key added when the field is defined. */
  lemma PickedSnoc(update: Json, keys: seq<string>, key: string)
    ensures Picked(update, keys + [key]) ==
      if Get(update, key).Some? then Picked(update, keys)[key := Get(update, key).value] else Picked(update, keys)
  {
  }

  /** The five guarded copies into `safeUpdate`. */
  method Whitelist(update: Json) returns (safeUpdate: map<string, Json>)
    ensures safeUpdate == SafeUpdate(update)
  {
    safeUpdate := map[];
    assert safeUpdate == Picked(update, []);
    if Get(update, "arr").Some? {
      safeUpdate := safeUpdate["arr" := Get(update, "arr").value];
    }
    PickedSnoc(update, [], "arr");
    assert [] + ["arr"] == Allowed[..1];
    assert safeUpdate == Picked(update, Allowed[..1]);
    if Get(update, "amount_invested").Some? {
      safeUpdate := safeUpdate["amount_invested" := Get(update, "amount_invested").value];
    }
    PickedSnoc(update, Allowed[..1], "amount_invested");
    assert Allowed[..1] + ["amount_invested"] == Allowed[..2];
    assert safeUpdate == Picked(update, Allowed[..2]);
    if Get(update, "ownership_percent").Some? {
      safeUpdate := safeUpdate["ownership_percent" := Get(update, "ownership_percent").value];
    }
    PickedSnoc(update, Allowed[..2], "ownership_percent");
    assert Allowed[..2] + ["ownership_percent"] == Allowed[..3];
    assert safeUpdate == Picked(update, Allowed[..3]);
    if Get(update, "last_round_date").Some? {
      safeUpdate := safeUpdate["last_round_date" := Get(update, "last_round_date").value];
    }
    PickedSnoc(update, Allowed[..3], "last_round_date");
    assert Allowed[..3] + ["last_round_date"] == Allowed[..4];
    assert safeUpdate == Picked(update, Allowed[..4]);
    if Get(update, "last_round_note").Some? {
      safeUpdate := safeUpdate["last_round_note" := Get(update, "last_round_note").value];
    }
    PickedSnoc(update, Allowed[..4], "last_round_note");
    assert Allowed[..4] + ["last_round_note"] == Allowed[..5];
    assert safeUpdate == Picked(update, Allowed[..5]);
    assert Allowed[..5] == Allowed;
  }

  /** Only whitelisted keys can be written, and nothing is written from an array, which has none of them. */
  lemma SafeUpdateWhitelisted(update: Json)
    ensures SafeUpdate(update).Keys <= set k | k in Allowed
    ensures !update.JObj? ==> SafeUpdate(update) == map[]
    ensures update.JObj? && (forall k :: k in update.fields ==> k in Allowed) ==> SafeUpdate(update) == update.fields
  {
    if update.JObj? && (forall k :: k in update.fields ==> k in Allowed) {
      assert SafeUpdate(update).Keys == update.fields.Keys;
    }
  }

  /**
   * The handler. `body` is the parsed request, `None` when it is not JSON;
   * `thrown` is the message of the error raised then, or when the body is
   * `null` and cannot be destructured.
   */
  method Post(body: Option<Json>, env: Env, answer: StoreAnswer, thrown: string) returns (reply: Reply, write: Option<Write>)
    ensures body.None? || body == Some(JNull) ==> reply == ErrorReply(500, thrown) && write.None?
    ensures body.Some? && body.value != JNull && !Accepted(body) ==> reply == ErrorReply(400, "Invalid request") && write.None?
    ensures write.Some? ==>
      && Accepted(body) && Set(env.url) && Set(env.serviceKey)
      && write.value == Write(Get(body.value, "id").value, SafeUpdate(Get(body.value, "update").value))
      && write.value.patch != map[]
      && reply == (match answer
                   case StoreOk => Reply(200, JObj(map["ok" := JBool(true)]))
                   case StoreError(message, code) => Reply(500, JObj(map["error" := JStr(message), "code" := JStr(code)])))
    ensures write.None? && Accepted(body) ==>
      reply == (if !Set(env.url) then ErrorReply(500, "Missing NEXT_PUBLIC_SUPABASE_URL")
                else if !Set(env.serviceKey) then ErrorReply(500, "Missing SUPABASE_SERVICE_ROLE_KEY")
                else ErrorReply(400, "No valid fields"))
    ensures write.None? && Accepted(body) && Set(env.url) && Set(env.serviceKey) ==> SafeUpdate(Get(body.value, "update").value) == map[]
  {
    if body.None? || body.value == JNull {
      return ErrorReply(500, thrown), None;
    }
    var id := Get(body.value, "id");
    var update := Get(body.value, "update");
    if !TruthyOpt(id) || !TruthyOpt(update) || !IsObject(update.value) {
      return ErrorReply(400, "Invalid request"), None;
    }
    if !Set(env.url) {
      return ErrorReply(500, "Missing NEXT_PUBLIC_SUPABASE_URL"), None;
    }
    if !Set(env.serviceKey) {
      return ErrorReply(500, "Missing SUPABASE_SERVICE_ROLE_KEY"), None;
    }
    var safeUpdate := Whitelist(update.value);
    if |safeUpdate| == 0 {
      return ErrorReply(400, "No valid fields"), None;
    }
    write := Some(Write(id.value, safeUpdate));
    match answer
    case StoreOk =>
      reply := Reply(200, JObj(map["ok" := JBool(true)]));
    case StoreError(message, code) =>
      reply := Reply(500, JObj(map["error" := JStr(message), "code" := JStr(code)]));
  }
}
