/**
 * Submission of a finished application: the uploads are flattened into plain file
 * descriptions and the payload `{type, email, data}` is inserted into the `applications`
 * table. The database itself is not modelled: whether a client is configured and what the
 * insert answers are parameters.
 */
module SaveApplication {
  import opened Json
  import opened Text
  import opened Wrappers

  datatype AppType = Mentee | Mentor

  /** `String(x)`. How a number prints is a parameter: number formatting is not modelled. */
  function JsString(v: Value, numStr: real -> string): string
    decreases v
  {
    match v
    case Undefined => "undefined"
    case Null => "null"
    case Bool(b) => if b then "true" else "false"
    case Num(n) => numStr(n)
    case Str(s) => s
    case Arr(items) => JoinWith(seq(|items|, i requires 0 <= i < |items| =>
                         if items[i] == Undefined || items[i] == Null then "" else JsString(items[i], numStr)), ',')
    case Obj(_) => "[object Object]"
    case File(_, _, _) => "[object File]"
  }

  /** `x ?? d` */
  function Nullish(x: Value, d: Value): Value {
    if x == Undefined || x == Null then d else x
  }

  /** The `[key, value]` pairs `Object.entries` gives for an array: its indices, as decimal strings. */
  function ArrEntries(items: seq<Value>): map<string, Value> {
    if items == [] then map[]
    else ArrEntries(items[..|items| - 1])[NatToString(|items| - 1) := items[|items| - 1]]
  }

  /** `Object.entries(v)` as a map. */
  function Entries(v: Value): map<string, Value> {
    match v
    case Obj(fs) => fs
    case Arr(items) => ArrEntries(items)
    case _ => map[]
  }

  /** What one uploaded item becomes in the payload. */
  function SerializeItem(item: Value, numStr: real -> string): Value {
    if item.Str? then
      Obj(map["filename" := item])
    else if Truthy(item) && Truthy(Prop(item, "file")) then
      var file := Prop(item, "file");
      Obj(map["filename" := Get(file, "name"),
              "mime" := Or(Get(file, "type"), Str("application/octet-stream")),
              "size" := Or(Get(file, "size"), Num(0.0)),
              "status" := Or(Prop(item, "status"), Str("completed"))])
    else
      Obj(map["filename" := Str(JsString(Nullish(item, Str("")), numStr))])
  }

  /** One slot: its items serialised in order; a slot that is not an array becomes `[]`. */
  function SerializeSlot(v: Value, numStr: real -> string): (r: Value)
    ensures r.Arr? && |r.items| == (if v.Arr? then |v.items| else 0)
    ensures v.Arr? ==> forall i :: 0 <= i < |v.items| ==> r.items[i] == SerializeItem(v.items[i], numStr)
  {
    var arr := if v.Arr? then v.items else [];
    Arr(seq(|arr|, i requires 0 <= i < |arr| => SerializeItem(arr[i], numStr)))
  }

  /** Whether `serializeUploads` looks inside its argument: a truthy value of type "object"
      (a file is one, and having no own keys it gives `{}`). */
  predicate IsTruthyObject(v: Value) {
    Truthy(v) && (v.Obj? || v.Arr? || v.File?)
  }

  /** `serializeUploads(uploads)`, stated on values. */
  function SerializeUploads(uploads: Value, numStr: real -> string): Value {
    if !IsTruthyObject(uploads) then uploads
    else
      var es := Entries(uploads);
      Obj(map k | k in es :: SerializeSlot(es[k], numStr))
  }

  /** `serializeUploads`: the loop that fills `out` one entry at a time. */
  method SerializeUploadsLoop(uploads: Value, numStr: real -> string) returns (r: Value)
    ensures r == SerializeUploads(uploads, numStr)
  {
    if !IsTruthyObject(uploads) {
      return uploads;
    }
    var es := Entries(uploads);
    var out: map<string, Value> := map[];
    var todo := es.Keys;
    while todo != {}
      invariant todo <= es.Keys
      invariant out == map k | k in es.Keys - todo :: SerializeSlot(es[k], numStr)
      decreases |todo|
    {
      var k :| k in todo;
      out := out[k := SerializeSlot(es[k], numStr)];
      todo := todo - {k};
    }
    assert es.Keys - todo == es.Keys;
    r := Obj(out);
  }

  /** A falsy value, or one that is not an object, passes through untouched; an object keeps
      exactly its keys, each slot becomes an array as long as the slot's array (or empty). */
  lemma SerializeUploadsShape(uploads: Value, numStr: real -> string)
    ensures !IsTruthyObject(uploads) ==> SerializeUploads(uploads, numStr) == uploads
    ensures IsTruthyObject(uploads) ==>
      var r := SerializeUploads(uploads, numStr);
      r.Obj? && r.fields.Keys == Entries(uploads).Keys
      && forall k :: k in r.fields ==>
           r.fields[k].Arr? && |r.fields[k].items| == (if Entries(uploads)[k].Arr? then |Entries(uploads)[k].items| else 0)
  {
  }

  /** The three shapes an item takes. */
  lemma SerializeItemCases(item: Value, numStr: real -> string)
    ensures item.Str? ==> SerializeItem(item, numStr) == Obj(map["filename" := item])
    ensures !item.Str? && Truthy(Prop(item, "file")) ==>
      var r := SerializeItem(item, numStr);
      r.Obj? && r.fields.Keys == {"filename", "mime", "size", "status"}
      && r.fields["filename"] == Get(Prop(item, "file"), "name")
      && (Truthy(Get(Prop(item, "file"), "type")) ==> r.fields["mime"] == Get(Prop(item, "file"), "type"))
      && (!Truthy(Get(Prop(item, "file"), "type")) ==> r.fields["mime"] == Str("application/octet-stream"))
      && (!Truthy(Get(Prop(item, "file"), "size")) ==> r.fields["size"] == Num(0.0))
      && (!Truthy(Prop(item, "status")) ==> r.fields["status"] == Str("completed"))
    ensures item == Undefined || item == Null ==> SerializeItem(item, numStr) == Obj(map["filename" := Str("")])
  {
    if !item.Str? && Truthy(Prop(item, "file")) {
      assert Truthy(item);
    }
  }

  /** The entries of an array: index `i` under the key `String(i)`, and no other key. */
  lemma {:induction false} ArrEntriesAt(items: seq<Value>, i: nat)
    requires i < |items|
    ensures NatToString(i) in ArrEntries(items) && ArrEntries(items)[NatToString(i)] == items[i]
    decreases |items|
  {
    var n := |items| - 1;
    if i < n {
      assert items[..n][i] == items[i];
      ArrEntriesAt(items[..n], i);
      NatToStringInjective(i, n);
    }
  }

  lemma {:induction false} ArrEntriesKeys(items: seq<Value>, k: string)
    requires k in ArrEntries(items)
    ensures exists i :: 0 <= i < |items| && k == NatToString(i)
    decreases |items|
  {
    var n := |items| - 1;
    if k != NatToString(n) {
      ArrEntriesKeys(items[..n], k);
    }
  }

  /** `payload.email`: the applicant's e-mail, else the person's, else `null`. */
  function PayloadEmail(values: Value): (r: Value)
    ensures Truthy(r) || r == Null
  {
    Or(Or(Prop(Prop(values, "applicant"), "email"), Prop(Prop(values, "person"), "email")), Null)
  }

  lemma PayloadEmailChoice(values: Value)
    ensures Truthy(Prop(Prop(values, "applicant"), "email")) ==>
      PayloadEmail(values) == Prop(Prop(values, "applicant"), "email")
    ensures !Truthy(Prop(Prop(values, "applicant"), "email")) && Truthy(Prop(Prop(values, "person"), "email")) ==>
      PayloadEmail(values) == Prop(Prop(values, "person"), "email")
    ensures !Truthy(Prop(Prop(values, "applicant"), "email")) && !Truthy(Prop(Prop(values, "person"), "email")) ==>
      PayloadEmail(values) == Null
  {
  }

  datatype Payload = Payload(appType: AppType, email: Value, data: Value)

  /** `{type, email, data: {...values, uploads}}` */
  function MakePayload(appType: AppType, values: Value, numStr: real -> string): (p: Payload)
    ensures p.appType == appType && p.email == PayloadEmail(values) && p.data.Obj?
    ensures Prop(p.data, "uploads") == SerializeUploads(Prop(values, "uploads"), numStr)
    ensures forall k :: k != "uploads" ==> Prop(p.data, k) == Prop(values, k)
  {
    Payload(appType, PayloadEmail(values),
            Obj(FieldsOf(values)["uploads" := SerializeUploads(Prop(values, "uploads"), numStr)]))
  }

  /** How `saveApplication` ends: skipped (no client), resolved after an insert, or thrown. */
  datatype SaveOutcome =
    | Skipped
    | Inserted(payload: Payload)
    | Thrown(payload: Payload, error: Value)

  /** `saveApplication(appType, values)`: `client` says whether a database client is configured,
      `insertError` is the `error` the insert reports, and only a truthy one is thrown. The
      best-effort table creation is ignored by the source whatever it does, and so is left out. */
  function Save(appType: AppType, values: Value, client: bool, insertError: Option<Value>,
                numStr: real -> string): (r: SaveOutcome)
    ensures !client <==> r.Skipped?
    ensures client && (insertError.None? || !Truthy(insertError.value)) ==> r == Inserted(MakePayload(appType, values, numStr))
    ensures client && insertError.Some? && Truthy(insertError.value) ==>
      r == Thrown(MakePayload(appType, values, numStr), insertError.value)
  {
    if !client then Skipped
    else
      var p := MakePayload(appType, values, numStr);
      match insertError
      case Some(e) => if Truthy(e) then Thrown(p, e) else Inserted(p)
      case None => Inserted(p)
  }
}
