/**
 * The zod schema language the step schemas are written in, as data, with its
 * acceptance predicate `Conforms` and the per-field error list the wizards show.
 *
 * zod's `.email()` and `.url()` checks are opaque: they are the two predicates of
 * a `Formats` value that every check is parameterised by.
 */
module Schema {
  import opened Json
  import opened Wrappers

  datatype StrCheck =
    | MinLen(n: nat, msg: string)      // .min(n, msg)
    | MaxLen(n: nat, msg: string)      // .max(n, msg)
    | EmailFormat(msg: string)         // .email(msg)
    | UrlFormat(msg: string)           // .url()

  datatype NumCheck =
    | AtLeast(bound: real, msg: string)  // .min(bound): inclusive
    | AtMost(bound: real, msg: string)   // .max(bound): inclusive

  datatype ArrCheck =
    | MinItems(n: nat, msg: string)    // .min(n, msg)
    | ExactItems(n: nat, msg: string)  // .length(n, msg)

  datatype Schema =
    | SString(strChecks: seq<StrCheck>)
    | SNumber(numChecks: seq<NumCheck>)
    | SBoolean
    | STrue(refineMsg: string)         // z.boolean().refine(v => v === true, msg)
    | SEnum(options: seq<string>)
    | SArray(item: Schema, arrChecks: seq<ArrCheck>)
    | SRecord(entry: Schema)           // z.record(z.string(), entry)
    | SObject(fields: seq<Field>)
    | SOptional(inner: Schema)
    | SOr(left: Schema, right: Schema)
    | SLiteral(lit: string)
    | SAny

  datatype Field = Field(key: string, schema: Schema)

  /** The opaque format checks of zod. */
  datatype Formats = Formats(isEmail: string -> bool, isUrl: string -> bool)

  /** One entry of the wizard's error list. */
  datatype FieldError = FieldError(field: string, message: string, step: int)

  predicate StrCheckOk(c: StrCheck, s: string, fmt: Formats) {
    match c
    case MinLen(n, _) => |s| >= n
    case MaxLen(n, _) => |s| <= n
    case EmailFormat(_) => fmt.isEmail(s)
    case UrlFormat(_) => fmt.isUrl(s)
  }

  predicate NumCheckOk(c: NumCheck, x: real) {
    match c
    case AtLeast(b, _) => x >= b
    case AtMost(b, _) => x <= b
  }

  predicate ArrCheckOk(c: ArrCheck, len: nat) {
    match c
    case MinItems(n, _) => len >= n
    case ExactItems(n, _) => len == n
  }

  /** `schema.safeParse(v).success` */
  predicate Conforms(sc: Schema, v: Value, fmt: Formats)
    decreases sc
  {
    match sc
    case SString(cs) => v.Str? && forall i :: 0 <= i < |cs| ==> StrCheckOk(cs[i], v.s, fmt)
    case SNumber(cs) => v.Num? && forall i :: 0 <= i < |cs| ==> NumCheckOk(cs[i], v.n)
    case SBoolean => v.Bool?
    case STrue(_) => v == Bool(true)
    case SEnum(opts) => v.Str? && v.s in opts
    case SArray(item, cs) =>
      v.Arr?
      && (forall i :: 0 <= i < |cs| ==> ArrCheckOk(cs[i], |v.items|))
      && forall j :: 0 <= j < |v.items| ==> Conforms(item, v.items[j], fmt)
    case SRecord(entry) => v.Obj? && forall k :: k in v.fields ==> Conforms(entry, v.fields[k], fmt)
    case SObject(fs) => v.Obj? && forall i :: 0 <= i < |fs| ==> FieldConforms(fs[i], v, fmt)
    case SOptional(inner) => v == Undefined || Conforms(inner, v, fmt)
    case SOr(l, r) => Conforms(l, v, fmt) || Conforms(r, v, fmt)
    case SLiteral(lit) => v == Str(lit)
    case SAny => true
  }

  /** The value under one declared key conforms to that key's schema. */
  predicate FieldConforms(f: Field, v: Value, fmt: Formats)
    decreases f
  {
    Conforms(f.schema, Prop(v, f.key), fmt)
  }

  function TypeName(v: Value): string {
    match v
    case Undefined => "undefined"
    case Null => "null"
    case Bool(_) => "boolean"
    case Num(_) => "number"
    case Str(_) => "string"
    case Arr(_) => "array"
    case Obj(_) => "object"
    case File(_, _, _) => "object"
  }

  /** `'a' | 'b' | ...` as zod prints enum options. */
  function JoinValues(opts: seq<string>): string {
    if opts == [] then ""
    else if |opts| == 1 then "'" + opts[0] + "'"
    else "'" + opts[0] + "' | " + JoinValues(opts[1..])
  }

  /** The value has the JavaScript type the schema expects at its root. */
  predicate TypeMatches(sc: Schema, v: Value) {
    match sc
    case SString(_) => v.Str?
    case SNumber(_) => v.Num?
    case SBoolean => v.Bool?
    case STrue(_) => v.Bool?
    case SEnum(_) => v.Str?
    case SArray(_, _) => v.Arr?
    case SRecord(_) => v.Obj?
    case SObject(_) => v.Obj?
    case _ => true
  }

  function ExpectedName(sc: Schema): string {
    match sc
    case SString(_) => "string"
    case SNumber(_) => "number"
    case SEnum(opts) => JoinValues(opts)
    case SArray(_, _) => "array"
    case SRecord(_) => "object"
    case SObject(_) => "object"
    case _ => "boolean"
  }

  function FirstStrFailure(cs: seq<StrCheck>, s: string, fmt: Formats): Option<string> {
    if cs == [] then None
    else if !StrCheckOk(cs[0], s, fmt) then Some(cs[0].msg)
    else FirstStrFailure(cs[1..], s, fmt)
  }

  function FirstNumFailure(cs: seq<NumCheck>, x: real): Option<string> {
    if cs == [] then None
    else if !NumCheckOk(cs[0], x) then Some(cs[0].msg)
    else FirstNumFailure(cs[1..], x)
  }

  function FirstArrFailure(cs: seq<ArrCheck>, len: nat): Option<string> {
    if cs == [] then None
    else if !ArrCheckOk(cs[0], len) then Some(cs[0].msg)
    else FirstArrFailure(cs[1..], len)
  }

  /**
   * The message of the first issue zod reports AT the root of the value (not inside it),
   * or None when the root itself is fine. This is the `message` react-hook-form attaches
   * to the field's error entry; a failure nested deeper leaves it without one.
   */
  function RootMessage(sc: Schema, v: Value, fmt: Formats): Option<string> {
    match sc
    case SOptional(inner) => if v == Undefined then None else RootMessage(inner, v, fmt)
    case SAny => None
    case SOr(l, r) => if Conforms(l, v, fmt) || Conforms(r, v, fmt) then None else Some("Invalid input")
    case SLiteral(lit) => if v == Str(lit) then None else Some("Invalid literal value, expected \"" + lit + "\"")
    case _ =>
      if v == Undefined then Some("Required")
      else if !TypeMatches(sc, v) then Some("Expected " + ExpectedName(sc) + ", received " + TypeName(v))
      else LeafMessage(sc, v, fmt)
  }

  /** The first failing check of a value that already has the expected type. */
  function LeafMessage(sc: Schema, v: Value, fmt: Formats): Option<string>
    requires TypeMatches(sc, v)
  {
    match sc
    case SString(cs) => FirstStrFailure(cs, v.s, fmt)
    case SNumber(cs) => FirstNumFailure(cs, v.n)
    case STrue(msg) => if v.b then None else Some(msg)
    case SEnum(opts) =>
      if v.s in opts then None
      else Some("Invalid enum value. Expected " + JoinValues(opts) + ", received '" + v.s + "'")
    case SArray(_, cs) => FirstArrFailure(cs, |v.items|)
    case _ => None
  }

  /** `error?.message || 'Invalid field'` */
  function MessageOrDefault(m: Option<string>): string {
    if m.Some? && m.value != "" then m.value else "Invalid field"
  }

  /**
   * The wizard's error list for one step: one entry per top-level field of the step
   * schema whose value fails, in schema order, tagged with the step.
   */
  function StepErrors(fs: seq<Field>, doc: Value, step: int, fmt: Formats): seq<FieldError> {
    if fs == [] then []
    else
      var rest := StepErrors(fs[1..], doc, step, fmt);
      if FieldConforms(fs[0], doc, fmt) then rest
      else [FieldError(fs[0].key, MessageOrDefault(RootMessage(fs[0].schema, Prop(doc, fs[0].key), fmt)), step)] + rest
  }

  /** A message at the root is only ever reported for a value that fails. */
  lemma {:induction false} RootMessageMeansFailure(sc: Schema, v: Value, fmt: Formats)
    requires RootMessage(sc, v, fmt).Some?
    ensures !Conforms(sc, v, fmt)
    decreases sc
  {
    match sc
    case SOptional(inner) => RootMessageMeansFailure(inner, v, fmt);
    case SString(cs) =>
      if v.Str? { FirstStrFailureFails(cs, v.s, fmt); }
    case SNumber(cs) =>
      if v.Num? { FirstNumFailureFails(cs, v.n); }
    case SArray(_, cs) =>
      if v.Arr? { FirstArrFailureFails(cs, |v.items|); }
    case _ =>
  }

  lemma {:induction false} FirstStrFailureFails(cs: seq<StrCheck>, s: string, fmt: Formats)
    ensures FirstStrFailure(cs, s, fmt).Some? <==> exists i :: 0 <= i < |cs| && !StrCheckOk(cs[i], s, fmt)
  {
    if cs != [] {
      FirstStrFailureFails(cs[1..], s, fmt);
      if !StrCheckOk(cs[0], s, fmt) {
      } else if exists i :: 0 <= i < |cs| && !StrCheckOk(cs[i], s, fmt) {
        var i :| 0 <= i < |cs| && !StrCheckOk(cs[i], s, fmt);
        assert cs[1..][i - 1] == cs[i];
      }
    }
  }

  lemma {:induction false} FirstNumFailureFails(cs: seq<NumCheck>, x: real)
    ensures FirstNumFailure(cs, x).Some? <==> exists i :: 0 <= i < |cs| && !NumCheckOk(cs[i], x)
  {
    if cs != [] {
      FirstNumFailureFails(cs[1..], x);
      if !NumCheckOk(cs[0], x) {
      } else if exists i :: 0 <= i < |cs| && !NumCheckOk(cs[i], x) {
        var i :| 0 <= i < |cs| && !NumCheckOk(cs[i], x);
        assert cs[1..][i - 1] == cs[i];
      }
    }
  }

  lemma {:induction false} FirstArrFailureFails(cs: seq<ArrCheck>, len: nat)
    ensures FirstArrFailure(cs, len).Some? <==> exists i :: 0 <= i < |cs| && !ArrCheckOk(cs[i], len)
  {
    if cs != [] {
      FirstArrFailureFails(cs[1..], len);
      if !ArrCheckOk(cs[0], len) {
      } else if exists i :: 0 <= i < |cs| && !ArrCheckOk(cs[i], len) {
        var i :| 0 <= i < |cs| && !ArrCheckOk(cs[i], len);
        assert cs[1..][i - 1] == cs[i];
      }
    }
  }

  /** A scalar value that fails always carries a message of its own, never 'Invalid field'. */
  lemma ScalarFailureHasMessage(cs: seq<StrCheck>, v: Value, fmt: Formats)
    requires !Conforms(SString(cs), v, fmt)
    ensures RootMessage(SString(cs), v, fmt).Some?
  {
    if v.Str? {
      FirstStrFailureFails(cs, v.s, fmt);
    }
  }

  /** Every entry of a step's error list names a failing field of the step, with its step and message. */
  lemma {:induction false} StepErrorsSound(fs: seq<Field>, doc: Value, step: int, fmt: Formats, e: FieldError)
    requires e in StepErrors(fs, doc, step, fmt)
    ensures e.step == step
    ensures exists i :: 0 <= i < |fs| && fs[i].key == e.field && !FieldConforms(fs[i], doc, fmt)
              && e.message == MessageOrDefault(RootMessage(fs[i].schema, Prop(doc, fs[i].key), fmt))
  {
    var rest := StepErrors(fs[1..], doc, step, fmt);
    if e in rest {
      StepErrorsSound(fs[1..], doc, step, fmt, e);
      var i :| 0 <= i < |fs[1..]| && fs[1..][i].key == e.field && !FieldConforms(fs[1..][i], doc, fmt)
               && e.message == MessageOrDefault(RootMessage(fs[1..][i].schema, Prop(doc, fs[1..][i].key), fmt));
      assert fs[i + 1] == fs[1..][i];
    } else {
      assert 0 < |fs| && fs[0].key == e.field;
    }
  }

  /** Every failing field of the step has an entry in the error list. */
  lemma {:induction false} StepErrorsComplete(fs: seq<Field>, doc: Value, step: int, fmt: Formats, i: int)
    requires 0 <= i < |fs| && !FieldConforms(fs[i], doc, fmt)
    ensures exists e :: e in StepErrors(fs, doc, step, fmt) && e.field == fs[i].key
  {
    var e0 := FieldError(fs[0].key, MessageOrDefault(RootMessage(fs[0].schema, Prop(doc, fs[0].key), fmt)), step);
    if i == 0 {
      assert e0 in StepErrors(fs, doc, step, fmt);
    } else {
      assert fs[1..][i - 1] == fs[i];
      StepErrorsComplete(fs[1..], doc, step, fmt, i - 1);
      var e :| e in StepErrors(fs[1..], doc, step, fmt) && e.field == fs[i].key;
      assert e in StepErrors(fs, doc, step, fmt);
    }
  }

  /** The error list is empty exactly when the whole step object validates. */
  lemma {:induction false} StepErrorsEmptyIffValid(fs: seq<Field>, doc: Value, step: int, fmt: Formats)
    requires doc.Obj?
    ensures StepErrors(fs, doc, step, fmt) == [] <==> Conforms(SObject(fs), doc, fmt)
  {
    if fs != [] {
      StepErrorsEmptyIffValid(fs[1..], doc, step, fmt);
      if Conforms(SObject(fs), doc, fmt) {
        assert FieldConforms(fs[0], doc, fmt);
        forall i | 0 <= i < |fs[1..]| ensures FieldConforms(fs[1..][i], doc, fmt) {
          assert fs[1..][i] == fs[i + 1];
        }
      } else {
        var i :| 0 <= i < |fs| && !FieldConforms(fs[i], doc, fmt);
        if i > 0 && FieldConforms(fs[0], doc, fmt) {
          assert fs[1..][i - 1] == fs[i];
          assert !Conforms(SObject(fs[1..]), doc, fmt);
        }
      }
    }
  }

  /** A declared field of a conforming object conforms to its own schema. */
  lemma FieldOf(fs: seq<Field>, doc: Value, fmt: Formats, k: string, s: Schema)
    requires Conforms(SObject(fs), doc, fmt) && Field(k, s) in fs
    ensures Conforms(s, Prop(doc, k), fmt)
  {
    var i :| 0 <= i < |fs| && fs[i] == Field(k, s);
    assert FieldConforms(fs[i], doc, fmt);
  }

  /** The field at index `i` of a conforming object conforms to its own schema. */
  lemma FieldAt(fs: seq<Field>, doc: Value, fmt: Formats, i: nat)
    requires Conforms(SObject(fs), doc, fmt) && i < |fs|
    ensures Conforms(fs[i].schema, Prop(doc, fs[i].key), fmt)
  {
    assert FieldConforms(fs[i], doc, fmt);
  }

  /** A one-field object schema judges the object holding just that key by the key's value. */
  lemma OneFieldMeans(k: string, sc: Schema, v: Value, fmt: Formats)
    ensures Conforms(SObject([Field(k, sc)]), Obj(map[k := v]), fmt) <==> Conforms(sc, v, fmt)
  {
    assert Prop(Obj(map[k := v]), k) == v;
    assert [Field(k, sc)][0] == Field(k, sc);
  }

  /** An object schema sees only its declared keys: two objects that agree on them get the same verdict. */
  lemma SameKeysSameVerdict(fs: seq<Field>, v: Value, w: Value, fmt: Formats)
    requires v.Obj? && w.Obj?
    requires forall i :: 0 <= i < |fs| ==> Prop(v, fs[i].key) == Prop(w, fs[i].key)
    ensures Conforms(SObject(fs), v, fmt) <==> Conforms(SObject(fs), w, fmt)
  {
    assert forall i :: 0 <= i < |fs| ==> (FieldConforms(fs[i], v, fmt) <==> FieldConforms(fs[i], w, fmt));
  }

  /** The empty object schema (the summary step) accepts every object. */
  lemma EmptyObjectAcceptsEveryObject(doc: Value, fmt: Formats)
    requires doc.Obj?
    ensures Conforms(SObject([]), doc, fmt)
  {
  }

  /** A string schema with one check passes exactly the strings meeting that check. */
  lemma OneStrCheck(c: StrCheck, v: Value, fmt: Formats)
    ensures Conforms(SString([c]), v, fmt) <==> v.Str? && StrCheckOk(c, v.s, fmt)
  {
    if Conforms(SString([c]), v, fmt) {
      assert StrCheckOk([c][0], v.s, fmt);
    }
  }

  /** A string schema with two checks passes exactly the strings meeting both. */
  lemma TwoStrChecks(c: StrCheck, d: StrCheck, v: Value, fmt: Formats)
    ensures Conforms(SString([c, d]), v, fmt) <==> v.Str? && StrCheckOk(c, v.s, fmt) && StrCheckOk(d, v.s, fmt)
  {
    if Conforms(SString([c, d]), v, fmt) {
      assert StrCheckOk([c, d][0], v.s, fmt) && StrCheckOk([c, d][1], v.s, fmt);
    }
  }

  /** A number schema with one bound passes exactly the numbers within it. */
  lemma OneNumCheck(c: NumCheck, v: Value, fmt: Formats)
    ensures Conforms(SNumber([c]), v, fmt) <==> v.Num? && NumCheckOk(c, v.n)
  {
    if Conforms(SNumber([c]), v, fmt) {
      assert NumCheckOk([c][0], v.n);
    }
  }

  /** A number schema with two bounds passes exactly the numbers within both. */
  lemma TwoNumChecks(c: NumCheck, d: NumCheck, v: Value, fmt: Formats)
    ensures Conforms(SNumber([c, d]), v, fmt) <==> v.Num? && NumCheckOk(c, v.n) && NumCheckOk(d, v.n)
  {
    if Conforms(SNumber([c, d]), v, fmt) {
      assert NumCheckOk([c, d][0], v.n) && NumCheckOk([c, d][1], v.n);
    }
  }

  /** An array schema with one length check passes exactly the arrays meeting it whose items all pass. */
  lemma OneArrCheck(item: Schema, c: ArrCheck, v: Value, fmt: Formats)
    ensures Conforms(SArray(item, [c]), v, fmt) <==>
      v.Arr? && ArrCheckOk(c, |v.items|) && forall j :: 0 <= j < |v.items| ==> Conforms(item, v.items[j], fmt)
  {
    if Conforms(SArray(item, [c]), v, fmt) {
      assert ArrCheckOk([c][0], |v.items|);
    }
  }

  /** The value is a string of at least `n` characters. */
  predicate StrAtLeast(v: Value, n: nat) { v.Str? && |v.s| >= n }

  /** The value is a string whose length lies in [a, b]. */
  predicate StrBetween(v: Value, a: nat, b: nat) { v.Str? && a <= |v.s| <= b }

  /** The value is a number in [a, b]. */
  predicate NumBetween(v: Value, a: real, b: real) { v.Num? && a <= v.n <= b }

  // ---- reading one field of a conforming object ----

  lemma ReadMinLen(fs: seq<Field>, v: Value, fmt: Formats, i: nat, n: nat, msg: string)
    requires Conforms(SObject(fs), v, fmt) && i < |fs| && fs[i].schema == SString([MinLen(n, msg)])
    ensures StrAtLeast(Prop(v, fs[i].key), n)
  {
    FieldAt(fs, v, fmt, i);
    OneStrCheck(MinLen(n, msg), Prop(v, fs[i].key), fmt);
  }

  lemma ReadLenRange(fs: seq<Field>, v: Value, fmt: Formats, i: nat, a: nat, b: nat, ma: string, mb: string)
    requires Conforms(SObject(fs), v, fmt) && i < |fs| && fs[i].schema == SString([MinLen(a, ma), MaxLen(b, mb)])
    ensures StrBetween(Prop(v, fs[i].key), a, b)
  {
    FieldAt(fs, v, fmt, i);
    TwoStrChecks(MinLen(a, ma), MaxLen(b, mb), Prop(v, fs[i].key), fmt);
  }

  lemma ReadStrCheck(fs: seq<Field>, v: Value, fmt: Formats, i: nat, c: StrCheck)
    requires Conforms(SObject(fs), v, fmt) && i < |fs| && fs[i].schema == SString([c])
    ensures Prop(v, fs[i].key).Str? && StrCheckOk(c, Prop(v, fs[i].key).s, fmt)
  {
    FieldAt(fs, v, fmt, i);
    OneStrCheck(c, Prop(v, fs[i].key), fmt);
  }

  lemma ReadNumMin(fs: seq<Field>, v: Value, fmt: Formats, i: nat, x: real, msg: string)
    requires Conforms(SObject(fs), v, fmt) && i < |fs| && fs[i].schema == SNumber([AtLeast(x, msg)])
    ensures Prop(v, fs[i].key).Num? && Prop(v, fs[i].key).n >= x
  {
    FieldAt(fs, v, fmt, i);
    OneNumCheck(AtLeast(x, msg), Prop(v, fs[i].key), fmt);
  }

  lemma ReadNumRange(fs: seq<Field>, v: Value, fmt: Formats, i: nat, a: real, b: real, ma: string, mb: string)
    requires Conforms(SObject(fs), v, fmt) && i < |fs| && fs[i].schema == SNumber([AtLeast(a, ma), AtMost(b, mb)])
    ensures NumBetween(Prop(v, fs[i].key), a, b)
  {
    FieldAt(fs, v, fmt, i);
    TwoNumChecks(AtLeast(a, ma), AtMost(b, mb), Prop(v, fs[i].key), fmt);
  }

  lemma ReadArr(fs: seq<Field>, v: Value, fmt: Formats, i: nat, item: Schema, c: ArrCheck)
    requires Conforms(SObject(fs), v, fmt) && i < |fs| && fs[i].schema == SArray(item, [c])
    ensures Prop(v, fs[i].key).Arr? && ArrCheckOk(c, |Prop(v, fs[i].key).items|)
    ensures forall j :: 0 <= j < |Prop(v, fs[i].key).items| ==> Conforms(item, Prop(v, fs[i].key).items[j], fmt)
  {
    FieldAt(fs, v, fmt, i);
    OneArrCheck(item, c, Prop(v, fs[i].key), fmt);
  }
}
