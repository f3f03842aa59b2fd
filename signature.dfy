/**
 * The signature step: the `SignatureField` component that builds the signature record, the
 * name the typed signature must match, and the page handler that stamps the record and stores
 * it in the form under `signature`.
 */
module Signature {
  import opened Json
  import opened Text
  import opened Form
  import Schema
  import MenteeSchema

  datatype Method = Typed | Drawn

  function MethodName(m: Method): string {
    match m
    case Typed => "typed"
    case Drawn => "drawn"
  }

  /** `updateSignature(updates)`: the current typed name and consent (defaulting to '' and false),
      the method of the field's tab state and a fresh timestamp, overridden by `updates`.
      Nothing else of the current record is carried over. */
  function UpdateSignature(current: Value, tab: Method, now: string, updates: map<string, Value>): (r: Value)
    ensures r.Obj? && r.fields.Keys == {"typedName", "consent", "method", "timestamp"} + updates.Keys
    ensures forall k :: k in updates ==> Prop(r, k) == updates[k]
    ensures "typedName" !in updates ==> Prop(r, "typedName") == Or(Prop(current, "typedName"), Str(""))
    ensures "consent" !in updates ==> Prop(r, "consent") == Or(Prop(current, "consent"), Bool(false))
    ensures "method" !in updates ==> Prop(r, "method") == Str(MethodName(tab))
    ensures "timestamp" !in updates ==> Prop(r, "timestamp") == Str(now)
    ensures "drawn" !in updates ==> Prop(r, "drawn") == Undefined
    ensures "ip" !in updates ==> Prop(r, "ip") == Undefined
  {
    Obj(map["typedName" := Or(Prop(current, "typedName"), Str("")),
            "consent" := Or(Prop(current, "consent"), Bool(false)),
            "method" := Str(MethodName(tab)),
            "timestamp" := Str(now)] + updates)
  }

  /** The page's `handleSignatureChange`: the record as given, with a new timestamp and the fixed ip. */
  function Stamp(signature: Value, now: string): (r: Value)
    ensures r.Obj? && r.fields.Keys == FieldsOf(signature).Keys + {"timestamp", "ip"}
    ensures Prop(r, "timestamp") == Str(now) && Prop(r, "ip") == Str("127.0.0.1")
    ensures forall k :: k != "timestamp" && k != "ip" ==> Prop(r, k) == Prop(signature, k)
  {
    Obj(FieldsOf(signature)["timestamp" := Str(now)]["ip" := Str("127.0.0.1")])
  }

  /** A name part as the template literal shows it: `x || ''` for a name held as a string. */
  function NamePart(v: Value): string {
    if v.Str? then v.s else ""
  }

  /** `${first || ''} ${last || ''}`.trim() */
  function RequiredName(first: Value, last: Value): string {
    Trim(NamePart(first) + " " + NamePart(last))
  }

  /** With both names missing the required name is empty. */
  lemma RequiredNameOfNothing(first: Value, last: Value)
    requires NamePart(first) == "" && NamePart(last) == ""
    ensures RequiredName(first, last) == ""
  {
    assert NamePart(first) + " " + NamePart(last) == " ";
    assert TrimStart(" ") == TrimStart([]);
  }

  /** Names without surrounding blanks are joined with one space. */
  lemma RequiredNameJoins(first: string, last: string)
    requires first != "" && last != ""
    requires !IsSpace(first[0]) && !IsSpace(last[|last| - 1])
    ensures RequiredName(Str(first), Str(last)) == first + " " + last
  {
    var s := first + " " + last;
    assert s[0] == first[0] && s[|s| - 1] == last[|last| - 1];
    TrimOfTrimmed(s);
  }

  /** `isTypedValid`: a non-empty typed name that, when a name is required, equals it once both
      are lower-cased and trimmed. A typed name held as a non-string is not modelled. */
  predicate TypedValid(typedName: Value, requiredName: string) {
    Truthy(typedName) && typedName.Str?
    && (requiredName == "" || Trim(Lower(typedName.s)) == Trim(Lower(requiredName)))
  }

  /** The "Name must match" message. */
  predicate ShowsMismatch(typedName: Value, requiredName: string) {
    requiredName != "" && Truthy(typedName) && !TypedValid(typedName, requiredName)
  }

  /** With no name required, any non-empty typed name is valid and no message shows; the exact
      required name is always valid. */
  lemma TypedValidBasics(s: string, requiredName: string)
    ensures TypedValid(Str(s), "") <==> s != ""
    ensures !ShowsMismatch(Str(s), "")
    ensures s != "" ==> TypedValid(Str(s), s)
    ensures ShowsMismatch(Str(s), requiredName) <==> requiredName != "" && s != "" && !TypedValid(Str(s), requiredName)
  {
  }

  lemma LowerUpper(s: string)
    ensures Lower(Upper(s)) == Lower(s)
  {
    assert forall i :: 0 <= i < |s| ==> LowerChar(UpperChar(s[i])) == LowerChar(s[i]);
  }

  /** The match ignores case: typing the name in capitals gives the same verdict. */
  lemma TypedValidIgnoresCase(s: string, requiredName: string)
    ensures TypedValid(Str(Upper(s)), requiredName) <==> TypedValid(Str(s), requiredName)
  {
    LowerUpper(s);
  }

  /** The match ignores surrounding blanks: a leading space gives the same verdict. */
  lemma TypedValidIgnoresLeadingBlank(s: string, requiredName: string)
    requires s != ""
    ensures TypedValid(Str(" " + s), requiredName) <==> TypedValid(Str(s), requiredName)
  {
    assert Lower(" " + s) == " " + Lower(s);
    assert TrimStart(" " + Lower(s)) == TrimStart(Lower(s)) by {
      assert (" " + Lower(s))[1..] == Lower(s);
    }
  }

  /** The step-8 schema does not look at the name match: a consenting signature whose typed name
      differs from the required one passes it, while the field shows the mismatch message. */
  lemma MismatchStillPassesSchema(fmt: Schema.Formats)
    ensures var s := Obj(map["typedName" := Str("Someone Else"), "consent" := Bool(true),
                             "method" := Str("typed"), "timestamp" := Str("t")]);
      ShowsMismatch(Prop(s, "typedName"), "Jane Doe")
      && Schema.Conforms(MenteeSchema.Step8, Obj(map["signature" := s]), fmt)
  {
    var s := Obj(map["typedName" := Str("Someone Else"), "consent" := Bool(true),
                     "method" := Str("typed"), "timestamp" := Str("t")]);
    SomeoneElseMismatch();
    MenteeSchema.SignedStepPasses(s, fmt);
  }

  /** "Someone Else" does not match "Jane Doe". */
  lemma SomeoneElseMismatch()
    ensures ShowsMismatch(Str("Someone Else"), "Jane Doe")
  {
    assert Trim(Lower("Someone Else")) != Trim(Lower("Jane Doe")) by {
      assert Lower("Someone Else")[0] == 's';
      TrimOfTrimmed(Lower("Someone Else"));
      assert Lower("Jane Doe")[0] == 'j';
      TrimOfTrimmed(Lower("Jane Doe"));
    }
  }

  const SignaturePath: seq<string> := ["signature"]

  /**
   * One `SignatureField` on a wizard page. `value` is the form's `signature` entry, and every
   * `onChange` goes through the page's handler into the form. The canvas and its strokes are
   * not modelled; a saved drawing is its data URL.
   */
  class SignatureField {
    const form: FormStore
    const requiredName: string
    var tab: Method
    var hasDrawn: bool
    var isDrawing: bool

    /** The record the field shows. */
    function Current(): Value
      reads form
    {
      GetPath(form.values, SignaturePath)
    }

    /** The tab starts at `value?.method || 'typed'`. */
    constructor(form: FormStore, requiredName: string)
      ensures this.form == form && this.requiredName == requiredName
      ensures tab == (if Prop(GetPath(form.values, SignaturePath), "method") == Str("drawn") then Drawn else Typed)
      ensures !hasDrawn && !isDrawing
    {
      this.form := form;
      this.requiredName := requiredName;
      tab := if Prop(GetPath(form.values, SignaturePath), "method") == Str("drawn") then Drawn else Typed;
      hasDrawn := false;
      isDrawing := false;
    }

    /** `updateSignature(updates)` followed by the page's handler. */
    method Emit(updates: map<string, Value>, now: string)
      modifies form
      ensures form.values == SetPath(old(form.values), SignaturePath,
                                     Stamp(UpdateSignature(old(Current()), tab, now, updates), now))
      ensures Current() == Stamp(UpdateSignature(old(Current()), tab, now, updates), now)
    {
      form.SetValue(SignaturePath, Stamp(UpdateSignature(Current(), tab, now, updates), now));
      GetSetSame(old(form.values), SignaturePath, Stamp(UpdateSignature(old(Current()), tab, now, updates), now));
    }

    /** Typing in the name box: the record's method becomes 'typed'; the tab stays as it is. */
    method TypeName(text: string, now: string)
      modifies form
      ensures Prop(Current(), "typedName") == Str(text) && Prop(Current(), "method") == Str("typed")
      ensures Prop(Current(), "consent") == Or(Prop(old(Current()), "consent"), Bool(false))
      ensures Prop(Current(), "drawn") == Undefined && Prop(Current(), "ip") == Str("127.0.0.1")
    {
      var before := Current();
      Emit(map["typedName" := Str(text), "method" := Str("typed")], now);
      NameTyped(before, tab, now, text);
    }

    /** Ticking or clearing the consent box: `consent: !!checked`. */
    method ToggleConsent(checked: bool, now: string)
      modifies form
      ensures Prop(Current(), "consent") == Bool(checked)
      ensures Prop(Current(), "typedName") == Or(Prop(old(Current()), "typedName"), Str(""))
      ensures Prop(Current(), "method") == Str(MethodName(tab))
      ensures Prop(Current(), "drawn") == Undefined
    {
      Emit(map["consent" := Bool(checked)], now);
    }

    /** Choosing a tab changes only the field's own method state. */
    method SelectTab(m: Method)
      modifies this
      ensures tab == m && hasDrawn == old(hasDrawn) && isDrawing == old(isDrawing)
    {
      tab := m;
    }

    method StartDrawing()
      modifies this
      ensures isDrawing && tab == old(tab) && hasDrawn == old(hasDrawn)
    {
      isDrawing := true;
    }

    /** Releasing the pen saves the drawing, `{drawn: dataURL, method: 'drawn'}`, if one was in progress. */
    method StopDrawing(dataUrl: string, now: string)
      modifies this, form
      ensures !isDrawing && tab == old(tab)
      ensures old(isDrawing) ==> hasDrawn && Prop(Current(), "drawn") == Str(dataUrl) && Prop(Current(), "method") == Str("drawn")
      ensures !old(isDrawing) ==> hasDrawn == old(hasDrawn) && form.values == old(form.values)
    {
      if isDrawing {
        SaveDrawing(dataUrl, now);
      }
    }

    /** `{drawn: dataURL, method: 'drawn'}` */
    method SaveDrawing(dataUrl: string, now: string)
      modifies this, form
      ensures !isDrawing && hasDrawn && tab == old(tab)
      ensures Prop(Current(), "drawn") == Str(dataUrl) && Prop(Current(), "method") == Str("drawn")
    {
      var before := Current();
      Emit(map["drawn" := Str(dataUrl), "method" := Str("drawn")], now);
      DrawingSaved(before, tab, now, dataUrl);
      isDrawing := false;
      hasDrawn := true;
    }

    /** The Clear button: `hasDrawn` false and `drawn: undefined`. */
    method ClearCanvas(now: string)
      modifies this, form
      ensures !hasDrawn && tab == old(tab) && isDrawing == old(isDrawing)
      ensures Prop(Current(), "drawn") == Undefined
      ensures Prop(Current(), "typedName") == Or(Prop(old(Current()), "typedName"), Str(""))
    {
      var before := Current();
      Emit(map["drawn" := Undefined], now);
      CanvasCleared(before, tab, now);
      hasDrawn := false;
    }
  }

  /** Typing a name records it, marks the method as typed and keeps the consent. */
  lemma NameTyped(current: Value, tab: Method, now: string, text: string)
    ensures var r := Stamp(UpdateSignature(current, tab, now, map["typedName" := Str(text), "method" := Str("typed")]), now);
      Prop(r, "typedName") == Str(text) && Prop(r, "method") == Str("typed")
      && Prop(r, "consent") == Or(Prop(current, "consent"), Bool(false))
      && Prop(r, "drawn") == Undefined && Prop(r, "ip") == Str("127.0.0.1")
  {
    var updates := map["typedName" := Str(text), "method" := Str("typed")];
    assert "typedName" in updates && "method" in updates && "consent" !in updates && "drawn" !in updates;
  }

  /** Clearing the canvas drops the drawing and keeps the typed name. */
  lemma CanvasCleared(current: Value, tab: Method, now: string)
    ensures var r := Stamp(UpdateSignature(current, tab, now, map["drawn" := Undefined]), now);
      Prop(r, "drawn") == Undefined && Prop(r, "typedName") == Or(Prop(current, "typedName"), Str(""))
  {
    var updates := map["drawn" := Undefined];
    assert "drawn" in updates && "typedName" !in updates;
  }

  /** Saving a drawing puts its data URL in the record and marks the method as drawn. */
  lemma DrawingSaved(current: Value, tab: Method, now: string, dataUrl: string)
    ensures var r := Stamp(UpdateSignature(current, tab, now, map["drawn" := Str(dataUrl), "method" := Str("drawn")]), now);
      Prop(r, "drawn") == Str(dataUrl) && Prop(r, "method") == Str("drawn")
  {
    var updates := map["drawn" := Str(dataUrl), "method" := Str("drawn")];
    assert "drawn" in updates && "method" in updates;
  }

  /** Any change that does not set `drawn` drops a saved drawing from the record: ticking consent
      after drawing loses the drawing, while the ip is always put back by the page. */
  lemma UpdateDropsDrawing(current: Value, tab: Method, now: string, updates: map<string, Value>)
    requires "drawn" !in updates
    ensures Prop(Stamp(UpdateSignature(current, tab, now, updates), now), "drawn") == Undefined
    ensures Prop(Stamp(UpdateSignature(current, tab, now, updates), now), "ip") == Str("127.0.0.1")
  {
  }
}
