/**
 * The list editing shared by the wizard steps: removal by index, removal of every copy of a
 * value, the add and remove controls of a repeatable list, the mistakes list capped at three,
 * the owners' equity total and the checkbox lists of industries and expertise areas.
 */
module Lists {
  import opened Json

  /** `xs.filter((_, j) => j !== i)` */
  function RemoveAt<T>(xs: seq<T>, i: int): (r: seq<T>)
    ensures 0 <= i < |xs| ==> r == xs[..i] + xs[i + 1..]
    ensures !(0 <= i < |xs|) ==> r == xs
    decreases |xs|
  {
    if xs == [] then []
    else
      var rest := RemoveAt(xs[1..], i - 1);
      assert 0 < i < |xs| ==> [xs[0]] + rest == xs[..i] + xs[i + 1..] by {
        if 0 < i < |xs| {
          assert xs[..i] == [xs[0]] + xs[1..][..i - 1];
          assert xs[i + 1..] == xs[1..][i..];
        }
      }
      (if i == 0 then [] else [xs[0]]) + rest
  }

  /** `xs.filter(y => y !== x)` */
  function Without<T(==,!new)>(xs: seq<T>, x: T): (r: seq<T>)
    ensures x !in r && |r| <= |xs|
    ensures forall y :: y in r <==> y in xs && y != x
    ensures x !in xs ==> r == xs
    decreases |xs|
  {
    if xs == [] then []
    else (if xs[0] == x then [] else [xs[0]]) + Without(xs[1..], x)
  }

  /** Filtering commutes with concatenation, so the kept elements stay in their order. */
  lemma {:induction false} WithoutConcat<T(!new)>(a: seq<T>, b: seq<T>, x: T)
    ensures Without(a + b, x) == Without(a, x) + Without(b, x)
    decreases |a|
  {
    if a == [] {
      assert a + b == b;
    } else {
      assert (a + b)[0] == a[0] && (a + b)[1..] == a[1..] + b;
      WithoutConcat(a[1..], b, x);
    }
  }

  /** Removing every copy of `x` keeps the count of every other value and drops all of `x`. */
  lemma {:induction false} WithoutCounts<T(!new)>(xs: seq<T>, x: T)
    ensures multiset(Without(xs, x)) == multiset(xs)[x := 0]
    decreases |xs|
  {
    if xs != [] {
      WithoutCounts(xs[1..], x);
      assert xs == [xs[0]] + xs[1..];
    }
  }

  /** Appending a value that was absent and then filtering it out restores the list. */
  lemma AppendThenWithout<T(!new)>(xs: seq<T>, x: T)
    requires x !in xs
    ensures Without(xs + [x], x) == xs
  {
    WithoutConcat(xs, [x], x);
    assert Without([x], x) == [];
  }

  // ---- RepeatableList ----

  /** The bounds a repeatable list is rendered with. */
  datatype Bounds = Bounds(minItems: nat, maxItems: nat)

  /** The bounds a list gets when the page passes none. */
  const DefaultBounds: Bounds := Bounds(0, 10)

  /** What a repeatable list of `len` items offers: the index each rendered remove button
      passes to `onRemove`, in item order, and whether the add button is rendered. */
  datatype Controls = Controls(removeButtons: seq<int>, addButton: bool)

  predicate CanAdd(len: nat, b: Bounds) {
    len < b.maxItems
  }

  predicate CanRemove(len: nat, b: Bounds) {
    len > b.minItems
  }

  function Render(len: nat, b: Bounds): (c: Controls)
    ensures c.addButton <==> CanAdd(len, b)
    ensures CanRemove(len, b) ==> |c.removeButtons| == len && forall j :: 0 <= j < len ==> c.removeButtons[j] == j
    ensures !CanRemove(len, b) ==> c.removeButtons == []
  {
    Controls(if CanRemove(len, b) then seq(len, j requires 0 <= j < len => j) else [], CanAdd(len, b))
  }

  /** A list whose length lies within its bounds keeps it there under every control the list
      renders: the add button appends one item, a remove button removes the item it sits on. */
  lemma ControlsKeepBounds<T>(xs: seq<T>, b: Bounds, x: T, j: nat)
    requires b.minItems <= |xs| <= b.maxItems
    ensures Render(|xs|, b).addButton ==> b.minItems <= |xs + [x]| <= b.maxItems
    ensures j < |Render(|xs|, b).removeButtons| ==>
      var r := RemoveAt(xs, Render(|xs|, b).removeButtons[j]);
      b.minItems <= |r| <= b.maxItems && r == xs[..j] + xs[j + 1..]
  {
  }

  // ---- the mistakes list (mentee step 5, mentor step 4) ----

  const MistakeLimit: nat := 3

  /** `{whatHappened: '', lesson: ''}` */
  const EmptyMistake: Value := Obj(map["whatHappened" := Str(""), "lesson" := Str("")])

  /** `addMistake`: appends an empty mistake while there are fewer than three. */
  function AddMistake(xs: seq<Value>): seq<Value> {
    if |xs| < MistakeLimit then xs + [EmptyMistake] else xs
  }

  /** `removeMistake(i)`: removes index `i` when the list is non-empty. */
  function RemoveMistake(xs: seq<Value>, i: int): seq<Value> {
    if |xs| > 0 then RemoveAt(xs, i) else xs
  }

  /** `n` presses of the add button. */
  function AddMistakes(xs: seq<Value>, n: nat): seq<Value>
    decreases n
  {
    if n == 0 then xs else AddMistakes(AddMistake(xs), n - 1)
  }

  /** However many times Add is pressed, the list keeps its first items, grows by empty
      mistakes and stops at three; a list already at three or more is left as it is. */
  lemma {:induction false} AddMistakesCapped(xs: seq<Value>, n: nat)
    ensures var r := AddMistakes(xs, n);
      |r| == (if |xs| >= MistakeLimit then |xs| else if |xs| + n < MistakeLimit then |xs| + n else MistakeLimit)
      && r[..|xs|] == xs
      && forall j :: |xs| <= j < |r| ==> r[j] == EmptyMistake
    decreases n
  {
    if n > 0 {
      var ys := AddMistake(xs);
      AddMistakesCapped(ys, n - 1);
      var r := AddMistakes(ys, n - 1);
      assert r[..|xs|] == r[..|ys|][..|xs|];
    }
  }

  /** From the empty list three presses give exactly three mistakes, and more presses change nothing. */
  lemma ThreePressesFill(n: nat)
    ensures |AddMistakes([], n)| == (if n < MistakeLimit then n else MistakeLimit)
    ensures n >= MistakeLimit ==> AddMistakes([], n) == [EmptyMistake, EmptyMistake, EmptyMistake]
  {
    AddMistakesCapped([], n);
    if n >= MistakeLimit {
      var r := AddMistakes([], n);
      assert r[0] == EmptyMistake && r[1] == EmptyMistake && r[2] == EmptyMistake;
    }
  }

  /** With the bounds [3, 3] the mistakes list is rendered with: no list reached from at most three
      items by pressing Add ever shows a remove button, and Add is shown exactly below three. */
  lemma MistakeControls(xs: seq<Value>, n: nat)
    requires |xs| <= MistakeLimit
    ensures var r := AddMistakes(xs, n);
      Render(|r|, Bounds(3, 3)).removeButtons == []
      && (Render(|r|, Bounds(3, 3)).addButton <==> |r| < MistakeLimit)
  {
    AddMistakesCapped(xs, n);
  }

  /** Removing from the mistakes list removes exactly one index; an out-of-range index keeps the list. */
  lemma RemoveMistakeSpec(xs: seq<Value>, i: int)
    ensures 0 <= i < |xs| ==> RemoveMistake(xs, i) == xs[..i] + xs[i + 1..]
    ensures !(0 <= i < |xs|) ==> RemoveMistake(xs, i) == xs
  {
  }

  /** `{...matrix, [category]: value}` over `getValues('strengths.matrix') || {}` */
  function MatrixChange(matrix: Value, category: string, value: string): (r: Value)
    ensures r.Obj? && Prop(r, category) == Str(value)
    ensures forall k :: k != category ==> Prop(r, k) == Prop(Or(matrix, Obj(map[])), k)
    ensures r.fields.Keys == FieldsOf(Or(matrix, Obj(map[]))).Keys + {category}
  {
    Obj(FieldsOf(Or(matrix, Obj(map[])))[category := Str(value)])
  }

  // ---- owners (mentee step 2) ----

  /** `{name: '', title: '', equityPercent: 0}` */
  const EmptyOwner: Value := Obj(map["name" := Str(""), "title" := Str(""), "equityPercent" := Num(0.0)])

  /** `owner.equityPercent || 0` for an owner whose equity is a number. */
  function EquityOf(owner: Value): real {
    var e := Or(Prop(owner, "equityPercent"), Num(0.0));
    if e.Num? then e.n else 0.0
  }

  /** `owners.reduce((sum, owner) => sum + (owner.equityPercent || 0), 0)` */
  function TotalEquity(owners: seq<Value>): real
    decreases |owners|
  {
    if owners == [] then 0.0 else TotalEquity(owners[..|owners| - 1]) + EquityOf(owners[|owners| - 1])
  }

  /** The total over two lists end to end is the sum of their totals. */
  lemma {:induction false} TotalEquityConcat(a: seq<Value>, b: seq<Value>)
    ensures TotalEquity(a + b) == TotalEquity(a) + TotalEquity(b)
    decreases |b|
  {
    if b == [] {
      assert a + b == a;
    } else {
      var n := |b| - 1;
      assert (a + b)[..|a + b| - 1] == a + b[..n];
      assert (a + b)[|a + b| - 1] == b[n];
      TotalEquityConcat(a, b[..n]);
    }
  }

  lemma TotalEquitySplit(a: seq<Value>, o: Value, b: seq<Value>)
    ensures TotalEquity((a + [o]) + b) == TotalEquity(a + b) + EquityOf(o)
  {
    TotalEquityConcat(a, b);
    TotalEquityConcat(a + [o], b);
    assert (a + [o])[..|a|] == a;
  }

  /** Adding an owner leaves the total as it was. */
  lemma AddOwnerKeepsTotal(owners: seq<Value>)
    ensures TotalEquity(owners + [EmptyOwner]) == TotalEquity(owners)
  {
    assert (owners + [EmptyOwner])[..|owners|] == owners;
  }

  /** Removing an owner takes away exactly its equity. */
  lemma RemoveOwnerTotal(owners: seq<Value>, i: int)
    requires 0 <= i < |owners|
    ensures TotalEquity(RemoveAt(owners, i)) == TotalEquity(owners) - EquityOf(owners[i])
  {
    var a, o, b := owners[..i], owners[i], owners[i + 1..];
    assert owners == (a + [o]) + b;
    TotalEquitySplit(a, o, b);
  }

  /** The total line is rendered iff the total is positive. */
  predicate ShowsTotalEquity(owners: seq<Value>) {
    TotalEquity(owners) > 0.0
  }

  /** The "cannot exceed 100%" note, rendered inside the total line. */
  predicate ShowsEquityWarning(owners: seq<Value>) {
    ShowsTotalEquity(owners) && TotalEquity(owners) > 100.0
  }

  /** The note appears exactly when the total passes 100, and the total of owners each in [0, 100]
      can pass 100 only with two owners or more. */
  lemma EquityWarningSpec(owners: seq<Value>)
    ensures ShowsEquityWarning(owners) <==> TotalEquity(owners) > 100.0
    ensures (forall j :: 0 <= j < |owners| ==> 0.0 <= EquityOf(owners[j]) <= 100.0) && |owners| <= 1
            ==> !ShowsEquityWarning(owners)
  {
    if |owners| == 1 {
      assert owners[..0] == [];
    }
  }

  // ---- reference lists (mentee step 6, mentor step 5) ----

  /** `{name: '', company: '', phone: '', email: ''}` */
  const EmptyReference: Value := Obj(map["name" := Str(""), "company" := Str(""), "phone" := Str(""), "email" := Str("")])

  /** Bounds of the mentee's business, customer and supplier lists and of the mentor's business list. */
  const MenteeReferenceBounds: Bounds := Bounds(2, 5)
  const MentorReferenceBounds: Bounds := Bounds(3, 6)

  /** The heading of a reference card, `Reference #{index + 1}`: one-based. */
  function ReferenceNumber(index: nat): (r: nat)
    ensures r >= 1 && r - 1 == index
  {
    index + 1
  }

  // ---- checkbox lists (mentor steps 1 and 3) ----

  /** A list value read as items; a missing list reads as empty. */
  function ItemsOf(v: Value): seq<Value> {
    if v.Arr? then v.items else []
  }

  /** `field.value?.includes(x) || false` */
  predicate Checked(v: Value, x: Value) {
    x in ItemsOf(v)
  }

  /** `onCheckedChange(checked)`: append `x`, or drop every copy of it. */
  function CheckboxChange(v: Value, x: Value, checked: bool): (r: Value)
    ensures r.Arr?
    ensures Checked(r, x) == checked
    ensures forall y :: y != x ==> (Checked(r, y) <==> Checked(v, y))
    ensures checked ==> |ItemsOf(r)| == |ItemsOf(v)| + 1 && ItemsOf(r)[..|ItemsOf(v)|] == ItemsOf(v)
  {
    if checked then Arr(ItemsOf(v) + [x]) else Arr(Without(ItemsOf(v), x))
  }

  /** Ticking a box that was clear and clearing it again restores the list. */
  lemma CheckThenUncheck(v: Value, x: Value)
    requires v.Arr? && !Checked(v, x)
    ensures CheckboxChange(CheckboxChange(v, x, true), x, false) == v
  {
    AppendThenWithout(v.items, x);
  }

  /** Clearing a box keeps the other entries in their order and with their counts. */
  lemma UncheckKeepsOthers(v: Value, x: Value)
    ensures multiset(ItemsOf(CheckboxChange(v, x, false))) == multiset(ItemsOf(v))[x := 0]
  {
    WithoutCounts(ItemsOf(v), x);
  }
}
