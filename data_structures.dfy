/** The nested-list `Array` container: construction-time validation, shape and rendering. */
module DataStructures {
  import opened PyValues

  /** How `Array(v)` ends: an object is built, or one of the three messages the constructor
      raises, or an exception the interpreter raises inside the checks. */
  datatype Outcome =
    | Constructed
    | InvalidArray   // "Invalid array passed"
    | UnequalArray   // "Unequal array passed"
    | NonIntegers    // "Array contains non-integers"
    | Crashed        // IndexError or TypeError from inside the checks

  // ---------------------------------------------------------------------------
  // The sibling-length ("equality") check
  // ---------------------------------------------------------------------------

  /** The number of leading elements of `xs` that are lists. */
  function LeadingLists(xs: seq<PyVal>): (k: nat)
    ensures k <= |xs|
    ensures forall j :: 0 <= j < k ==> xs[j].PList?
    ensures k < |xs| ==> !xs[k].PList?
  {
    if |xs| == 0 || !xs[0].PList? then 0 else 1 + LeadingLists(xs[1..])
  }

  /** What the equality check accepts: an int, or a list whose elements, up to the first
      one that is not a list, all have the length of the first element and are accepted
      themselves. Elements after the first non-list element are never looked at. */
  predicate Equal(v: PyVal)
    requires v.PInt? || v.PList?
    decreases v
  {
    if v.PInt? then true
    else
      var xs := v.items;
      var size := if |xs| > 0 && xs[0].PList? then |xs[0].items| else 0;
      forall j :: 0 <= j < LeadingLists(xs) ==> |xs[j].items| == size && Equal(xs[j])
  }

  /** The equality check, as the source runs it: a loop over the elements with early returns. */
  method AssertEquality(v: PyVal) returns (ok: bool)
    requires v.PInt? || v.PList?
    ensures ok == Equal(v)
    decreases v
  {
    if v.PInt? {
      return true;
    }
    var xs := v.items;
    if |xs| == 0 {
      return true;
    }
    var size := if xs[0].PList? then |xs[0].items| else 0;
    var i := 0;
    while i < |xs|
      invariant 0 <= i <= |xs|
      invariant forall j :: 0 <= j < i ==> xs[j].PList? && |xs[j].items| == size && Equal(xs[j])
    {
      if !xs[i].PList? {
        assert LeadingLists(xs) == i;
        return true;
      }
      if |xs[i].items| != size {
        return false;
      }
      var sub := AssertEquality(xs[i]);
      if !sub {
        return false;
      }
      i := i + 1;
    }
    assert LeadingLists(xs) == |xs|;
    return true;
  }

  // ---------------------------------------------------------------------------
  // The leaf-type ("int array") check
  // ---------------------------------------------------------------------------

  /** What the leaf-type check returns: decided by the first element. A number first means a
      leaf list or tuple, which passes iff all its elements are ints or all are floats; a list
      first means every element is checked in turn; anything else fails. `v[0]` raises on an
      int, a float, an empty list and so on. */
  function IntArray(v: PyVal): Result<bool>
    decreases v, 1, 0
  {
    match Subscript0(v)
    case Crash => Crash
    case Ok(head) =>
      if head.PInt? || head.PFloat? then Ok(AllInts(v.items) || AllFloats(v.items))
      else if !head.PList? then Ok(false)
      else IntArrayFrom(v, 0)
  }

  /** The elements of the list or tuple `v` from index `i` on, checked in order until one
      does not pass: its failure or its exception is the answer. */
  function IntArrayFrom(v: PyVal, i: nat): Result<bool>
    requires IsSequence(v) && i <= |v.items|
    decreases v, 0, |v.items| - i
  {
    if i == |v.items| then Ok(true)
    else
      match IntArray(v.items[i])
      case Crash => Crash
      case Ok(b) => if b then IntArrayFrom(v, i + 1) else Ok(false)
  }

  /** The leaf-type check, as the source runs it. */
  method AssertIntArray(v: PyVal) returns (r: Result<bool>)
    ensures r == IntArray(v)
    decreases v
  {
    var head := Subscript0(v);
    if head.Crash? {
      return Crash;
    }
    var h := head.value;
    if h.PInt? || h.PFloat? {
      return Ok(AllInts(v.items) || AllFloats(v.items));
    }
    if !h.PList? {
      return Ok(false);
    }
    var xs := v.items;
    var i := 0;
    while i < |xs|
      invariant 0 <= i <= |xs|
      invariant IntArrayFrom(v, i) == IntArray(v)
    {
      var sub := AssertIntArray(xs[i]);
      if sub != Ok(true) {
        return sub;
      }
      i := i + 1;
    }
    return Ok(true);
  }

  // ---------------------------------------------------------------------------
  // Construction
  // ---------------------------------------------------------------------------

  /** What `Array(v)` does: the type gate, then the equality check, then the leaf-type check. */
  function Construction(v: PyVal): Outcome {
    if !v.PList? && !v.PInt? then InvalidArray
    else if !Equal(v) then UnequalArray
    else
      match IntArray(v)
      case Crash => Crashed
      case Ok(b) => if b then Constructed else NonIntegers
  }

  /** The checks of the constructor, run in the source's order. */
  method Validate(v: PyVal) returns (o: Outcome)
    ensures o == Construction(v)
  {
    if !v.PList? && !v.PInt? {
      return InvalidArray;
    }
    var equal := AssertEquality(v);
    if !equal {
      return UnequalArray;
    }
    var ints := AssertIntArray(v);
    match ints
    case Crash => o := Crashed;
    case Ok(b) => o := if b then Constructed else NonIntegers;
  }

  // ---------------------------------------------------------------------------
  // Rendering
  // ---------------------------------------------------------------------------

  /** `' ' * n` */
  function Spaces(n: nat): (s: string)
    ensures |s| == n
    ensures forall j :: 0 <= j < n ==> s[j] == ' '
  {
    if n == 0 then "" else Spaces(n - 1) + " "
  }

  /** The rendering of `v` at indentation `depth`; `render` is Python's built-in `str`. A list
      whose first element is not a list is one line; a list of lists is an opening bracket,
      one rendering per element at the next depth, and a closing bracket, each on its own line. */
  function Format(v: PyVal, depth: nat, render: PyVal -> string): Result<string>
    decreases v, 1, 0
  {
    match Subscript0(v)
    case Crash => Crash
    case Ok(head) =>
      if !head.PList? then Ok(Spaces(depth) + render(v))
      else Bracketed(FormatFrom(v, 0, depth, render), depth)
  }

  /** A successful body between an opening and a closing bracket line at `depth`. */
  function Bracketed(r: Result<string>, depth: nat): Result<string> {
    match r
    case Crash => Crash
    case Ok(body) => Ok(Spaces(depth) + "[" + body + "\n" + Spaces(depth) + "]")
  }

  /** The renderings at `depth + 1` of the elements of the list or tuple `v` from index `i`
      on, each preceded by a line break. */
  function FormatFrom(v: PyVal, i: nat, depth: nat, render: PyVal -> string): Result<string>
    requires IsSequence(v) && i <= |v.items|
    decreases v, 0, |v.items| - i
  {
    if i == |v.items| then Ok("")
    else
      match Format(v.items[i], depth + 1, render)
      case Crash => Crash
      case Ok(s) =>
        match FormatFrom(v, i + 1, depth, render)
        case Crash => Crash
        case Ok(t) => Ok("\n" + s + t)
  }

  /** `prefix` put in front of a successful result. */
  function Prepend(prefix: string, r: Result<string>): Result<string> {
    match r
    case Crash => Crash
    case Ok(t) => Ok(prefix + t)
  }

  lemma PrependTwice(a: string, b: string, r: Result<string>)
    ensures Prepend(a, Prepend(b, r)) == Prepend(a + b, r)
  {
    if r.Ok? {
      assert a + (b + r.value) == (a + b) + r.value;
    }
  }

  /** `FormatFrom` after its first element: a raise there is a raise of the whole, and
      otherwise that element's line comes first. */
  lemma FormatFromUnfold(v: PyVal, i: nat, depth: nat, render: PyVal -> string)
    requires IsSequence(v) && i < |v.items|
    ensures Format(v.items[i], depth + 1, render).Crash? ==> FormatFrom(v, i, depth, render).Crash?
    ensures Format(v.items[i], depth + 1, render).Ok? ==>
      FormatFrom(v, i, depth, render)
      == Prepend("\n" + Format(v.items[i], depth + 1, render).value, FormatFrom(v, i + 1, depth, render))
  {
  }

  /** The renderer, as the source runs it: the result string is extended once per element. */
  method FormatArray(v: PyVal, depth: nat, render: PyVal -> string) returns (r: Result<string>)
    ensures r == Format(v, depth, render)
    decreases v
  {
    var returnStr := Spaces(depth) + "[";
    var head := Subscript0(v);
    if head.Crash? {
      return Crash;
    }
    if !head.value.PList? {
      return Ok(Spaces(depth) + render(v));
    }
    var xs := v.items;
    ghost var open := returnStr;
    ghost var acc := "";
    assert Prepend(acc, FormatFrom(v, 0, depth, render)) == FormatFrom(v, 0, depth, render) by {
      if FormatFrom(v, 0, depth, render).Ok? {
        assert "" + FormatFrom(v, 0, depth, render).value == FormatFrom(v, 0, depth, render).value;
      }
    }
    var i := 0;
    while i < |xs|
      invariant 0 <= i <= |xs|
      invariant returnStr == open + acc
      invariant FormatFrom(v, 0, depth, render) == Prepend(acc, FormatFrom(v, i, depth, render))
    {
      var sub := FormatArray(xs[i], depth + 1, render);
      if sub.Crash? {
        FormatFromUnfold(v, i, depth, render);
        return Crash;
      }
      FormatFromUnfold(v, i, depth, render);
      PrependTwice(acc, "\n" + sub.value, FormatFrom(v, i + 1, depth, render));
      returnStr := returnStr + "\n" + sub.value;
      acc := acc + ("\n" + sub.value);
      i := i + 1;
    }
    assert acc + "" == acc;
    return Ok(returnStr + "\n" + Spaces(depth) + "]");
  }

  // ---------------------------------------------------------------------------
  // Shape
  // ---------------------------------------------------------------------------

  /** `__shape`: the length of each list or tuple met when following first elements until
      the first element is an int. A float, a str or any other object met on the way raises
      (a str `"a"` is its own first element, so the recursion never ends); so does an empty
      list. A result starts with the length of `v`, and no entry is 0. */
  function ShapeOf(v: PyVal): (r: Result<seq<nat>>)
    ensures r.Ok? ==> IsSequence(v) && |r.value| > 0 && r.value[0] == |v.items|
    ensures r.Ok? ==> forall k :: 0 <= k < |r.value| ==> r.value[k] > 0
    decreases v
  {
    if !IsSequence(v) then Crash
    else
      var xs := v.items;
      if |xs| == 0 then Crash
      else if xs[0].PInt? then Ok([|xs|])
      else
        match ShapeOf(xs[0])
        case Crash => Crash
        case Ok(rest) => Ok([|xs|] + rest)
  }

  /** The number of non-empty lists or tuples met when following first elements from `v`. */
  function FirstDepth(v: PyVal): nat
    decreases v
  {
    if IsSequence(v) && |v.items| > 0 then 1 + FirstDepth(v.items[0]) else 0
  }

  /** Where following first elements from `v` stops: the first value that is not a non-empty
      list or tuple. */
  function FirstLeaf(v: PyVal): PyVal
    decreases v
  {
    if IsSequence(v) && |v.items| > 0 then FirstLeaf(v.items[0]) else v
  }

  /** The list or tuple reached after following the first element `k` times. */
  function Descend(v: PyVal, k: nat): (w: PyVal)
    requires k < FirstDepth(v)
    ensures IsSequence(w) && |w.items| > 0
    decreases v
  {
    if k == 0 then v else Descend(v.items[0], k - 1)
  }

  // ---------------------------------------------------------------------------
  // The container object
  // ---------------------------------------------------------------------------

  class Array {
    /** The wrapped input: set once by the constructor and never changed afterwards. */
    const contents: PyVal

    /** Every object holds an input the constructor's checks accepted. */
    ghost predicate Valid() {
      Construction(contents) == Constructed
    }

    /** The final assignment of `__init__`, reached only once all checks have passed. */
    constructor FromChecked(v: PyVal)
      requires Construction(v) == Constructed
      ensures contents == v && Valid()
    {
      contents := v;
    }

    /** `Array(v)`: runs the checks; an object exists exactly when they all pass, and it holds
        `v` unchanged. */
    static method Create(v: PyVal) returns (outcome: Outcome, a: Array?)
      ensures outcome == Construction(v)
      ensures a != null <==> outcome == Constructed
      ensures a != null ==> fresh(a) && a.contents == v && a.Valid()
    {
      outcome := Validate(v);
      if outcome == Constructed {
        a := new Array.FromChecked(v);
      } else {
        a := null;
      }
    }

    /** `str(self)`: the rendering at depth 0, which never raises on a constructed object. */
    method ToString(render: PyVal -> string) returns (s: string)
      requires Valid()
      ensures Format(contents, 0, render) == Ok(s)
    {
      ConstructedFormats(contents, 0, render);
      var r := FormatArray(contents, 0, render);
      s := r.value;
    }

    /** `self.shape()`: defined exactly when the first-element path ends in an int, and then
        one entry per level of that path, the length of that level, from the top down. */
    function Shape(): (r: Result<seq<nat>>)
      requires Valid()
      ensures r.Ok? <==> FirstLeaf(contents).PInt?
      ensures r.Ok? ==> |r.value| == FirstDepth(contents) && r.value[0] == |contents.items|
      ensures r.Ok? ==> forall k :: 0 <= k < |r.value| ==> r.value[k] == |Descend(contents, k).items|
    {
      ConstructedIsNonEmptyList(contents);
      ShapeFollowsFirstPath(contents);
      ShapeOf(contents)
    }
  }

  // ---------------------------------------------------------------------------
  // Properties of construction
  // ---------------------------------------------------------------------------

  /** An input that is neither a list nor an int is refused by the type gate, before any
      other check; every list or int gets past it. */
  lemma TypeGateFirst(v: PyVal)
    ensures Construction(v) == InvalidArray <==> !v.PList? && !v.PInt?
  {
  }

  /** Every list element before the first non-list one that is a list of the wrong length
      makes the equality check, and so construction, fail with "Unequal array passed". */
  lemma SiblingMismatchIsUnequal(xs: seq<PyVal>, i: nat)
    requires 0 < i < |xs|
    requires forall j :: 0 <= j <= i ==> xs[j].PList?
    requires |xs[i].items| != |xs[0].items|
    ensures !Equal(PList(xs))
    ensures Construction(PList(xs)) == UnequalArray
  {
    LeadingListsAtLeast(xs, i + 1);
  }

  /** If the first `n` elements of `xs` are lists, at least `n` elements lead. */
  lemma {:induction false} LeadingListsAtLeast(xs: seq<PyVal>, n: nat)
    requires n <= |xs|
    requires forall j :: 0 <= j < n ==> xs[j].PList?
    ensures LeadingLists(xs) >= n
  {
    if n > 0 {
      LeadingListsAtLeast(xs[1..], n - 1);
    }
  }

  /** The equality check stops at the first element that is not a list: what follows it,
      however ragged, does not matter. */
  lemma EqualIgnoresRest(xs: seq<PyVal>, rest: seq<PyVal>)
    requires LeadingLists(xs) < |xs|
    ensures Equal(PList(xs + rest)) == Equal(PList(xs))
  {
    var ys := xs + rest;
    forall j | 0 <= j < |xs|
      ensures ys[j] == xs[j]
    {
    }
    LeadingListsOfPrefix(xs, ys);
    EqualOfSameLeading(xs, ys);
  }

  lemma LeadingListsOfPrefix(xs: seq<PyVal>, ys: seq<PyVal>)
    requires LeadingLists(xs) < |xs| <= |ys|
    requires forall j :: 0 <= j < |xs| ==> ys[j] == xs[j]
    ensures LeadingLists(ys) == LeadingLists(xs)
  {
    var k := LeadingLists(xs);
    LeadingListsAtLeast(ys, k);
    assert !ys[k].PList?;
  }

  lemma EqualOfSameLeading(xs: seq<PyVal>, ys: seq<PyVal>)
    requires 0 < |xs| <= |ys|
    requires LeadingLists(ys) == LeadingLists(xs)
    requires forall j :: 0 <= j < |xs| ==> ys[j] == xs[j]
    ensures Equal(PList(ys)) == Equal(PList(xs))
  {
    assert ys[0] == xs[0];
  }

  /** With a first element that is a list, the leaf-type check passes exactly when every
      element passes it on its own: siblings are never compared with each other. */
  lemma IntArrayOfLists(xs: seq<PyVal>)
    requires |xs| > 0 && xs[0].PList?
    ensures IntArray(PList(xs)) == Ok(true) <==> forall j :: 0 <= j < |xs| ==> IntArray(xs[j]) == Ok(true)
  {
    IntArrayFromTrue(PList(xs), 0);
  }

  lemma {:induction false} IntArrayFromTrue(v: PyVal, i: nat)
    requires IsSequence(v) && i <= |v.items|
    ensures IntArrayFrom(v, i) == Ok(true) <==> forall j :: i <= j < |v.items| ==> IntArray(v.items[j]) == Ok(true)
    decreases |v.items| - i
  {
    if i < |v.items| {
      IntArrayFromTrue(v, i + 1);
    }
  }

  /** With a number as first element, the leaf-type check passes exactly when the elements
      are all ints or all floats. */
  lemma IntArrayOfLeaves(xs: seq<PyVal>)
    requires |xs| > 0 && (xs[0].PInt? || xs[0].PFloat?)
    ensures IntArray(PList(xs)) == Ok(true) <==> AllInts(xs) || AllFloats(xs)
    ensures IntArray(PList(xs)).Ok?
  {
  }

  /** A constructed input is a non-empty list: a bare int and an empty list pass the
      equality check but make the leaf-type check raise on `array[0]`. */
  lemma ConstructedIsNonEmptyList(v: PyVal)
    ensures Construction(v) == Constructed ==> v.PList? && |v.items| > 0
    ensures v.PInt? ==> Construction(v) == Crashed
    ensures v == PList([]) ==> Construction(v) == Crashed
  {
  }

  // ---------------------------------------------------------------------------
  // Rectangular inputs
  // ---------------------------------------------------------------------------

  datatype LeafKind = IntLeaves | FloatLeaves

  /** `v` is a rectangular nested list with the given dimensions whose leaves are all of one kind. */
  ghost predicate Grid(v: PyVal, dims: seq<nat>, kind: LeafKind)
    decreases v
  {
    if |dims| == 0 then (if kind == IntLeaves then v.PInt? else v.PFloat?)
    else
      v.PList? && |v.items| == dims[0] &&
      forall j :: 0 <= j < |v.items| ==> Grid(v.items[j], dims[1..], kind)
  }

  ghost predicate Positive(dims: seq<nat>) {
    forall k :: 0 <= k < |dims| ==> dims[k] > 0
  }

  lemma {:induction false} GridIsEqual(v: PyVal, dims: seq<nat>, kind: LeafKind)
    requires |dims| > 0 && Grid(v, dims, kind)
    ensures Equal(v)
    decreases v
  {
    var xs := v.items;
    if |dims| > 1 {
      LeadingListsAtLeast(xs, |xs|);
      forall j | 0 <= j < |xs|
        ensures Equal(xs[j])
      {
        GridIsEqual(xs[j], dims[1..], kind);
      }
    } else if |xs| > 0 {
      assert !xs[0].PList?;
    }
  }

  lemma {:induction false} GridIntArray(v: PyVal, dims: seq<nat>, kind: LeafKind)
    requires |dims| > 0 && Positive(dims) && Grid(v, dims, kind)
    ensures IntArray(v) == Ok(true)
    decreases v
  {
    var xs := v.items;
    assert xs[0] == v.items[0];
    if |dims| > 1 {
      forall j | 0 <= j < |xs|
        ensures IntArray(xs[j]) == Ok(true)
      {
        GridIntArray(xs[j], dims[1..], kind);
      }
      IntArrayOfLists(xs);
    } else {
      assert xs[0].PInt? || xs[0].PFloat?;
      assert kind == IntLeaves ==> AllInts(xs);
      assert kind == FloatLeaves ==> AllFloats(xs);
    }
  }

  lemma {:induction false} GridShape(v: PyVal, dims: seq<nat>, kind: LeafKind)
    requires |dims| > 0 && Positive(dims) && Grid(v, dims, kind)
    ensures ShapeOf(v) == if kind == IntLeaves then Ok(dims) else Crash
    decreases v
  {
    var xs := v.items;
    if |dims| > 1 {
      assert Grid(xs[0], dims[1..], kind);
      GridShape(xs[0], dims[1..], kind);
      assert dims == [dims[0]] + dims[1..];
    } else {
      assert Grid(xs[0], [], kind);
      assert dims == [dims[0]];
    }
  }

  /** A rectangular input with no empty level and leaves of one kind is constructed; its
      shape is its dimensions when the leaves are ints, and raises when they are floats. */
  lemma GridIsConstructed(v: PyVal, dims: seq<nat>, kind: LeafKind)
    requires |dims| > 0 && Positive(dims) && Grid(v, dims, kind)
    ensures Construction(v) == Constructed
    ensures ShapeOf(v) == if kind == IntLeaves then Ok(dims) else Crash
  {
    GridIsEqual(v, dims, kind);
    GridIntArray(v, dims, kind);
    GridShape(v, dims, kind);
  }

  /** In a rectangular grid of two lists of lists, the two first elements have one length. */
  lemma GridFirstGrandchildren(a: seq<PyVal>, b: seq<PyVal>, dims: seq<nat>, kind: LeafKind)
    requires |a| > 0 && |b| > 0 && a[0].PList? && b[0].PList?
    ensures Grid(PList([PList(a), PList(b)]), dims, kind) ==> |a[0].items| == |b[0].items|
  {
    var v := PList([PList(a), PList(b)]);
    if Grid(v, dims, kind) {
      assert |dims| > 0 && |v.items| == 2;
      assert v.items[0] == PList(a) && v.items[1] == PList(b);
      assert Grid(PList(a), dims[1..], kind) && Grid(PList(b), dims[1..], kind);
      assert |dims[1..]| > 0;
      assert Grid(a[0], dims[1..][1..], kind) && Grid(b[0], dims[1..][1..], kind);
    }
  }

  /** The equality check is per child, not rectangularity: `[[[1,2],[3,4]],[[5],[6]]]` is
      constructed and has shape [2, 2, 2], yet it is no rectangular grid at all. */
  lemma RaggedGrandchildrenAccepted()
    ensures var v := PList([PList([PList([PInt(1), PInt(2)]), PList([PInt(3), PInt(4)])]),
                            PList([PList([PInt(5)]), PList([PInt(6)])])]);
      Construction(v) == Constructed && ShapeOf(v) == Ok([2, 2, 2]) &&
      forall dims, kind :: !Grid(v, dims, kind)
  {
    var a := PList([PList([PInt(1), PInt(2)]), PList([PInt(3), PInt(4)])]);
    var b := PList([PList([PInt(5)]), PList([PInt(6)])]);
    var v := PList([a, b]);
    PairOfLeafListsAccepted(PInt(1), PInt(2), PInt(3), PInt(4));
    SingletonListsAccepted(PInt(5), PInt(6));
    AcceptedPair(a, b);
    assert ShapeOf(v) == Ok([2, 2, 2]) by {
      assert [2] + [2, 2] == [2, 2, 2];
    }
    forall dims, kind
      ensures !Grid(v, dims, kind)
    {
      GridFirstGrandchildren(a.items, b.items, dims, kind);
    }
  }

  /** `[[p], [q]]` with two ints passes both checks. */
  lemma SingletonListsAccepted(p: PyVal, q: PyVal)
    requires p.PInt? && q.PInt?
    ensures var b := PList([PList([p]), PList([q])]);
      Equal(b) && IntArray(b) == Ok(true)
  {
    var b := PList([PList([p]), PList([q])]);
    LeadingListsAtLeast(b.items, 2);
    IntArrayOfLists(b.items);
  }

  /** Two lists of lists of two elements each, both accepted, are accepted side by side. */
  lemma AcceptedPair(a: PyVal, b: PyVal)
    requires a.PList? && b.PList? && |a.items| == 2 && |b.items| == 2
    requires a.items[0].PList? && Equal(a) && Equal(b) && IntArray(a) == Ok(true) && IntArray(b) == Ok(true)
    ensures Construction(PList([a, b])) == Constructed
  {
    var v := PList([a, b]);
    LeadingListsAtLeast(v.items, 2);
    assert Equal(v);
    IntArrayOfLists(v.items);
  }

  /** `[[p, q], [r, s]]` with four ints passes both checks and has shape [2, 2]. */
  lemma PairOfLeafListsAccepted(p: PyVal, q: PyVal, r: PyVal, s: PyVal)
    requires p.PInt? && q.PInt? && r.PInt? && s.PInt?
    ensures var a := PList([PList([p, q]), PList([r, s])]);
      Equal(a) && IntArray(a) == Ok(true) && ShapeOf(a) == Ok([2, 2])
  {
    var a := PList([PList([p, q]), PList([r, s])]);
    LeadingListsAtLeast(a.items, 2);
    assert LeadingLists(PList([p, q]).items) == 0;
    IntArrayOfLists(a.items);
    assert ShapeOf(a.items[0]) == Ok([2]);
    assert [2] + [2] == [2, 2];
  }

  /** The leaf-type check is per branch too: `[[1,2],[1.5,2.5]]` is constructed, and since
      its first leaf is an int its shape is [2, 2]. */
  lemma MixedBranchesAccepted()
    ensures var v := PList([PList([PInt(1), PInt(2)]), PList([PFloat(1.5), PFloat(2.5)])]);
      Construction(v) == Constructed && ShapeOf(v) == Ok([2, 2])
  {
    var v := PList([PList([PInt(1), PInt(2)]), PList([PFloat(1.5), PFloat(2.5)])]);
    LeadingListsAtLeast(v.items, 2);
    IntArrayOfLists(v.items);
    assert ShapeOf(v.items[0]) == Ok([2]);
    assert [2] + [2] == [2, 2];
  }

  /** A non-list element after a leading list passes the equality check, then makes the
      leaf-type check raise on `3[0]`: `[[1,2],3]` is never constructed. */
  lemma TrailingIntCrashes()
    ensures Construction(PList([PList([PInt(1), PInt(2)]), PInt(3)])) == Crashed
  {
    var xs := [PList([PInt(1), PInt(2)]), PInt(3)];
    assert LeadingLists(xs) == 1;
  }

  /** A tuple after a leading list ends the equality check, and the leaf-type check then
      looks inside it: `[[1,2],(3,4)]` is constructed, with shape [2, 2]. A tuple as first
      element fails the leaf-type check instead: `[(1,2)]` is refused. */
  lemma TupleElementAccepted()
    ensures var v := PList([PList([PInt(1), PInt(2)]), PTuple([PInt(3), PInt(4)])]);
      Construction(v) == Constructed && ShapeOf(v) == Ok([2, 2])
    ensures Construction(PList([PTuple([PInt(1), PInt(2)])])) == NonIntegers
  {
    var v := PList([PList([PInt(1), PInt(2)]), PTuple([PInt(3), PInt(4)])]);
    assert LeadingLists(v.items) == 1;
    assert LeadingLists(v.items[0].items) == 0;
    IntArrayOfLists(v.items);
    assert ShapeOf(v.items[0]) == Ok([2]);
    assert [2] + [2] == [2, 2];
    var w := [PTuple([PInt(1), PInt(2)])];
    assert LeadingLists(w) == 0;
  }

  /** One leaf list mixing an int and a float fails with "Array contains non-integers". */
  lemma MixedLeavesRejected()
    ensures Construction(PList([PInt(1), PFloat(2.5)])) == NonIntegers
  {
    var xs := [PInt(1), PFloat(2.5)];
    assert !AllInts(xs) by { assert !xs[1].PInt?; }
    assert !AllFloats(xs) by { assert !xs[0].PFloat?; }
  }

  // ---------------------------------------------------------------------------
  // Properties of shape
  // ---------------------------------------------------------------------------

  /** `__shape` is defined exactly when the first-element path from a list or tuple ends in
      an int; it then lists the length of every list or tuple on that path, from the top down. */
  lemma {:induction false} ShapeFollowsFirstPath(v: PyVal)
    ensures ShapeOf(v).Ok? <==> IsSequence(v) && FirstLeaf(v).PInt?
    ensures ShapeOf(v).Ok? ==>
      var t := ShapeOf(v).value;
      |t| == FirstDepth(v) && t[0] == |v.items| &&
      forall k :: 0 <= k < |t| ==> t[k] == |Descend(v, k).items|
    decreases v
  {
    if IsSequence(v) && |v.items| > 0 {
      var h := v.items[0];
      ShapeFollowsFirstPath(h);
      if h.PInt? {
        assert FirstLeaf(h) == h;
      } else if ShapeOf(h).Ok? {
        var t := ShapeOf(v).value;
        var rest := ShapeOf(h).value;
        assert t == [|v.items|] + rest;
        forall k | 0 <= k < |t|
          ensures t[k] == |Descend(v, k).items|
        {
          if k > 0 {
            assert t[k] == rest[k - 1];
          }
        }
      }
    }
  }

  // ---------------------------------------------------------------------------
  // Properties of rendering
  // ---------------------------------------------------------------------------

  /** A renderer that never yields a line break. */
  ghost predicate SingleLine(render: PyVal -> string) {
    forall u :: '\n' !in render(u)
  }

  /** A list or tuple of numbers only: all ints or all floats. */
  predicate NumberSequence(u: PyVal) {
    IsSequence(u) && (AllInts(u.items) || AllFloats(u.items))
  }

  /** A renderer that yields no line break for a list or tuple of numbers. Python's `str` is
      one: it writes such a sequence as its numbers between brackets, on one line. */
  ghost predicate NumbersSingleLine(render: PyVal -> string) {
    forall u :: NumberSequence(u) ==> '\n' !in render(u)
  }

  /** The renderer never raises on an input the leaf-type check accepts. */
  lemma {:induction false} IntArrayFormats(v: PyVal, depth: nat, render: PyVal -> string)
    requires IntArray(v) == Ok(true)
    ensures Format(v, depth, render).Ok?
    decreases v, 1, 0
  {
    var head := Subscript0(v).value;
    if head.PList? {
      IntArrayFromFormats(v, 0, depth, render);
    }
  }

  lemma {:induction false} IntArrayFromFormats(v: PyVal, i: nat, depth: nat, render: PyVal -> string)
    requires IsSequence(v) && i <= |v.items| && IntArrayFrom(v, i) == Ok(true)
    ensures FormatFrom(v, i, depth, render).Ok?
    decreases v, 0, |v.items| - i
  {
    if i < |v.items| {
      IntArrayFormats(v.items[i], depth + 1, render);
      IntArrayFromFormats(v, i + 1, depth, render);
    }
  }

  /** `str` of a constructed `Array` always yields a string. */
  lemma ConstructedFormats(v: PyVal, depth: nat, render: PyVal -> string)
    requires Construction(v) == Constructed
    ensures Format(v, depth, render).Ok?
  {
    IntArrayFormats(v, depth, render);
  }

  /** On an input the leaf-type check accepts, the renderer hands `str` only lists and
      tuples of numbers: two renderers that agree on those render the input alike. */
  lemma {:induction false} FormatRendersOnlyNumbers(v: PyVal, depth: nat, r1: PyVal -> string, r2: PyVal -> string)
    requires IntArray(v) == Ok(true)
    requires forall u :: NumberSequence(u) ==> r1(u) == r2(u)
    ensures Format(v, depth, r1) == Format(v, depth, r2)
    decreases v, 1, 0
  {
    var head := Subscript0(v).value;
    if head.PList? {
      FormatFromRendersOnlyNumbers(v, 0, depth, r1, r2);
    } else {
      assert NumberSequence(v);
    }
  }

  lemma {:induction false} FormatFromRendersOnlyNumbers(v: PyVal, i: nat, depth: nat, r1: PyVal -> string, r2: PyVal -> string)
    requires IsSequence(v) && i <= |v.items| && IntArrayFrom(v, i) == Ok(true)
    requires forall u :: NumberSequence(u) ==> r1(u) == r2(u)
    ensures FormatFrom(v, i, depth, r1) == FormatFrom(v, i, depth, r2)
    decreases v, 0, |v.items| - i
  {
    if i < |v.items| {
      FormatRendersOnlyNumbers(v.items[i], depth + 1, r1, r2);
      FormatFromRendersOnlyNumbers(v, i + 1, depth, r1, r2);
    }
  }

  /** For a constructed input and Python's `str`, rendering at `depth + extra` is rendering
      at `depth` with `extra` more spaces at the start of every line. */
  lemma ConstructedShift(v: PyVal, depth: nat, extra: nat, render: PyVal -> string)
    requires Construction(v) == Constructed
    requires NumbersSingleLine(render)
    ensures Format(v, depth + extra, render) == Shifted(Format(v, depth, render), extra)
  {
    var single := (u: PyVal) => if NumberSequence(u) then render(u) else "";
    assert SingleLine(single);
    FormatRendersOnlyNumbers(v, depth, render, single);
    FormatRendersOnlyNumbers(v, depth + extra, render, single);
    FormatShift(v, depth, extra, single);
  }

  /** `s` with `n` spaces inserted after every line break. */
  function IndentBreaks(s: string, n: nat): (r: string)
    ensures '\n' !in s ==> r == s
  {
    if s == [] then []
    else (if s[0] == '\n' then "\n" + Spaces(n) else [s[0]]) + IndentBreaks(s[1..], n)
  }

  lemma {:induction false} IndentBreaksConcat(a: string, b: string, n: nat)
    ensures IndentBreaks(a + b, n) == IndentBreaks(a, n) + IndentBreaks(b, n)
  {
    if a != [] {
      var piece := if a[0] == '\n' then "\n" + Spaces(n) else [a[0]];
      var ab := a + b;
      assert ab[0] == a[0] && ab[1..] == a[1..] + b;
      assert IndentBreaks(ab, n) == piece + IndentBreaks(ab[1..], n);
      assert IndentBreaks(a, n) == piece + IndentBreaks(a[1..], n);
      IndentBreaksConcat(a[1..], b, n);
      Assoc(piece, IndentBreaks(a[1..], n), IndentBreaks(b, n));
    } else {
      assert a + b == b;
    }
  }

  lemma Assoc(a: string, b: string, c: string)
    ensures (a + b) + c == a + (b + c)
  {
  }

  lemma SpacesAdd(m: nat, n: nat)
    ensures Spaces(m) + Spaces(n) == Spaces(m + n)
  {
    var a, b := Spaces(m) + Spaces(n), Spaces(m + n);
    assert |a| == |b|;
    forall j | 0 <= j < |a|
      ensures a[j] == b[j]
    {
      if j < m {
        assert a[j] == Spaces(m)[j];
      } else {
        assert a[j] == Spaces(n)[j - m];
      }
    }
  }

  lemma BreakFirst(t: string, n: nat)
    ensures IndentBreaks("\n" + t, n) == "\n" + Spaces(n) + IndentBreaks(t, n)
  {
    assert ("\n" + t)[0] == '\n';
    assert ("\n" + t)[1..] == t;
  }

  /** One element's rendering `s` after its line break, followed by the rest `t`. */
  lemma ElementIndented(s: string, t: string, n: nat)
    ensures IndentBreaks("\n" + s + t, n) == "\n" + (Spaces(n) + IndentBreaks(s, n)) + IndentBreaks(t, n)
  {
    Assoc("\n", s, t);
    BreakFirst(s + t, n);
    IndentBreaksConcat(s, t, n);
    Assoc("\n", Spaces(n), IndentBreaks(s, n));
    Assoc("\n" + Spaces(n), IndentBreaks(s, n), IndentBreaks(t, n));
  }

  /** A list of lists rendered with body `body` at `depth`, shifted by `n` more spaces. */
  lemma BracketsIndented(body: string, depth: nat, n: nat)
    ensures Spaces(n) + IndentBreaks(Spaces(depth) + "[" + body + "\n" + Spaces(depth) + "]", n)
         == Spaces(depth + n) + "[" + IndentBreaks(body, n) + "\n" + Spaces(depth + n) + "]"
  {
    var sd, sn := Spaces(depth), Spaces(n);
    var ib := IndentBreaks(body, n);
    assert '\n' !in sd;
    assert IndentBreaks("[", n) == "[" && IndentBreaks("]", n) == "]";
    assert IndentBreaks("\n", n) == "\n" + sn by {
      assert "\n"[1..] == [];
    }
    IndentBreaksConcat(sd, "[", n);
    IndentBreaksConcat(sd + "[", body, n);
    IndentBreaksConcat(sd + "[" + body, "\n", n);
    IndentBreaksConcat(sd + "[" + body + "\n", sd, n);
    IndentBreaksConcat(sd + "[" + body + "\n" + sd, "]", n);
    Regroup(sn, sd, "[", ib, "\n", "]");
    SpacesAdd(n, depth);
    assert n + depth == depth + n;
  }

  lemma Regroup(a: string, s: string, o: string, i: string, nl: string, c: string)
    ensures a + ((((s + o) + i) + (nl + a)) + s) + c == ((((a + s) + o) + i) + nl) + (a + s) + c
  {
    var x0 := (s + o) + i;
    var y := (x0 + (nl + a)) + s;
    Assoc(a, y, c);
    Assoc(a, x0 + (nl + a), s);
    Assoc(a, x0, nl + a);
    Assoc(a, s + o, i);
    Assoc(a, s, o);
    var z := ((a + s) + o) + i;
    Assoc(z, nl, a);
    Assoc(z + nl, a, s);
  }

  /** Rendering deeper only indents: the rendering at `depth + extra` is the rendering at
      `depth` with `extra` more spaces at the start of every line, and it raises exactly
      when that one does. */
  lemma {:induction false} FormatShift(v: PyVal, depth: nat, extra: nat, render: PyVal -> string)
    requires SingleLine(render)
    ensures Format(v, depth + extra, render) == Shifted(Format(v, depth, render), extra)
    decreases v, 1, 0
  {
    var head := Subscript0(v);
    if head.Ok? {
      if !head.value.PList? {
        var r := render(v);
        assert '\n' !in r;
        assert '\n' !in Spaces(depth);
        NoBreakIn(Spaces(depth), r);
        SpacesAdd(extra, depth);
        assert Spaces(extra) + (Spaces(depth) + r) == Spaces(depth + extra) + r;
      } else {
        FormatFromShift(v, 0, depth, extra, render);
        var body := FormatFrom(v, 0, depth, render);
        if body.Ok? {
          BracketsIndented(body.value, depth, extra);
        }
      }
    }
  }

  lemma {:induction false} FormatFromShift(v: PyVal, i: nat, depth: nat, extra: nat, render: PyVal -> string)
    requires SingleLine(render)
    requires IsSequence(v) && i <= |v.items|
    ensures FormatFrom(v, i, depth + extra, render) == IndentedResult(FormatFrom(v, i, depth, render), extra)
    decreases v, 0, |v.items| - i
  {
    if i < |v.items| {
      FormatShift(v.items[i], depth + 1, extra, render);
      FormatFromShift(v, i + 1, depth, extra, render);
      FormatFromStep(v, i, depth, extra, render);
    }
  }

  /** One step of the shift along the elements: the element and the rest both shift. */
  lemma FormatFromStep(v: PyVal, i: nat, depth: nat, extra: nat, render: PyVal -> string)
    requires IsSequence(v) && i < |v.items|
    requires Format(v.items[i], depth + 1 + extra, render) == Shifted(Format(v.items[i], depth + 1, render), extra)
    requires FormatFrom(v, i + 1, depth + extra, render) == IndentedResult(FormatFrom(v, i + 1, depth, render), extra)
    ensures FormatFrom(v, i, depth + extra, render) == IndentedResult(FormatFrom(v, i, depth, render), extra)
  {
    var c := Format(v.items[i], depth + 1, render);
    var rest := FormatFrom(v, i + 1, depth, render);
    assert depth + 1 + extra == depth + extra + 1;
    if c.Ok? && rest.Ok? {
      ElementIndented(c.value, rest.value, extra);
    }
  }

  lemma NoBreakIn(a: string, b: string)
    requires '\n' !in a && '\n' !in b
    ensures '\n' !in a + b
  {
  }

  /** A successful rendering with `n` more spaces in front of every line. */
  function Shifted(r: Result<string>, n: nat): Result<string> {
    match r
    case Crash => Crash
    case Ok(s) => Ok(Spaces(n) + IndentBreaks(s, n))
  }

  /** A successful rendering with `n` more spaces after every line break. */
  function IndentedResult(r: Result<string>, n: nat): Result<string> {
    match r
    case Crash => Crash
    case Ok(s) => Ok(IndentBreaks(s, n))
  }
}
