/**
  The direction-flag helpers of the demo board game.

  A `Directions` value is a set of four flags, Right, Down, Left and Up. The
  helpers test flag containment and turn a flag set into grid vectors
  (Godot's y-down screen coordinates) and into rotation angles in degrees,
  scanning the four basic directions in the fixed priority order
  Right, Down, Left, Up.

  Vectors are integer pairs and rotations integers: every value the helpers
  produce is integral (unit vectors, multiples of 90).

  The model has two layers. The bit layer (`Has`, `Mask`) works on the flag
  bits themselves; the index layer works on the presence mask of a flag set,
  one boolean per entry of the lookup tables, which is what every scan of
  the helpers visits.
 */
module DirectionsExtensions {

  /** A flag set; bit k is the k-th entry of `BasicDirections`. */
  type Directions = bv4

  const None: Directions := 0
  const Right: Directions := 1
  const Down: Directions := 2
  const Left: Directions := 4
  const Up: Directions := 8

  /** The values of System.Numerics.Vector2 that the helpers produce. */
  datatype Vector2 = Vector2(x: int, y: int)

  const Zero: Vector2 := Vector2(0, 0)

  /**
    The lookup tables, index by index: direction, vector, quarter turns.
    The vectors are UnitX, UnitY, -UnitX and -UnitY (y grows downwards).
   */
  const BasicDirections: seq<Directions> := [Right, Down, Left, Up]
  const BasicVector2s: seq<Vector2> := [Vector2(1, 0), Vector2(0, 1), Vector2(-1, 0), Vector2(0, -1)]
  const BasicRotators: seq<int> := [0, 1, 2, 3]
  const RotationUnit: int := 90

  datatype Option<T> = Nothing | Some(value: T)

  // ---------------------------------------------------------------------
  // Bit layer: containment of flag sets
  // ---------------------------------------------------------------------

  /** Does `d1` contain every flag of `d2`? */
  function Has(d1: Directions, d2: Directions): (r: bool)
    ensures d1 == d2 ==> r
    ensures d2 == None ==> r
    ensures r && d2 != None ==> d1 != None
  {
    d1 & d2 == d2
  }

  /** Entry i tells whether `d` has the i-th basic direction. */
  function Mask(d: Directions): (m: seq<bool>)
    ensures |m| == |BasicDirections|
    ensures forall i :: 0 <= i < |BasicDirections| ==> m[i] == Has(d, BasicDirections[i])
  {
    [Has(d, Right), Has(d, Down), Has(d, Left), Has(d, Up)]
  }

  /** The table indices a presence mask marks. */
  function Flags(m: seq<bool>): set<int>
  {
    set i | 0 <= i < |m| && m[i]
  }

  /** `Has` is inclusion of the sets of basic directions. */
  lemma HasIffFlagsSubset(d1: Directions, d2: Directions)
    ensures Has(d1, d2) <==> Flags(Mask(d2)) <= Flags(Mask(d1))
  {
    var m1, m2 := Mask(d1), Mask(d2);
    if Flags(m2) <= Flags(m1) {
      assert m2[0] ==> 0 in Flags(m2);
      assert m2[1] ==> 1 in Flags(m2);
      assert m2[2] ==> 2 in Flags(m2);
      assert m2[3] ==> 3 in Flags(m2);
    } else {
      var i :| i in Flags(m2) && i !in Flags(m1);
      assert Has(d2, BasicDirections[i]) && !Has(d1, BasicDirections[i]);
    }
  }

  /** The four basic directions are all the bits there are: the mask determines the flag set. */
  lemma MaskDetermines(d1: Directions, d2: Directions)
    ensures Mask(d1) == Mask(d2) <==> d1 == d2
  {
  }

  /** No basic direction is present exactly in the empty flag set. */
  lemma NoFlagsIffNone(d: Directions)
    ensures Flags(Mask(d)) == {} <==> d == None
  {
    var m, none := Mask(d), Mask(None);
    MaskDetermines(d, None);
    assert forall i :: 0 <= i < |BasicDirections| ==> !none[i];
    if Flags(m) == {} {
      forall i | 0 <= i < |BasicDirections| ensures !m[i] {
        assert i in Flags(m) <==> m[i];
      }
      assert m == none;
    }
    if d == None {
      assert forall i :: i !in Flags(m);
    }
  }

  // ---------------------------------------------------------------------
  // First match: ToVector2, ToRotation
  // ---------------------------------------------------------------------

  /** `i` is the lowest index the mask marks. */
  predicate IsFirst(m: seq<bool>, i: int)
  {
    0 <= i < |m| && m[i] && forall j :: 0 <= j < i ==> !m[j]
  }

  /** The first index at or after `i` that the mask marks. */
  function FirstFrom(m: seq<bool>, i: int): (r: Option<int>)
    requires 0 <= i <= |m|
    ensures r.Some? ==> i <= r.value < |m| && m[r.value]
    ensures r.Some? ==> forall j :: i <= j < r.value ==> !m[j]
    ensures r.Nothing? ==> forall j :: i <= j < |m| ==> !m[j]
    decreases |m| - i
  {
    if i == |m| then Nothing
    else if m[i] then Some(i)
    else FirstFrom(m, i + 1)
  }

  /** The index the scans of ToVector2 and ToRotation stop at, if any. */
  function FirstPresent(m: seq<bool>): (r: Option<int>)
    ensures r.Some? <==> Flags(m) != {}
    ensures r.Some? ==> IsFirst(m, r.value)
  {
    var r := FirstFrom(m, 0);
    assert r.Some? ==> r.value in Flags(m);
    assert r.Nothing? ==> forall j :: j !in Flags(m);
    r
  }

  /**
    The vector ToVector2 returns for the presence mask `m`: that of the
    lowest-index basic direction present; zero exactly when none is.
   */
  function Vector2Of(m: seq<bool>): (r: Vector2)
    requires |m| == |BasicDirections|
    ensures forall i :: IsFirst(m, i) ==> r == BasicVector2s[i]
    ensures r == Zero <==> Flags(m) == {}
    ensures r != Zero ==> r in BasicVector2s
  {
    match FirstPresent(m)
    case Some(i) => BasicVector2s[i]
    case Nothing => Zero
  }

  /**
    The rotation, in degrees, ToRotation returns for the presence mask `m`:
    90 times the lowest index present, so 0, 90, 180 or 270; 0 when none is.
   */
  function RotationOf(m: seq<bool>): (r: int)
    requires |m| == |BasicDirections|
    ensures forall i :: IsFirst(m, i) ==> r == i * RotationUnit
    ensures Flags(m) == {} ==> r == 0
    ensures r % RotationUnit == 0 && 0 <= r <= 3 * RotationUnit
    ensures r == 0 <==> Flags(m) == {} || m[0]
  {
    match FirstPresent(m)
    case Some(i) => BasicRotators[i] * RotationUnit
    case Nothing => 0
  }

  /** A single basic direction maps to its own table entries. */
  lemma BasicDirectionMaps(i: int)
    requires 0 <= i < |BasicDirections|
    ensures Vector2Of(Mask(BasicDirections[i])) == BasicVector2s[i]
    ensures RotationOf(Mask(BasicDirections[i])) == i * RotationUnit
  {
  }

  /** A mixed set maps to the entries of its first basic direction. */
  lemma MixedExamples()
    ensures Vector2Of(Mask(Right | Left)) == Vector2(1, 0) && RotationOf(Mask(Right | Left)) == 0
    ensures Vector2Of(Mask(Down | Up)) == Vector2(0, 1) && RotationOf(Mask(Left | Up)) == 180
    ensures Vector2Of(Mask(None)) == Zero && RotationOf(Mask(None)) == 0
  {
    var rl, du, lu, none := Mask(Right | Left), Mask(Down | Up), Mask(Left | Up), Mask(None);
    assert IsFirst(rl, 0);
    assert IsFirst(du, 1);
    assert IsFirst(lu, 2);
    assert forall j :: j !in Flags(none);
  }

  /** DirectionsExtensions.ToVector2: the vector of the first basic direction present, or zero. */
  method ToVector2(d: Directions) returns (v: Vector2)
    ensures v == Vector2Of(Mask(d))
  {
    for i := 0 to |BasicDirections|
      invariant forall j :: 0 <= j < i ==> !Has(d, BasicDirections[j])
    {
      if Has(d, BasicDirections[i]) {
        assert IsFirst(Mask(d), i);
        return BasicVector2s[i];
      }
    }
    return Zero;
  }

  /** DirectionsExtensions.ToRotation: the rotation of the first basic direction present, or 0. */
  method ToRotation(d: Directions) returns (r: int)
    ensures r == RotationOf(Mask(d))
  {
    for i := 0 to |BasicDirections|
      invariant forall j :: 0 <= j < i ==> !Has(d, BasicDirections[j])
    {
      if Has(d, BasicDirections[i]) {
        assert IsFirst(Mask(d), i);
        return BasicRotators[i] * RotationUnit;
      }
    }
    return 0;
  }

  // ---------------------------------------------------------------------
  // Every match: ToVector2List, ToRotationList
  // ---------------------------------------------------------------------

  /** The indices below `n` that the mask marks, in ascending order. */
  function PresentBelow(m: seq<bool>, n: int): (r: seq<int>)
    requires 0 <= n <= |m|
    ensures |r| <= n
    ensures forall k :: 0 <= k < |r| ==> 0 <= r[k] < n && m[r[k]]
    ensures forall k1, k2 :: 0 <= k1 < k2 < |r| ==> r[k1] < r[k2]
  {
    if n == 0 then []
    else PresentBelow(m, n - 1) + (if m[n - 1] then [n - 1] else [])
  }

  /** Every marked index below `n` is listed; `k` is its position. */
  lemma {:induction false} PresentBelowComplete(m: seq<bool>, n: int, i: int) returns (k: int)
    requires 0 <= i < n <= |m| && m[i]
    ensures 0 <= k < |PresentBelow(m, n)| && PresentBelow(m, n)[k] == i
  {
    var below := PresentBelow(m, n - 1);
    assert PresentBelow(m, n) == below + (if m[n - 1] then [n - 1] else []);
    if i < n - 1 {
      k := PresentBelowComplete(m, n - 1, i);
    } else {
      k := |below|;
    }
  }

  /** The head of the listed indices is the first marked index; none is listed when none is marked. */
  lemma {:induction false} PresentBelowHead(m: seq<bool>, n: int)
    requires 0 <= n <= |m|
    ensures |PresentBelow(m, n)| == 0 ==> forall j :: 0 <= j < n ==> !m[j]
    ensures |PresentBelow(m, n)| > 0 ==> IsFirst(m, PresentBelow(m, n)[0])
  {
    if n > 0 {
      PresentBelowHead(m, n - 1);
    }
  }

  /** The table entries the scan over the first `n` mask entries appends, in order. */
  function Collect<T>(m: seq<bool>, table: seq<T>, n: int): seq<T>
    requires 0 <= n <= |m| && n <= |table|
  {
    if n == 0 then []
    else Collect(m, table, n - 1) + (if m[n - 1] then [table[n - 1]] else [])
  }

  /** The collected list holds the table entry of each marked index, in ascending index order. */
  lemma {:induction false} CollectPicks<T>(m: seq<bool>, table: seq<T>, n: int)
    requires 0 <= n <= |m| && n <= |table|
    ensures |Collect(m, table, n)| == |PresentBelow(m, n)|
    ensures forall k :: 0 <= k < |PresentBelow(m, n)| ==>
      Collect(m, table, n)[k] == table[PresentBelow(m, n)[k]]
  {
    if n > 0 {
      CollectPicks(m, table, n - 1);
    }
  }

  /** The table indices below `n` that the mask marks. */
  function FlagsBelow(m: seq<bool>, n: int): set<int>
  {
    set i | 0 <= i < n && i < |m| && m[i]
  }

  /** One index per marked entry: the scan visits each basic direction present exactly once. */
  lemma {:induction false} PresentBelowCount(m: seq<bool>, n: int)
    requires 0 <= n <= |m|
    ensures |PresentBelow(m, n)| == |FlagsBelow(m, n)|
  {
    if n == 0 {
      assert FlagsBelow(m, n) == {};
    } else {
      PresentBelowCount(m, n - 1);
      var below, added := FlagsBelow(m, n - 1), if m[n - 1] then {n - 1} else {};
      assert FlagsBelow(m, n) == below + added by {
        forall x ensures x in FlagsBelow(m, n) <==> x in below + added {
        }
      }
      assert below !! added;
    }
  }

  /** The list ToVector2List returns for the presence mask `m`. */
  function Vector2ListOf(m: seq<bool>): seq<Vector2>
    requires |m| == |BasicDirections|
  {
    Collect(m, BasicVector2s, |BasicDirections|)
  }

  /** The rotation, in degrees, of each table index: `BasicRotators[i] * RotationUnit`. */
  const BasicRotations: seq<int> :=
    [BasicRotators[0] * RotationUnit, BasicRotators[1] * RotationUnit,
     BasicRotators[2] * RotationUnit, BasicRotators[3] * RotationUnit]

  /** The list ToRotationList returns for the presence mask `m`. */
  function RotationListOf(m: seq<bool>): seq<int>
    requires |m| == |BasicDirections|
  {
    Collect(m, BasicRotations, |BasicDirections|)
  }

  /** One vector per basic direction present, so at most four. */
  lemma Vector2ListLength(m: seq<bool>)
    requires |m| == |BasicDirections|
    ensures |Vector2ListOf(m)| == |Flags(m)| <= 4
  {
    var n := |BasicDirections|;
    CollectPicks(m, BasicVector2s, n);
    PresentBelowCount(m, n);
    assert FlagsBelow(m, n) == Flags(m);
  }

  /** A basic vector occurs in the list exactly when its direction is present. */
  lemma Vector2ListMembers(m: seq<bool>, i: int)
    requires |m| == |BasicDirections| && 0 <= i < |BasicDirections|
    ensures BasicVector2s[i] in Vector2ListOf(m) <==> m[i]
  {
    var n := |BasicDirections|;
    var p, l := PresentBelow(m, n), Vector2ListOf(m);
    CollectPicks(m, BasicVector2s, n);
    if m[i] {
      var k := PresentBelowComplete(m, n, i);
      assert l[k] == BasicVector2s[i];
    }
    if BasicVector2s[i] in l {
      var k :| 0 <= k < |l| && l[k] == BasicVector2s[i];
      assert BasicVector2s[p[k]] == BasicVector2s[i];
    }
  }

  /** No vector occurs twice in the list. */
  lemma Vector2ListDistinct(m: seq<bool>)
    requires |m| == |BasicDirections|
    ensures forall k1, k2 :: 0 <= k1 < k2 < |Vector2ListOf(m)| ==> Vector2ListOf(m)[k1] != Vector2ListOf(m)[k2]
  {
    var p := PresentBelow(m, |BasicDirections|);
    CollectPicks(m, BasicVector2s, |BasicDirections|);
    forall k1, k2 | 0 <= k1 < k2 < |Vector2ListOf(m)| ensures Vector2ListOf(m)[k1] != Vector2ListOf(m)[k2] {
      assert p[k1] < p[k2];
    }
  }

  /**
    The rotations are strictly increasing multiples of 90 in [0, 270], one per
    entry of the vector list and each the rotation of that entry's direction;
    so the vectors come in the order Right, Down, Left, Up.
   */
  lemma RotationListShape(m: seq<bool>)
    requires |m| == |BasicDirections|
    ensures |RotationListOf(m)| == |Vector2ListOf(m)|
    ensures forall k1, k2 :: 0 <= k1 < k2 < |RotationListOf(m)| ==> RotationListOf(m)[k1] < RotationListOf(m)[k2]
    ensures forall k :: 0 <= k < |RotationListOf(m)| ==>
      RotationListOf(m)[k] % RotationUnit == 0 && 0 <= RotationListOf(m)[k] <= 3 * RotationUnit
    ensures forall k, i ::
      0 <= k < |Vector2ListOf(m)| && 0 <= i < |BasicDirections| && Vector2ListOf(m)[k] == BasicVector2s[i]
      ==> RotationListOf(m)[k] == i * RotationUnit
  {
    var n := |BasicDirections|;
    var p := PresentBelow(m, n);
    CollectPicks(m, BasicVector2s, n);
    CollectPicks(m, BasicRotations, n);
    forall k, i | 0 <= k < |Vector2ListOf(m)| && 0 <= i < n && Vector2ListOf(m)[k] == BasicVector2s[i]
      ensures RotationListOf(m)[k] == i * RotationUnit
    {
      assert BasicVector2s[p[k]] == BasicVector2s[i];
    }
  }

  /** A non-empty list starts with the single-value result. */
  lemma ListHeadsAreFirst(m: seq<bool>)
    requires |m| == |BasicDirections|
    ensures |Vector2ListOf(m)| > 0 ==> Vector2ListOf(m)[0] == Vector2Of(m)
    ensures |RotationListOf(m)| > 0 ==> RotationListOf(m)[0] == RotationOf(m)
  {
    var n := |BasicDirections|;
    var p := PresentBelow(m, n);
    CollectPicks(m, BasicVector2s, n);
    CollectPicks(m, BasicRotations, n);
    PresentBelowHead(m, n);
    if |p| > 0 {
      assert IsFirst(m, p[0]);
    }
  }

  /** When the lists are empty, the single-value results are zero. */
  lemma EmptyListsGiveZero(m: seq<bool>)
    requires |m| == |BasicDirections|
    ensures |Vector2ListOf(m)| == 0 ==> Vector2Of(m) == Zero && RotationOf(m) == 0
  {
    var n := |BasicDirections|;
    CollectPicks(m, BasicVector2s, n);
    PresentBelowHead(m, n);
    if |PresentBelow(m, n)| == 0 {
      assert forall j :: j !in Flags(m);
    }
  }

  /** DirectionsExtensions.ToVector2List: the vector of every basic direction present, in table order. */
  method ToVector2List(d: Directions) returns (list: seq<Vector2>)
    ensures list == Vector2ListOf(Mask(d))
  {
    list := [];
    for i := 0 to |BasicDirections|
      invariant list == Collect(Mask(d), BasicVector2s, i)
    {
      if Has(d, BasicDirections[i]) {
        list := list + [BasicVector2s[i]];
      }
    }
  }

  /** DirectionsExtensions.ToRotationList: the rotation of every basic direction present, in table order. */
  method ToRotationList(d: Directions) returns (list: seq<int>)
    ensures list == RotationListOf(Mask(d))
  {
    list := [];
    for i := 0 to |BasicDirections|
      invariant list == Collect(Mask(d), BasicRotations, i)
    {
      if Has(d, BasicDirections[i]) {
        list := list + [BasicRotations[i]];
      }
    }
  }

  // ---------------------------------------------------------------------
  // The tables as the static initializer builds them
  // ---------------------------------------------------------------------

  /** An exception a call can end with. */
  datatype Exception = NullReference | IndexOutOfRange | TypeInitialization

  /** How a call ends: with a value, or by throwing. */
  datatype Outcome<T> = Normal(value: T) | Throws(error: Exception)

  /**
    System.Collections.Immutable.ImmutableArray<T>: a struct around an array.
    Its default value, which `new()` yields for a struct, has no array at all.
   */
  datatype ImmutableArray<T> = Default | Backed(items: seq<T>)

  /** ImmutableArray<T>.Add: a new array one item longer; the receiver is left as it was. */
  function ImmutableAdd<T>(a: ImmutableArray<T>, x: T): (r: Outcome<ImmutableArray<T>>)
    ensures r.Throws? <==> a.Default?
  {
    match a
    case Default => Throws(NullReference)
    case Backed(items) => Normal(Backed(items + [x]))
  }

  /** ImmutableArray.Create(x0, x1, …), or the collection expression [x0, x1, …]. */
  function ImmutableCreate<T>(items: seq<T>): ImmutableArray<T>
  {
    Backed(items)
  }

  /** The indexer `a[i]`. */
  function ElementAt<T>(a: ImmutableArray<T>, i: int): (r: Outcome<T>)
    ensures r.Normal? <==> a.Backed? && 0 <= i < |a.items|
  {
    match a
    case Default => Throws(NullReference)
    case Backed(items) => if 0 <= i < |items| then Normal(items[i]) else Throws(IndexOutOfRange)
  }

  /**
    A collection initializer `new() { x0, x1, … }` for an ImmutableArray<T>,
    as C# lowers it: take the struct `t` and call `t.Add(x)` once per item,
    discarding what each call returns. On a default struct the first `Add`
    throws; on any other struct the array is left as it was.
   */
  function CollectionInitializer<T>(t: ImmutableArray<T>, items: seq<T>): (r: Outcome<ImmutableArray<T>>)
    ensures t.Default? && |items| > 0 ==> r == Throws(NullReference)
    ensures t.Backed? || |items| == 0 ==> r == Normal(t)
    decreases |items|
  {
    if |items| == 0 then Normal(t)
    else match ImmutableAdd(t, items[0])
      case Throws(e) => Throws(e)
      case Normal(_) => CollectionInitializer(t, items[1..])
  }

  /** The three tables, in declaration order. */
  datatype Tables = Tables(directions: ImmutableArray<Directions>, vectors: ImmutableArray<Vector2>, rotators: ImmutableArray<int>)

  /**
    The class's static initializer as written: the three field initializers
    run in declaration order, each a collection initializer on the default
    struct; if one throws, type initialization fails.
   */
  function TablesAsWritten(): Outcome<Tables>
  {
    match CollectionInitializer(Default, BasicDirections)
    case Throws(_) => Throws(TypeInitialization)
    case Normal(directions) =>
      match CollectionInitializer(Default, BasicVector2s)
      case Throws(_) => Throws(TypeInitialization)
      case Normal(vectors) =>
        match CollectionInitializer(Default, BasicRotators)
        case Throws(_) => Throws(TypeInitialization)
        case Normal(rotators) => Normal(Tables(directions, vectors, rotators))
  }

  /** The static initializer with each table built by ImmutableArray.Create. */
  function TablesCorrected(): Outcome<Tables>
  {
    Normal(Tables(ImmutableCreate(BasicDirections), ImmutableCreate(BasicVector2s), ImmutableCreate(BasicRotators)))
  }

  /** Reading `BasicDirections[i]` once the static initializer ended with `init`. */
  function ReadDirection(init: Outcome<Tables>, i: int): Outcome<Directions>
  {
    if init.Throws? then Throws(TypeInitialization) else ElementAt(init.value.directions, i)
  }

  /** Reading `BasicVector2s[i]` once the static initializer ended with `init`. */
  function ReadVector(init: Outcome<Tables>, i: int): Outcome<Vector2>
  {
    if init.Throws? then Throws(TypeInitialization) else ElementAt(init.value.vectors, i)
  }

  /** Computing `BasicRotators[i] * RotationUnit` once the static initializer ended with `init`. */
  function ReadRotation(init: Outcome<Tables>, i: int): Outcome<int>
  {
    if init.Throws? then Throws(TypeInitialization)
    else match ElementAt(init.value.rotators, i)
      case Throws(e) => Throws(e)
      case Normal(q) => Normal(q * RotationUnit)
  }

  /** The scan of ToVector2 and ToRotation from index `i`, reading the tables `init` left. */
  function ScanCall(init: Outcome<Tables>, d: Directions, i: int): Outcome<Option<int>>
    requires 0 <= i <= 4
    decreases 4 - i
  {
    if i == 4 then Normal(Nothing)
    else match ReadDirection(init, i)
      case Throws(e) => Throws(e)
      case Normal(dir) => if Has(d, dir) then Normal(Some(i)) else ScanCall(init, d, i + 1)
  }

  /** A call of ToVector2 once the static initializer ended with `init`. */
  function ToVector2Call(init: Outcome<Tables>, d: Directions): Outcome<Vector2>
  {
    match ScanCall(init, d, 0)
    case Throws(e) => Throws(e)
    case Normal(Nothing) => Normal(Zero)
    case Normal(Some(i)) => ReadVector(init, i)
  }

  /** A call of ToRotation once the static initializer ended with `init`. */
  function ToRotationCall(init: Outcome<Tables>, d: Directions): Outcome<int>
  {
    match ScanCall(init, d, 0)
    case Throws(e) => Throws(e)
    case Normal(Nothing) => Normal(0)
    case Normal(Some(i)) => ReadRotation(init, i)
  }

  /** The first `n` rounds of ToVector2List's loop, reading the tables `init` left. */
  function ToVector2ListCall(init: Outcome<Tables>, d: Directions, n: int): Outcome<seq<Vector2>>
    requires 0 <= n <= 4
  {
    if n == 0 then Normal([])
    else match ToVector2ListCall(init, d, n - 1)
      case Throws(e) => Throws(e)
      case Normal(list) =>
        match ReadDirection(init, n - 1)
        case Throws(e) => Throws(e)
        case Normal(dir) =>
          if !Has(d, dir) then Normal(list)
          else match ReadVector(init, n - 1)
            case Throws(e) => Throws(e)
            case Normal(v) => Normal(list + [v])
  }

  /** The first `n` rounds of ToRotationList's loop, reading the tables `init` left. */
  function ToRotationListCall(init: Outcome<Tables>, d: Directions, n: int): Outcome<seq<int>>
    requires 0 <= n <= 4
  {
    if n == 0 then Normal([])
    else match ToRotationListCall(init, d, n - 1)
      case Throws(e) => Throws(e)
      case Normal(list) =>
        match ReadDirection(init, n - 1)
        case Throws(e) => Throws(e)
        case Normal(dir) =>
          if !Has(d, dir) then Normal(list)
          else match ReadRotation(init, n - 1)
            case Throws(e) => Throws(e)
            case Normal(q) => Normal(list + [q])
  }

  /** Once type initialization failed, every round of a list loop throws. */
  lemma {:induction false} ListCallsThrow(init: Outcome<Tables>, d: Directions, n: int)
    requires init.Throws? && 0 < n <= 4
    ensures ToVector2ListCall(init, d, n) == Throws(TypeInitialization)
    ensures ToRotationListCall(init, d, n) == Throws(TypeInitialization)
  {
    if n > 1 {
      ListCallsThrow(init, d, n - 1);
    }
  }

  /**
    As written, the static initializer throws, so every call of the four
    scan helpers throws, whatever the flag set.
   */
  lemma HelpersThrowAsWritten(d: Directions)
    ensures TablesAsWritten() == Throws(TypeInitialization)
    ensures ToVector2Call(TablesAsWritten(), d) == Throws(TypeInitialization)
    ensures ToRotationCall(TablesAsWritten(), d) == Throws(TypeInitialization)
    ensures ToVector2ListCall(TablesAsWritten(), d, 4) == Throws(TypeInitialization)
    ensures ToRotationListCall(TablesAsWritten(), d, 4) == Throws(TypeInitialization)
  {
    ListCallsThrow(TablesAsWritten(), d, 4);
  }

  /** With the corrected tables, the scan stops where the mask's first marked index is. */
  lemma {:induction false} ScanCorrected(d: Directions, i: int)
    requires 0 <= i <= 4
    ensures ScanCall(TablesCorrected(), d, i) == Normal(FirstFrom(Mask(d), i))
    decreases 4 - i
  {
    if i < 4 {
      ScanCorrected(d, i + 1);
    }
  }

  /** With the corrected tables, the list loops collect what the model's lists hold. */
  lemma {:induction false} ListCallsCorrected(d: Directions, n: int)
    requires 0 <= n <= 4
    ensures ToVector2ListCall(TablesCorrected(), d, n) == Normal(Collect(Mask(d), BasicVector2s, n))
    ensures ToRotationListCall(TablesCorrected(), d, n) == Normal(Collect(Mask(d), BasicRotations, n))
  {
    if n > 0 {
      ListCallsCorrected(d, n - 1);
      var i := n - 1;
      assert ReadDirection(TablesCorrected(), i) == Normal(BasicDirections[i]);
      assert Has(d, BasicDirections[i]) == Mask(d)[i];
      assert ReadVector(TablesCorrected(), i) == Normal(BasicVector2s[i]);
      assert ReadRotation(TablesCorrected(), i) == Normal(BasicRotations[i]);
      if !Mask(d)[i] {
        assert Collect(Mask(d), BasicVector2s, n) == Collect(Mask(d), BasicVector2s, i);
        assert Collect(Mask(d), BasicRotations, n) == Collect(Mask(d), BasicRotations, i);
      }
    }
  }

  /**
    With the tables built by ImmutableArray.Create, no call throws, and each
    returns what the methods above compute.
   */
  lemma HelpersCorrected(d: Directions)
    ensures ToVector2Call(TablesCorrected(), d) == Normal(Vector2Of(Mask(d)))
    ensures ToRotationCall(TablesCorrected(), d) == Normal(RotationOf(Mask(d)))
    ensures ToVector2ListCall(TablesCorrected(), d, 4) == Normal(Vector2ListOf(Mask(d)))
    ensures ToRotationListCall(TablesCorrected(), d, 4) == Normal(RotationListOf(Mask(d)))
  {
    ScanCorrected(d, 0);
    ListCallsCorrected(d, 4);
  }
}
