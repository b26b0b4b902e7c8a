# Direction flags of the Foliage demo, in Dafny

This project models `DirectionsExtensions` from the Foliage demo
(`demo/scripts/Basic/DirectionsExtensions.cs`). These are the helpers that
turn a `Directions` flag set into grid vectors and rotation angles. A flag
set holds some of the four basic directions Right, Down, Left and Up. The
helpers are:

- `Has(d1, d2)`: the bitwise containment test `(d1 & d2) == d2`.
- `ToVector2` and `ToRotation`: scan the lookup tables in the fixed order
  Right, Down, Left, Up and return the vector (`UnitX`, `UnitY`, `-UnitX`,
  `-UnitY`) or the rotation (index × 90) of the first basic direction
  present. They return zero when no basic direction is present.
- `ToVector2List` and `ToRotationList`: run the same scan and append the
  vector or rotation of every basic direction present.

Everything is in one module, `DirectionsExtensions`, in `directions_extensions.dfy`:

- `Directions` is a `bv4`, and `Has` is the same bitwise expression as in the source.
- Vectors are integer pairs and rotations are integers. Every value the helpers produce is integral.
- The four helpers are methods with the source's `for` loops and early
  returns. Each is proved against a specification function of the
  direction set's presence mask. `Mask(d)` has one boolean per table entry.
- Lemmas prove what those specification functions mean: first match,
  zero exactly when nothing is present, list contents, order, length and
  uniqueness, and how the lists relate to the single-value results.
- `Has` is linked to the mask by an inclusion lemma. Another lemma shows
  that the four bits are all there is: the mask determines the flag set.
- The class's static initializer is modelled twice, with calls that can
  throw. As written, it fails, so every scan helper throws (see
  "## Findings"). With the tables built by `ImmutableArray.Create`, the
  calls return exactly what the methods above return. The methods use
  the corrected tables.

Godot's y axis points down, so Down gives `(0, 1)` and Up gives `(0, -1)`.

## Model

| member | source | states |
|---|---|---|
| `DirectionsExtensions.Has` | demo/scripts/Basic/DirectionsExtensions.cs:16-17 | every set contains itself and the empty set; a set that contains a non-empty set is itself non-empty |
| `DirectionsExtensions.HasIffFlagsSubset` | demo/scripts/Basic/DirectionsExtensions.cs:16-17 | `Has(d1, d2)` holds exactly when every basic direction of `d2` is also in `d1` |
| `DirectionsExtensions.MaskDetermines` | demo/scripts/Basic/DirectionsExtensions.cs:8-9 | two flag sets are equal exactly when they hold the same basic directions (Right, Down, Left, Up are four distinct bits covering the whole set) |
| `DirectionsExtensions.NoFlagsIffNone` | demo/scripts/Basic/DirectionsExtensions.cs:8-9 | a flag set holds no basic direction exactly when it is `None` |
| `DirectionsExtensions.FirstFrom` | demo/scripts/Basic/DirectionsExtensions.cs:21-23 | the scan from index i stops at a present direction with none present before it, or finds none at all |
| `DirectionsExtensions.FirstPresent` | demo/scripts/Basic/DirectionsExtensions.cs:21-24 | the scan finds an index exactly when some basic direction is present, and that index is the lowest one present |
| `DirectionsExtensions.Vector2Of` | demo/scripts/Basic/DirectionsExtensions.cs:19-25 | the vector is that of the lowest-index direction present; it is zero exactly when none is present, and otherwise one of the four unit vectors |
| `DirectionsExtensions.RotationOf` | demo/scripts/Basic/DirectionsExtensions.cs:27-33 | the rotation is 90 × the lowest index present; it is 0 when none is present; it is a multiple of 90 in [0, 270]; it is 0 exactly when nothing is present or Right is present |
| `DirectionsExtensions.BasicDirectionMaps` | demo/scripts/Basic/DirectionsExtensions.cs:8-14 | each single basic direction maps to its own vector and to index × 90 |
| `DirectionsExtensions.MixedExamples` | demo/scripts/Basic/DirectionsExtensions.cs:19-33 | Right with Left gives (1, 0) and 0; Down with Up gives (0, 1); Left with Up gives 180; `None` gives zero and 0 |
| `DirectionsExtensions.ToVector2` | demo/scripts/Basic/DirectionsExtensions.cs:19-25 | the loop with early return yields the first-match vector of `d` |
| `DirectionsExtensions.ToRotation` | demo/scripts/Basic/DirectionsExtensions.cs:27-33 | the loop with early return yields the first-match rotation of `d` |
| `DirectionsExtensions.PresentBelow` | demo/scripts/Basic/DirectionsExtensions.cs:38-40 | the indices the scan appends for are all present, all below the bound, and strictly increasing |
| `DirectionsExtensions.PresentBelowComplete` | demo/scripts/Basic/DirectionsExtensions.cs:38-40 | every present index below the bound is appended, at a position it returns |
| `DirectionsExtensions.PresentBelowHead` | demo/scripts/Basic/DirectionsExtensions.cs:38-40 | the first appended index is the lowest present one; nothing is appended when nothing is present |
| `DirectionsExtensions.PresentBelowCount` | demo/scripts/Basic/DirectionsExtensions.cs:38-40 | the scan appends exactly once per present basic direction |
| `DirectionsExtensions.CollectPicks` | demo/scripts/Basic/DirectionsExtensions.cs:35-42 | the appended list holds the table entry of each present index, in ascending index order |
| `DirectionsExtensions.Vector2ListLength` | demo/scripts/Basic/DirectionsExtensions.cs:35-42 | the vector list has one entry per basic direction present, so at most four |
| `DirectionsExtensions.Vector2ListMembers` | demo/scripts/Basic/DirectionsExtensions.cs:35-42 | a basic vector occurs in the list exactly when its direction is present |
| `DirectionsExtensions.Vector2ListDistinct` | demo/scripts/Basic/DirectionsExtensions.cs:35-42 | the vector list has no duplicates |
| `DirectionsExtensions.RotationListShape` | demo/scripts/Basic/DirectionsExtensions.cs:44-51 | the rotation list is as long as the vector list and strictly increasing, each element is a multiple of 90 in [0, 270], and element k is the rotation of the direction of vector k (so the vectors come in the order Right, Down, Left, Up) |
| `DirectionsExtensions.ListHeadsAreFirst` | demo/scripts/Basic/DirectionsExtensions.cs:19-51 | a non-empty vector or rotation list starts with the single-value result of the same flag set |
| `DirectionsExtensions.EmptyListsGiveZero` | demo/scripts/Basic/DirectionsExtensions.cs:19-51 | when the vector list is empty, the single vector is zero and the single rotation is 0 |
| `DirectionsExtensions.ToVector2List` | demo/scripts/Basic/DirectionsExtensions.cs:35-42 | the loop that appends in place yields the list of vectors of every basic direction present, in table order |
| `DirectionsExtensions.ToRotationList` | demo/scripts/Basic/DirectionsExtensions.cs:44-51 | the loop that appends in place yields the list of rotations of every basic direction present, in table order |
| `DirectionsExtensions.CollectionInitializer` | demo/scripts/Basic/DirectionsExtensions.cs:8-13 | the collection initializer `new() {…}` on an `ImmutableArray<T>` throws `NullReferenceException` when it starts from the default struct and has at least one item; on a struct that has an array, it leaves the array as it was, because the results of `Add` are discarded |
| `DirectionsExtensions.ListCallsThrow` | demo/scripts/Basic/DirectionsExtensions.cs:35-51 | once type initialization has failed, every round of the `ToVector2List` and `ToRotationList` loops throws `TypeInitializationException` |
| `DirectionsExtensions.HelpersThrowAsWritten` | demo/scripts/Basic/DirectionsExtensions.cs:8-51 | as written, the static initializer fails, so `ToVector2`, `ToRotation`, `ToVector2List` and `ToRotationList` throw `TypeInitializationException` for every flag set |
| `DirectionsExtensions.ScanCorrected` | demo/scripts/Basic/DirectionsExtensions.cs:21-23 | with tables that hold their listed entries, the loop of `ToVector2` and `ToRotation` stops at the first basic direction present, as `FirstFrom` does |
| `DirectionsExtensions.ListCallsCorrected` | demo/scripts/Basic/DirectionsExtensions.cs:35-51 | with tables that hold their listed entries, the list loops build exactly the lists `ToVector2List` and `ToRotationList` are proved to build |
| `DirectionsExtensions.HelpersCorrected` | demo/scripts/Basic/DirectionsExtensions.cs:8-51 | with the tables built by `ImmutableArray.Create`, no call of the four helpers throws, and each returns what the model's methods return |

## Left out

- The demo's `Directions` enum body is not part of this model. The model
  takes Right, Down, Left and Up as the bits 1, 2, 4 and 8, as in
  `SOR-Foliage (Godot 2023)/scripts/Math/Directions.cs`. The containment
  test `Has` only needs them to be four distinct single bits.
- A C# flags enum can hold bits beyond its named members. `Directions`
  here is a `bv4`, so values with any other bit set are not modelled.
- Floating point: `Vector2` components and rotations are `float` in the
  source and integers here. The values are exact, with two exceptions:
  `-Vector2.UnitX` is (-1, -0.0) and `-Vector2.UnitY` is (-0.0, -1). The
  source's float comparison treats -0.0 as equal to 0, and the model does
  not distinguish them.
- `List<T>`: the returned list is a fresh object in the source. Here it is
  a sequence value, so list identity and capacity are not modelled.
- The rest of the repository is not part of this model. That includes the
  board and body tile index (`BodyData`, `BoardData`), the scene and
  display classes, and the resource tables.
- The order of the lookup tables follows
  `demo/scripts/Basic/DirectionsExtensions.cs:8-13`: Right, Down, Left, Up.
  Other files of the repository list the directions as Right, Up, Left,
  Down (`SOR-Foliage (Godot 2023)/scripts/Math/Direction.cs:8-11`,
  `SOR-Foliage (Godot 2023)/script/math/DirectionCode.cs:7-10`). Those are
  separate types, and they do not decide which direction the helpers
  pick first.

## Findings

| source | as written | input that shows it | evidently intended | confidence | as-written member | corrected member |
|---|---|---|---|---|---|---|
| demo/scripts/Basic/DirectionsExtensions.cs:8-13 | each table is initialized with `new() {…}`. For the struct `ImmutableArray<T>`, this is a collection initializer: it starts from the default struct, which has no array, and calls `Add` on it for each item, discarding the results. The first `Add` throws `NullReferenceException`, so the static initializer fails | any flag set, e.g. `Right`: `ToVector2(Right)` throws `TypeInitializationException` instead of returning (1, 0) | tables that hold the listed entries, e.g. built with `ImmutableArray.Create(…)` or a collection expression `[…]` | not executed; follows from the C# lowering of collection initializers and from `ImmutableArray<T>.Add` on a default array | `DirectionsExtensions.HelpersThrowAsWritten` | `DirectionsExtensions.HelpersCorrected` |
