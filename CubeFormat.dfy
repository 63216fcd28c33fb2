/** The Gaussian cube format as `Cubefile.read_iterator` reads it, as pure
    functions: what one pass over the lines produces, or the first error it
    raises, and the object state that results. */
module CubeFormat {
  import opened Wrappers
  import opened CubeText

  /** Bohr radius in Ångström (2018 CODATA). */
  const BohrToAngstrom: real := 5.29177210903 / 10.0

  /** The two conversions the parser applies to a token: Python's `int(…)` and
      the conversion to float64 of `float(…)` and `numpy.asarray(…, dtype)`.
      `None` is the `ValueError` they raise on a token they do not accept. */
  datatype Conversions = Conversions(toInt: string -> Option<int>, toReal: string -> Option<real>)

  /** The exceptions `read_iterator` catches, in the order the code can meet them. */
  datatype ReadError =
    | MissingLine                              // `next` on an exhausted iterator
    | MissingToken                             // indexing past the end of a split line
    | NotAnInteger(token: string)              // `int(token)` refused
    | NotANumber(token: string)                // the float conversion refused
    | WrongLength(expected: nat, found: nat)   // numpy could not fit a slice into a 3-vector
    | NonSquareVoxels                          // an off-diagonal step component is not zero
    | WrongVoxelCount(expected: nat, found: nat) // `reshape` of the payload failed

  /** One atom line: atomic number, charge, position in Ångström. */
  datatype Atom = Atom(element: int, charge: real, xyz: seq<real>)

  /** A numpy array: its shape and its values flattened in row-major (C) order. */
  datatype Grid = Grid(shape: seq<nat>, values: seq<real>)

  /** The attributes of a `Cubefile` object. */
  datatype CubeState = CubeState(
    filename: Option<string>,
    header: string,
    origin: seq<real>,
    voxelShape: seq<seq<real>>,
    unitConversion: seq<real>,
    scale: seq<real>,
    atoms: seq<Atom>,
    voxels: Grid)

  /** Number of elements of an array of the given shape. */
  function Product(shape: seq<nat>): nat {
    if shape == [] then 1 else shape[0] * Product(shape[1..])
  }

  predicate WellFormedGrid(g: Grid) {
    |g.values| == Product(g.shape)
  }

  function Abs(x: real): real {
    if x < 0.0 then -x else x
  }

  function Max0(n: int): nat {
    if n < 0 then 0 else n
  }

  /** The attributes `reset` gives an object. */
  function Default(): CubeState {
    CubeState(None, "", [0.0, 0.0, 0.0],
              [[1.0, 1.0, 1.0], [1.0, 1.0, 1.0], [1.0, 1.0, 1.0]],
              [1.0, 1.0, 1.0], [1.0, 1.0, 1.0], [], Grid([0], []))
  }

  /** What holds of every state an object reaches: three-element vectors, a
      3x3 voxel shape, unit factors that are one of the two constants, atom
      positions in three coordinates and voxel values that fill their shape. */
  predicate Consistent(st: CubeState) {
    |st.origin| == 3 && IsMatrix3(st.voxelShape) && |st.scale| == 3
    && |st.unitConversion| == 3
    && (forall i :: 0 <= i < 3 ==> st.unitConversion[i] == 1.0 || st.unitConversion[i] == BohrToAngstrom)
    && InSpace(st.atoms) && WellFormedGrid(st.voxels)
  }

  /** Every atom has a position in three coordinates. */
  predicate InSpace(atoms: seq<Atom>) {
    forall i :: 0 <= i < |atoms| ==> |atoms[i].xyz| == 3
  }

  // ---- Tokens of one line ----

  /** The line `next(iterator)` yields when the iterator stands at `i`. */
  function LineAt(lines: seq<string>, i: nat): (r: Result<string, ReadError>)
    ensures r.Success? <==> i < |lines|
    ensures r.Success? ==> r.value == lines[i]
    ensures r.Failure? ==> r.error == MissingLine
  {
    if i < |lines| then Success(lines[i]) else Failure(MissingLine)
  }

  /** `int(fields[i])`. */
  function IntAt(conv: Conversions, fields: seq<string>, i: nat): Result<int, ReadError> {
    if i >= |fields| then Failure(MissingToken)
    else match conv.toInt(fields[i])
      case Some(n) => Success(n)
      case None => Failure(NotAnInteger(fields[i]))
  }

  /** `float(fields[i])`. */
  function RealAt(conv: Conversions, fields: seq<string>, i: nat): Result<real, ReadError> {
    if i >= |fields| then Failure(MissingToken)
    else match conv.toReal(fields[i])
      case Some(x) => Success(x)
      case None => Failure(NotANumber(fields[i]))
  }

  /** Python's slice `fields[lo:hi]` for `0 <= lo <= hi`: it stops at the end
      of the list instead of failing. */
  function Slice(fields: seq<string>, lo: nat, hi: nat): (r: seq<string>)
    requires lo <= hi
  {
    if hi <= |fields| then fields[lo..hi]
    else if lo <= |fields| then fields[lo..]
    else []
  }

  /** Every token converted to a number, left to right; the first token that
      does not convert is the error. */
  function Reals(conv: Conversions, fields: seq<string>): (r: Result<seq<real>, ReadError>)
  {
    if fields == [] then Success([])
    else match conv.toReal(fields[0])
      case None => Failure(NotANumber(fields[0]))
      case Some(x) =>
        var rest :- Reals(conv, fields[1..]);
        Success([x] + rest)
  }

  /** A slice of numbers stored in, or combined with, a 3-vector. */
  function Vector3(xs: seq<real>): (r: Result<seq<real>, ReadError>)
    ensures r.Success? <==> |xs| == 3
    ensures r.Success? ==> r.value == xs
  {
    if |xs| == 3 then Success(xs) else Failure(WrongLength(3, |xs|))
  }

  /** Elementwise product of two 3-vectors (`numpy.multiply`). */
  function Times(xs: seq<real>, ys: seq<real>): (r: seq<real>)
    requires |xs| == 3 && |ys| == 3
    ensures |r| == 3 && forall k :: 0 <= k < 3 ==> r[k] == xs[k] * ys[k]
  {
    [xs[0] * ys[0], xs[1] * ys[1], xs[2] * ys[2]]
  }

  // ---- The header lines ----

  /** Line 3: atom count and origin, the origin still in the units of the axes. */
  datatype CountLine = CountLine(atomCount: int, origin: seq<real>)

  function ParseCountLine(conv: Conversions, fields: seq<string>): Result<CountLine, ReadError> {
    var atomCount :- IntAt(conv, fields, 0);
    var origin :- Reals(conv, Slice(fields, 1, 4));
    Success(CountLine(atomCount, origin))
  }

  /** Lines 4-6: one axis, its voxel count, its unit factor and its step vector. */
  datatype Axis = Axis(count: nat, unit: real, step: seq<real>)

  /** The sign rule: a negative count declares the axis in Ångström and is
      stored negated; any other count declares Bohr. */
  function AxisUnit(declared: int): (r: (nat, real))
    ensures r.0 == declared || r.0 == -declared
    ensures r.1 == 1.0 <==> declared < 0
    ensures r.1 == 1.0 || r.1 == BohrToAngstrom
  {
    if declared < 0 then (-declared, 1.0) else (declared, BohrToAngstrom)
  }

  function ParseAxisLine(conv: Conversions, fields: seq<string>): Result<Axis, ReadError> {
    var declared :- IntAt(conv, fields, 0);
    var (count, unit) := AxisUnit(declared);
    var raw :- Reals(conv, Slice(fields, 1, 4));
    var step :- Vector3(raw);
    Success(Axis(count, unit, step))
  }

  /** The first `k` axis lines, lines 4 to 3 + k. */
  function ParseAxes(conv: Conversions, lines: seq<string>, k: nat): (r: Result<seq<Axis>, ReadError>)
    requires k <= 3
    ensures r.Success? ==> |r.value| == k && (k > 0 ==> 3 + k <= |lines|)
    ensures r.Success? ==> forall i :: 0 <= i < k ==> |r.value[i].step| == 3
    ensures r.Success? ==> forall i :: 0 <= i < k ==> r.value[i].unit == 1.0 || r.value[i].unit == BohrToAngstrom
  {
    if k == 0 then Success([])
    else match ParseAxes(conv, lines, k - 1)
      case Failure(e) => Failure(e)
      case Success(prev) =>
        if 2 + k >= |lines| then Failure(MissingLine)
        else match ParseAxisLine(conv, Tokens(lines[2 + k]))
          case Failure(e) => Failure(e)
          case Success(axis) => Success(prev + [axis])
  }

  predicate IsMatrix3(rows: seq<seq<real>>) {
    |rows| == 3 && forall i :: 0 <= i < 3 ==> |rows[i]| == 3
  }

  /** No step vector has a component off its own axis. */
  predicate IsDiagonal(rows: seq<seq<real>>)
    requires IsMatrix3(rows)
  {
    forall i, j :: 0 <= i < 3 && 0 <= j < 3 && i != j ==> rows[i][j] == 0.0
  }

  /** Voxel size per axis: the length of the axis's step vector in Ångström.
      On a diagonal matrix the length of row `i` is the size of its entry `i`. */
  function Scale(rows: seq<seq<real>>, units: seq<real>): (r: seq<real>)
    requires IsMatrix3(rows) && |units| == 3
  {
    [Abs(rows[0][0]) * units[0], Abs(rows[1][1]) * units[1], Abs(rows[2][2]) * units[2]]
  }

  /** Squared Euclidean length of a 3-vector. */
  function SumSq(v: seq<real>): real requires |v| == 3 {
    v[0] * v[0] + v[1] * v[1] + v[2] * v[2]
  }

  // ---- Atom lines ----

  function ParseAtomLine(conv: Conversions, fields: seq<string>, units: seq<real>): Result<Atom, ReadError>
    requires |units| == 3
  {
    var element :- IntAt(conv, fields, 0);
    var charge :- RealAt(conv, fields, 1);
    var raw :- Reals(conv, Slice(fields, 2, 5));
    var xyz :- Vector3(raw);
    Success(Atom(element, charge, Times(xyz, units)))
  }

  /** The first `count` atom lines, lines 7 to 6 + count. */
  function ParseAtoms(conv: Conversions, lines: seq<string>, count: nat, units: seq<real>)
    : (r: Result<seq<Atom>, ReadError>)
    requires |units| == 3
    ensures r.Success? ==> |r.value| == count && (count > 0 ==> 6 + count <= |lines|)
    ensures r.Success? ==> forall i :: 0 <= i < count ==> |r.value[i].xyz| == 3
  {
    if count == 0 then Success([])
    else match ParseAtoms(conv, lines, count - 1, units)
      case Failure(e) => Failure(e)
      case Success(prev) =>
        if 5 + count >= |lines| then Failure(MissingLine)
        else match ParseAtomLine(conv, Tokens(lines[5 + count]), units)
          case Failure(e) => Failure(e)
          case Success(atom) => Success(prev + [atom])
  }

  // ---- The voxel payload ----

  /** The remaining text as numbers, packed into an array of the given shape. */
  function ParsePayload(conv: Conversions, text: string, shape: seq<nat>): (r: Result<Grid, ReadError>)
    ensures r.Success? ==> r.value.shape == shape && WellFormedGrid(r.value)
  {
    var values :- Reals(conv, Tokens(text));
    if |values| == Product(shape) then Success(Grid(shape, values))
    else Failure(WrongVoxelCount(Product(shape), |values|))
  }

  /** Position in `values` of the element at index `idx` of an array of the
      given shape stored in row-major (C) order. */
  function FlatIndex(shape: seq<nat>, idx: seq<nat>): nat
    requires |idx| == |shape|
  {
    if shape == [] then 0 else idx[0] * Product(shape[1..]) + FlatIndex(shape[1..], idx[1..])
  }

  predicate InBounds(shape: seq<nat>, idx: seq<nat>) {
    |idx| == |shape| && forall k :: 0 <= k < |shape| ==> idx[k] < shape[k]
  }

  /** Largest absolute value (`numpy.abs(values).max()`); there is none, and
      numpy raises, when `values` is empty. */
  function MaxAbs(values: seq<real>): (r: Option<real>)
    ensures r.Some? <==> |values| > 0
    ensures r.Some? ==> forall k :: 0 <= k < |values| ==> Abs(values[k]) <= r.value
    ensures r.Some? ==> exists k :: 0 <= k < |values| && Abs(values[k]) == r.value
  {
    if values == [] then None
    else match MaxAbs(values[1..])
      case None => Some(Abs(values[0]))
      case Some(m) => Some(if Abs(values[0]) < m then m else Abs(values[0]))
  }

  // ---- The whole file ----

  /** What a successful pass produces; `atoms` are the atoms it read. */
  datatype Parsed = Parsed(
    header: string,
    origin: seq<real>,
    voxelShape: seq<seq<real>>,
    unitConversion: seq<real>,
    scale: seq<real>,
    atoms: seq<Atom>,
    voxels: Grid)

  function Steps(axes: seq<Axis>): seq<seq<real>> requires |axes| == 3 {
    [axes[0].step, axes[1].step, axes[2].step]
  }

  function Units(axes: seq<Axis>): seq<real> requires |axes| == 3 {
    [axes[0].unit, axes[1].unit, axes[2].unit]
  }

  function Counts(axes: seq<Axis>): seq<nat> requires |axes| == 3 {
    [axes[0].count, axes[1].count, axes[2].count]
  }

  /** One pass of `read_iterator` over `lines`. */
  function Parse(conv: Conversions, lines: seq<string>): Result<Parsed, ReadError> {
    var first :- LineAt(lines, 0);
    var second :- LineAt(lines, 1);
    var countText :- LineAt(lines, 2);
    var countLine :- ParseCountLine(conv, Tokens(countText));
    var axes :- ParseAxes(conv, lines, 3);
    ParseBody(conv, lines, first + second, countLine, axes)
  }

  /** The rest of the pass once the six header lines are read: the diagonal
      check, the deferred conversion of the origin, the atoms and the payload. */
  function ParseBody(conv: Conversions, lines: seq<string>, header: string, countLine: CountLine, axes: seq<Axis>)
    : Result<Parsed, ReadError>
    requires 6 <= |lines| && |axes| == 3 && IsMatrix3(Steps(axes))
  {
    var rows, units := Steps(axes), Units(axes);
    if !IsDiagonal(rows) then Failure(NonSquareVoxels)
    else
      var origin :- Vector3(countLine.origin);
      var atoms :- ParseAtoms(conv, lines, Max0(countLine.atomCount), units);
      var voxels :- ParsePayload(conv, Concat(lines[6 + |atoms|..]), Counts(axes));
      Success(Parsed(header, Times(origin, units), rows, units, Scale(rows, units), atoms, voxels))
  }

  /** The object after a pass: on success the new values, with the atoms read
      appended to those already held and the file name untouched; on failure
      the `reset` state. */
  function After(st: CubeState, result: Result<Parsed, ReadError>): CubeState {
    match result
    case Failure(_) => Default()
    case Success(p) =>
      CubeState(st.filename, p.header, p.origin, p.voxelShape, p.unitConversion, p.scale,
                st.atoms + p.atoms, p.voxels)
  }

  /** Whether `read_iterator` returns or raises. */
  function OutcomeOf<T>(result: Result<T, ReadError>): Outcome<ReadError> {
    match result
    case Success(_) => Pass
    case Failure(e) => Fail(e)
  }
}
