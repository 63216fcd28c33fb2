# Cubefile in Dafny

A model of the `Cubefile` class of the Python package Cubefile
(`Cubefile/Cubefile.py`), a reader for Gaussian cube files: volumetric data on
a grid, with a two-line header, a line with the atom count and the grid origin,
three axis lines (voxel count, unit and step vector per axis), one line per
atom, and the voxel values.

The model covers:

- `reset`;
- `read_iterator`, the one-pass parser;
- the `str` branch of `read`, which splits the text with `splitlines()` and
  hands the lines to `read_iterator`;
- the read-only properties `voxel_count`, `voxel_total`, `atom_count` and
  `max_voxel_val`.

Layout:

- `Wrappers.dfy`: `Option`, `Result` and `Outcome`.
- `CubeText.dfy`: the text functions the parser relies on:
  - Python's whitespace;
  - `str.split()`, the same as `re.findall(r"\S+", …)`;
  - `str.splitlines()`;
  - `"".join(…)`.
- `TextProperties.dfy`: what those text functions do. It covers round trips,
  tokens of joined texts, and lines kept with their boundaries.
- `CubeFormat.dfy`: one pass of `read_iterator` as pure functions.
  - `Parse(conv, lines)` is the parsed values or the first error raised, in the
    code's order.
  - `After(state, result)` is the object afterwards: the parsed values with the
    atoms appended, or the `reset` state.
  - `Default()` is the `reset` state.
  - `Consistent` is the object invariant.
- `CubeProperties.dfy`: `Parse` stage by stage, and the invariant kept by every
  pass.
- `LineProperties.dfy`: what each kind of line yields, token by token.
- `PassProperties.dfy`: what a successful pass holds, line by line of the input,
  and exactly when a pass fails as non-square.
- `GridProperties.dfy`: row-major indexing of the voxel array.
- `Cubefile.dfy`: the class.
  - Its fields mirror the attributes. `voxel_shape` and `unit_conversion` are
    arrays because `read_iterator` updates them in place, row by row. The
    atom list, which `read_iterator` appends to, is a sequence field that
    each append reassigns. The other attributes are rebound, so they are
    plain values.
  - The methods are proved against `Parse` and `After`: `Reset`,
    `ReadIterator` (split into `ReadBody`, `ReadHead`, `ReadAxes`, `ReadAxis`,
    `ReadRest` and `ReadAtoms`), `ReadText`, and `ReadTextKeepEnds` for the
    corrected `str` branch (see "## Findings").

Token conversions are parameters. `Conversions.toInt` is Python's `int(…)`.
`Conversions.toReal` is the float conversion of `float(…)` and
`numpy.asarray(…, dtype=float64)`. Each returns `None` where Python raises.
Numbers are `real`. Errors are the `ReadError` cases, one per kind of exception
the `try` block meets in reading lines and tokens and in its two checks.
numpy's allocation errors are not among them (see "## Left out"). A failure
returns `Fail(error)` where the source raises `ValueError`.

## Model

| member | source | states |
|---|---|---|
| CubeText.Tokens | Cubefile/Cubefile.py:144 | a text that starts with a non-space character has a first token, which starts with that character |
| CubeText.SplitLines | Cubefile/Cubefile.py:112 | no line contains a line boundary; there are lines exactly when the text is not empty |
| CubeText.SplitLinesKeepEnds | Cubefile/Cubefile.py:112 | there are lines exactly when the text is not empty (`splitlines(keepends=True)`, the corrected reading of the `str` branch) |
| TextProperties.TokensAreTokens | Cubefile/Cubefile.py:144 | every element `split()` yields is a non-empty run of non-whitespace characters |
| TextProperties.TokensOfUnwords | Cubefile/Cubefile.py:144 | `split()` undoes joining tokens with single spaces |
| TextProperties.TokensOfToken | Cubefile/Cubefile.py:144 | a single token splits into itself |
| TextProperties.TokensOfAppend | Cubefile/Cubefile.py:194 | the tokens of two texts joined with `""` are the tokens of each, except that the last token of the first and the first token of the second become one token when no whitespace lies between them |
| TextProperties.SplitLinesOfTerminated | Cubefile/Cubefile.py:112 | `splitlines()` gives back lines written one per `"\n"`-terminated line |
| TextProperties.ConcatOfSplitLinesKeepEnds | Cubefile/Cubefile.py:112 | joining the lines of `splitlines(keepends=True)` with `""` gives back the text |
| TextProperties.TokensOfSeparatedLines | Cubefile/Cubefile.py:194 | when every line but the last ends in whitespace, the tokens of the joined lines are the tokens of each line in turn |
| TextProperties.SplitLinesKeepEndsAreLines | Cubefile/Cubefile.py:112 | on every text, the lines kept with their ends are the lines `splitlines()` gives, each followed by the boundary that ended it (`"\r\n"` as one boundary, any other boundary character alone, none only after the last line), and a lone `"\r"` is never followed by a line starting with `"\n"`; with `ConcatOfSplitLinesKeepEnds` this pins both splits |
| TextProperties.KeepEndsSeparated | Cubefile/Cubefile.py:112 | with line boundaries kept, every line but the last ends in whitespace |
| TextProperties.KeptLinesTokens | Cubefile/Cubefile.py:194 | joining any run of lines kept with their boundaries and tokenising gives each line's tokens in turn |
| TextProperties.SplitLinesFuseTokens | Cubefile/Cubefile.py:112 | two one-token lines split by `splitlines()` and joined by `""` give one fused token, while the lines themselves hold two |
| CubeFormat.AxisUnit | Cubefile/Cubefile.py:152-158 | the stored count is the declared count or its negation; the unit factor is 1.0 exactly when the declared count is negative, and is always 1.0 or the Bohr constant |
| CubeFormat.ParseAxes | Cubefile/Cubefile.py:150-159 | a successful run of `k` axis lines gives `k` axes, needs lines 4 to 3 + k, and each axis has a 3-element step and a unit factor that is one of the two constants |
| CubeFormat.ParseAtoms | Cubefile/Cubefile.py:179-190 | a successful run of `n` atom lines gives `n` atoms, needs lines 7 to 6 + n, and each atom has three coordinates |
| CubeFormat.ParsePayload | Cubefile/Cubefile.py:193-199 | a payload that is read has exactly the declared shape and its values fill it |
| CubeFormat.MaxAbs | Cubefile/Cubefile.py:81 | there is a largest absolute value exactly when there are values; it bounds every value's absolute value and is attained by one |
| CubeProperties.ParseAxesFailure | Cubefile/Cubefile.py:150-159 | once an axis line fails, the loop over the axis lines fails with that error |
| CubeProperties.ParseAtomsFailure | Cubefile/Cubefile.py:179-190 | once an atom line fails, the loop over the atom lines fails with that error |
| CubeProperties.AxisLineFails | Cubefile/Cubefile.py:150-159 | after `i` good axis lines, a missing or bad line 4 + i is the error of the whole loop |
| CubeProperties.ParseAtomsStep | Cubefile/Cubefile.py:179-190 | one more atom line either fails the loop or appends its atom to the atoms read so far |
| CubeProperties.AxesShape | Cubefile/Cubefile.py:150-159 | three axis lines read make a 3x3 step matrix, after six lines at least |
| CubeProperties.ParseStages | Cubefile/Cubefile.py:139-159 | the pass fails with `MissingLine` before three lines, then with the count line's error, then with the axis lines' error, and otherwise continues past the six header lines |
| CubeProperties.ParseBodyStages | Cubefile/Cubefile.py:161-199 | past the header, the first failing stage decides the error, in the order: diagonal check, origin length, atoms, payload; when none fails, the value is built from every stage |
| CubeProperties.ParseSuccess | Cubefile/Cubefile.py:139-199 | a successful pass passed every stage, including the diagonal check, and its value is assembled from what the stages read |
| CubeProperties.DefaultConsistent | Cubefile/Cubefile.py:52-61 | the `reset` state satisfies the object invariant |
| CubeProperties.ParsedWellFormed | Cubefile/Cubefile.py:139-199 | a successful pass gives a 3-vector origin and scale, a 3x3 voxel shape, unit factors that are one of the two constants, atoms with three coordinates, and voxel values that fill their shape |
| CubeProperties.AppendInSpace | Cubefile/Cubefile.py:181 | atoms appended to atoms already held keep three coordinates each |
| CubeProperties.ConsistentAfter | Cubefile/Cubefile.py:139-205 | from a consistent object, success and failure alike lead to a consistent object |
| LineProperties.RealsSpec | Cubefile/Cubefile.py:146 | converting tokens succeeds exactly when every token converts, giving their values in order; on failure the error names the first token that does not convert |
| LineProperties.CountLineFields | Cubefile/Cubefile.py:144-146 | line 3 is read exactly when its first token is an integer and each of the next (at most three) is a number; the atom count and the origin are those values; tokens after the fourth are ignored |
| LineProperties.AxisLineFields | Cubefile/Cubefile.py:151-159 | an axis line is read exactly when its first token is an integer and the next three are numbers; a negative count is negated and declares Ångström, any other declares Bohr; the step is the three numbers; tokens after the fourth are ignored |
| LineProperties.AtomLineFields | Cubefile/Cubefile.py:180-190 | an atom line is read exactly when its first token is an integer and the next four are numbers; element is token 0, charge token 1, and each coordinate is token 2 + k times the unit factor of axis k; tokens after the fifth are ignored |
| LineProperties.SliceFacts | Cubefile/Cubefile.py:146 | a slice `[lo:hi]` stops at the end of the line, and converting it succeeds exactly when the tokens it covers convert |
| PassProperties.AxesElement | Cubefile/Cubefile.py:150-159 | axis `i` of a run of axis lines is what line 4 + i parses to |
| PassProperties.AtomsElement | Cubefile/Cubefile.py:179-190 | atom `j` of a run of atom lines is what line 7 + j parses to |
| PassProperties.AxesFromLines | Cubefile/Cubefile.py:149-159 | after a pass, the voxel count, unit factor and step vector of axis `i` are what line 4 + i parses to |
| PassProperties.HeaderAndOrigin | Cubefile/Cubefile.py:141-169 | after a pass, the header is lines 1 and 2 glued together, and the origin is the numbers of line 3 multiplied axis by axis by the unit factors |
| PassProperties.ScaleIsStepLength | Cubefile/Cubefile.py:173-176 | on a diagonal step matrix, each voxel size is non-negative and its square is the step vector's squared length times the square of the unit factor, so it is the step's Euclidean length in Ångström |
| PassProperties.PassScale | Cubefile/Cubefile.py:161-176 | after a pass, the step matrix is diagonal, the unit factors are positive and the voxel sizes are `Scale` of the two |
| PassProperties.AtomsFromLines | Cubefile/Cubefile.py:178-190 | after a pass, as many atoms were read as line 3 declares (none for a negative count), and atom `j` is what line 7 + j parses to |
| PassProperties.PayloadSpec | Cubefile/Cubefile.py:193-199 | the payload is read exactly when every token converts and there are as many tokens as the shape has elements; otherwise, with every token converting, the error is the wrong voxel count |
| PassProperties.VoxelsFromLines | Cubefile/Cubefile.py:192-199 | after a pass, the voxel values are the converted tokens of all lines after the atom lines glued together, and there are as many as the declared shape has elements |
| PassProperties.PassPayload | Cubefile/Cubefile.py:192-197 | after a pass, the grid is what the payload of the lines after the atom lines gives, in the declared three-dimensional shape |
| PassProperties.VoxelFromToken | Cubefile/Cubefile.py:193-197 | after a pass, the voxel at index `(x, y, z)` of the grid is the converted payload token number `(x * ny + y) * nz + z` |
| PassProperties.AtomsAfter | Cubefile/Cubefile.py:179-181 | what `atom_count` (`:73-76`) is after a pass: on success the atoms held before are kept as a prefix and `max(count, 0)` more follow, with `count` from line 3; on failure (`:204`) there are none |
| PassProperties.ParseAtomsPrefix | Cubefile/Cubefile.py:179-190 | the atom lines are read alike whatever follows them |
| PassProperties.KeptPairTokens | Cubefile/Cubefile.py:194 | two one-token lines, the first keeping its line boundary, joined with `""`, give the two tokens |
| PassProperties.StrippedPairTokens | Cubefile/Cubefile.py:194 | the same two lines without the boundary, joined with `""`, give one fused token |
| PassProperties.FusedPayloadFails | Cubefile/Cubefile.py:112 | a file whose two payload lines are read with the boundary between them kept fails once that boundary is stripped, as `splitlines()` strips it, whatever the header lines hold |
| PassProperties.KeptLinesPayload | Cubefile/Cubefile.py:192-199 | reading a text split with its line boundaries kept, the voxel values are the tokens of each payload line in turn |
| PassProperties.ParseAxesPrefix | Cubefile/Cubefile.py:148-159 | the axis lines are read alike whatever follows the six header lines |
| PassProperties.NonSquareFails | Cubefile/Cubefile.py:161-166 | six header lines whose step vectors are not diagonal make the pass fail as non-square, whatever the rest of the file holds |
| PassProperties.AxisLineError | Cubefile/Cubefile.py:151-159 | an axis line fails only for a missing token, a token that does not convert or a wrong slice length |
| PassProperties.AxesError | Cubefile/Cubefile.py:150-159 | the axis lines fail only with a line or token error |
| PassProperties.AtomLineError | Cubefile/Cubefile.py:180-190 | an atom line fails only for a missing token, a token that does not convert or a wrong slice length |
| PassProperties.AtomsError | Cubefile/Cubefile.py:179-190 | the atom lines fail only with a line or token error |
| PassProperties.ParseRestNotNonSquare | Cubefile/Cubefile.py:168-199 | past the diagonal check, no stage fails as non-square |
| PassProperties.NonSquareExactly | Cubefile/Cubefile.py:161-166 | a pass fails as non-square exactly when the first six lines are read and their step vectors are not diagonal |
| GridProperties.FlatIndexInRange | Cubefile/Cubefile.py:193-197 | an index within the shape lands within the values of a well-formed grid |
| GridProperties.RowMajor3 | Cubefile/Cubefile.py:196 | in C order, voxel `(x, y, z)` sits at `Offset3`, that is `(x * ny + y) * nz + z` |
| Cubefile.Cubefile.constructor | Cubefile/Cubefile.py:47-48 | a new object is in the `reset` state |
| Cubefile.Cubefile.Reset | Cubefile/Cubefile.py:52-61 | every attribute takes its default value, in newly allocated arrays |
| Cubefile.Cubefile.VoxelCount | Cubefile/Cubefile.py:63-66 | the product of the shape is the number of voxel values |
| Cubefile.Cubefile.VoxelTotal | Cubefile/Cubefile.py:68-71 | the total is the number of voxel values |
| Cubefile.Cubefile.MaxVoxelVal | Cubefile/Cubefile.py:78-81 | there is no maximum exactly when the array has no element; otherwise it bounds every voxel's absolute value and is attained by one |
| Cubefile.Cubefile.ReadIterator | Cubefile/Cubefile.py:122-205 | the object keeps its invariant; afterwards it is `After` the pass: on success the parsed values with the atoms appended to those held and the file name kept, on any failure the `reset` state; the outcome is the pass's error or success |
| Cubefile.Cubefile.ReadBody | Cubefile/Cubefile.py:139-199 | the `try` block ends with the pass's outcome and, on success, in the state `After` the pass |
| Cubefile.Cubefile.ReadHead | Cubefile/Cubefile.py:140-146 | the count line is read from line 3, or fails with `MissingLine`; on success the header is lines 1 and 2 glued and the origin is stored unconverted |
| Cubefile.Cubefile.ReadAxes | Cubefile/Cubefile.py:148-159 | the loop over the axis lines fails with the error of the first bad line, or stores each axis's unit factor and step vector at its index and returns the counts |
| Cubefile.Cubefile.ReadAxis | Cubefile/Cubefile.py:151-159 | one axis line fails as `ParseAxisLine` does, or stores its unit factor and step vector at index `i`, leaving the other indices unchanged |
| Cubefile.Cubefile.ReadRest | Cubefile/Cubefile.py:161-199 | the rest of the `try` block ends as the diagonal check, origin conversion, atoms and payload of the pass do, and on success in the state `After` the pass |
| Cubefile.Cubefile.ReadAtoms | Cubefile/Cubefile.py:178-190 | the atom loop reads `max(count, 0)` lines, appends their atoms in file order to those already held, or fails with the first bad line's error |
| Cubefile.Cubefile.ReadText | Cubefile/Cubefile.py:110-112 | reading a `str` is `read_iterator` over its `splitlines()`, with the same invariant, state and outcome |
| Cubefile.Cubefile.ReadTextKeepEnds | Cubefile/Cubefile.py:110-112 | the corrected `str` branch: `read_iterator` over the lines with their boundaries kept |

## Left out

- The file and iterator branches of `read` (`Cubefile/Cubefile.py:100-108`,
  114-120) are filesystem I/O and Python duck typing. So are `__init__`'s
  `data_source` argument, `__str__` and the `__main__` demo. The file branch
  also swallows `read_iterator`'s exception and then tries the path string as
  text. That is not modelled. `filename` is never set by the model, only kept.
- Token conversion: `int(…)` and the float conversion are the parameters of
  `Conversions`. `float(…)` at `:184` and numpy's conversion at `:159`/`:186`
  are taken to accept the same tokens.
- Floating point: numbers are exact reals, with no rounding, NaN or infinity.
- `numpy.linalg.norm`: `Scale` is the absolute diagonal entry times the unit
  factor. The diagonal check has passed by then. `ScaleIsStepLength` proves that
  this equals the step's Euclidean length, since it is non-negative and its
  square is the squared length.
- CubeFormat.Vector3: numpy broadcasting is not modelled. A slice of exactly one
  number is broadcast to three equal values by numpy: the origin at `:146`/`:169`,
  an axis row at `:159` and an atom position at `:186`. The model treats that
  case as a failure (`WrongLength`).
- CubeFormat.ParseBody: voxel counts are unbounded. `numpy.zeros` at `:172` and
  `reshape` at `:197` raise when the shape's size in bytes overflows numpy's
  64-bit index type, or when memory cannot hold it. `:203-205` then reset the
  object and raise `ValueError`. The model has no such limit: axis counts of
  2^63, 1 and 0 with an empty payload read successfully.
- Cubefile.Cubefile.atoms: the atom list is appended to in place at `:181`,
  so a caller holding the old list sees later atoms through it, while `reset`
  at `:60` binds a new list. The sequence field has no such sharing: the
  model captures the atoms the object holds, not other references to the list.
- `ValueError` arguments: the message text is reduced to the `ReadError` case.
- The check at `:198-199` cannot fail once `reshape` at `:197` has succeeded. It
  is folded into `ParsePayload`.
- The line iterator is a sequence of lines plus a position. The remaining lines
  consumed by `"".join(iterator)` are a suffix of that sequence.
- CubeText.Tokens: its own contract states only the first token. That every
  element is a token, the round trip and the behaviour on joined texts are
  separate lemmas (`TokensAreTokens`, `TokensOfUnwords`, `TokensOfAppend`).

## Findings

| source | as written | input that shows it | evidently intended | confidence | as-written member | corrected member |
|---|---|---|---|---|---|---|
| Cubefile/Cubefile.py:112 | the `str` branch splits the text with `splitlines()`, which drops line boundaries; `read_iterator` then glues the payload lines with `""` (`:194`), so a payload line ending in a number and the next starting with one make a single token | payload lines `1.5` and `2.5` become the one token `1.52.5` (then a conversion error or a wrong voxel count) | each line's tokens stay apart, as they do when the same text is read from a file, whose lines keep their `"\n"` | medium, not executed (typical writers pad each value with a leading space, which hides it) | Cubefile.Cubefile.ReadText, TextProperties.SplitLinesFuseTokens, PassProperties.FusedPayloadFails | Cubefile.Cubefile.ReadTextKeepEnds, PassProperties.KeptLinesPayload, TextProperties.SplitLinesKeepEndsAreLines |
