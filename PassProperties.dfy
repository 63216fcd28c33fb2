/** What a successful pass of `read_iterator` holds, line by line of the
    input, and when a pass fails because the voxels are not square. */
module PassProperties {
  import opened Wrappers
  import opened CubeText
  import opened CubeFormat
  import opened CubeProperties
  import opened LineProperties
  import opened TextProperties
  import opened GridProperties

  /** Axis `i` of a run of axis lines is what line 4 + i parses to. */
  lemma {:induction false} AxesElement(conv: Conversions, lines: seq<string>, k: nat, i: nat)
    requires k <= 3 && i < k && ParseAxes(conv, lines, k).Success?
    ensures 3 + i < |lines| && ParseAxisLine(conv, Tokens(lines[3 + i])) == Success(ParseAxes(conv, lines, k).value[i])
    decreases k
  {
    if i < k - 1 {
      AxesElement(conv, lines, k - 1, i);
    }
  }

  /** Atom `j` of a run of atom lines is what line 7 + j parses to. */
  lemma {:induction false} AtomsElement(conv: Conversions, lines: seq<string>, n: nat, units: seq<real>, j: nat)
    requires |units| == 3 && j < n && ParseAtoms(conv, lines, n, units).Success?
    ensures 6 + j < |lines| && ParseAtomLine(conv, Tokens(lines[6 + j]), units) == Success(ParseAtoms(conv, lines, n, units).value[j])
    decreases n
  {
    if j < n - 1 {
      AtomsElement(conv, lines, n - 1, units, j);
    }
  }

  /** After a pass, axis `i` (voxel count, unit factor, step vector) is what
      line 4 + i parses to; `AxisLineFields` says what that is in tokens. */
  lemma AxesFromLines(conv: Conversions, lines: seq<string>, i: nat)
    requires Parse(conv, lines).Success? && i < 3
    ensures var p := Parse(conv, lines).value;
      |p.voxels.shape| == 3 && |p.unitConversion| == 3 && |p.voxelShape| == 3 && 3 + i < |lines|
      && ParseAxisLine(conv, Tokens(lines[3 + i])) == Success(Axis(p.voxels.shape[i], p.unitConversion[i], p.voxelShape[i]))
  {
    ParseSuccess(conv, lines);
    AxesElement(conv, lines, 3, i);
  }

  /** After a pass, the header is the first two lines glued together and the
      origin is the numbers of line 3 multiplied, axis by axis, by the unit
      factors (`Times` is that product). */
  lemma HeaderAndOrigin(conv: Conversions, lines: seq<string>)
    requires Parse(conv, lines).Success?
    ensures var p := Parse(conv, lines).value;
      var cl := ParseCountLine(conv, Tokens(lines[2]));
      p.header == lines[0] + lines[1]
      && cl.Success? && |cl.value.origin| == 3 && |p.unitConversion| == 3
      && p.origin == Times(cl.value.origin, p.unitConversion)
  {
    ParseSuccess(conv, lines);
  }

  /** On a diagonal matrix of step vectors, the voxel size of each axis is
      the length of its step vector times its unit factor: never negative,
      and its square is the step's squared length times the square of the
      unit factor. */
  lemma ScaleIsStepLength(rows: seq<seq<real>>, units: seq<real>)
    requires IsMatrix3(rows) && IsDiagonal(rows) && |units| == 3
    requires forall i :: 0 <= i < 3 ==> units[i] > 0.0
    ensures forall i :: 0 <= i < 3 ==>
      Scale(rows, units)[i] >= 0.0
      && Scale(rows, units)[i] * Scale(rows, units)[i] == SumSq(rows[i]) * (units[i] * units[i])
  {
    forall i | 0 <= i < 3
      ensures Scale(rows, units)[i] >= 0.0
      ensures Scale(rows, units)[i] * Scale(rows, units)[i] == SumSq(rows[i]) * (units[i] * units[i])
    {
      ScaleAxis(rows, units, i);
    }
  }

  lemma ScaleAxis(rows: seq<seq<real>>, units: seq<real>, i: nat)
    requires IsMatrix3(rows) && IsDiagonal(rows) && |units| == 3 && i < 3 && units[i] > 0.0
    ensures Scale(rows, units)[i] >= 0.0
    ensures Scale(rows, units)[i] * Scale(rows, units)[i] == SumSq(rows[i]) * (units[i] * units[i])
  {
    DiagonalRowSumSq(rows, i);
    AbsSquare(rows[i][i], units[i]);
  }

  lemma DiagonalRowSumSq(rows: seq<seq<real>>, i: nat)
    requires IsMatrix3(rows) && IsDiagonal(rows) && i < 3
    ensures SumSq(rows[i]) == rows[i][i] * rows[i][i]
  {
    var row := rows[i];
    assert forall j :: 0 <= j < 3 && j != i ==> row[j] == 0.0;
  }

  lemma AbsSquare(x: real, u: real)
    requires u > 0.0
    ensures Abs(x) * u >= 0.0 && (Abs(x) * u) * (Abs(x) * u) == x * x * (u * u)
  {
  }

  /** After a pass, the step vectors form a diagonal matrix and the voxel
      sizes are their lengths in Ångström, as `ScaleIsStepLength` states. */
  lemma PassScale(conv: Conversions, lines: seq<string>)
    requires Parse(conv, lines).Success?
    ensures var p := Parse(conv, lines).value;
      IsMatrix3(p.voxelShape) && IsDiagonal(p.voxelShape) && |p.unitConversion| == 3
      && (forall i :: 0 <= i < 3 ==> p.unitConversion[i] > 0.0)
      && p.scale == Scale(p.voxelShape, p.unitConversion)
  {
    ParseSuccess(conv, lines);
  }

  /** After a pass, the atoms read are as many as line 3 declares (none when
      it declares a negative number), and atom `j` is what line 7 + j parses
      to; `AtomLineFields` says what that is in tokens. */
  lemma AtomsFromLines(conv: Conversions, lines: seq<string>)
    requires Parse(conv, lines).Success?
    ensures var p := Parse(conv, lines).value;
      var cl := ParseCountLine(conv, Tokens(lines[2]));
      cl.Success? && |p.atoms| == Max0(cl.value.atomCount) && |p.unitConversion| == 3
      && forall j :: 0 <= j < |p.atoms| ==>
           6 + j < |lines| && ParseAtomLine(conv, Tokens(lines[6 + j]), p.unitConversion) == Success(p.atoms[j])
  {
    ParseSuccess(conv, lines);
    var p := Parse(conv, lines).value;
    forall j | 0 <= j < |p.atoms|
      ensures 6 + j < |lines| && ParseAtomLine(conv, Tokens(lines[6 + j]), p.unitConversion) == Success(p.atoms[j])
    {
      AtomsElement(conv, lines, |p.atoms|, p.unitConversion, j);
    }
  }

  /** Converting the tokens of a text into an array of the given shape
      succeeds exactly when every token converts and there are as many
      tokens as the shape has elements; the values are the tokens' values in
      order. */
  lemma PayloadSpec(conv: Conversions, text: string, shape: seq<nat>)
    ensures var ts := Tokens(text);
      ParsePayload(conv, text, shape).Success? <==>
        (forall k :: 0 <= k < |ts| ==> conv.toReal(ts[k]).Some?) && |ts| == Product(shape)
    ensures var ts := Tokens(text);
      ParsePayload(conv, text, shape).Success? ==>
        var g := ParsePayload(conv, text, shape).value;
        g.shape == shape && |g.values| == |ts|
        && forall k :: 0 <= k < |ts| ==> conv.toReal(ts[k]) == Some(g.values[k])
    ensures var ts := Tokens(text);
      (forall k :: 0 <= k < |ts| ==> conv.toReal(ts[k]).Some?) && |ts| != Product(shape) ==>
        ParsePayload(conv, text, shape) == Failure(WrongVoxelCount(Product(shape), |ts|))
  {
    RealsSpec(conv, Tokens(text));
  }

  /** After a pass, the voxel values are the tokens of every line after the
      atom lines, glued together, converted and packed in row-major order
      into the shape the axis lines declare. */
  lemma VoxelsFromLines(conv: Conversions, lines: seq<string>)
    requires Parse(conv, lines).Success?
    ensures var p := Parse(conv, lines).value;
      6 + |p.atoms| <= |lines|
      && var ts := Tokens(Concat(lines[6 + |p.atoms|..]));
      |p.voxels.shape| == 3 && |ts| == Product(p.voxels.shape) && |p.voxels.values| == |ts|
      && forall k :: 0 <= k < |ts| ==> conv.toReal(ts[k]) == Some(p.voxels.values[k])
  {
    PassPayload(conv, lines);
    var p := Parse(conv, lines).value;
    PayloadSpec(conv, Concat(lines[6 + |p.atoms|..]), p.voxels.shape);
  }

  /** After a pass, the grid is what the payload after the atom lines gives. */
  lemma PassPayload(conv: Conversions, lines: seq<string>)
    requires Parse(conv, lines).Success?
    ensures var p := Parse(conv, lines).value;
      6 + |p.atoms| <= |lines| && |p.voxels.shape| == 3
      && ParsePayload(conv, Concat(lines[6 + |p.atoms|..]), p.voxels.shape) == Success(p.voxels)
  {
    ParseSuccess(conv, lines);
  }

  /** Lines taken with their line boundaries kept: after a pass, the voxel
      values are the tokens of each line after the atom lines, line after
      line, converted. No token spans two lines. */
  lemma KeptLinesPayload(conv: Conversions, text: string)
    requires Parse(conv, SplitLinesKeepEnds(text)).Success?
    ensures var lines := SplitLinesKeepEnds(text);
      var p := Parse(conv, lines).value;
      6 + |p.atoms| <= |lines|
      && var ts := TokensOfLines(lines[6 + |p.atoms|..]);
      |p.voxels.values| == |ts| && forall k :: 0 <= k < |ts| ==> conv.toReal(ts[k]) == Some(p.voxels.values[k])
  {
    var lines := SplitLinesKeepEnds(text);
    VoxelsFromLines(conv, lines);
    KeptLinesTokens(text, 6 + |Parse(conv, lines).value.atoms|);
  }

  /** The same pass over `lines` with its first `k <= 3` axis lines present
      reads them alike whatever follows. */
  lemma {:induction false} ParseAxesPrefix(conv: Conversions, head: seq<string>, rest: seq<string>, k: nat)
    requires k <= 3 && 6 <= |head|
    ensures ParseAxes(conv, head + rest, k) == ParseAxes(conv, head, k)
  {
    if k > 0 {
      ParseAxesPrefix(conv, head, rest, k - 1);
      assert (head + rest)[2 + k] == head[2 + k];
    }
  }

  /** Six header lines whose step vectors are not diagonal make the pass
      fail as non-square, whatever the rest of the file holds. */
  lemma NonSquareFails(conv: Conversions, head: seq<string>, rest: seq<string>)
    requires |head| == 6 && ParseCountLine(conv, Tokens(head[2])).Success? && ParseAxes(conv, head, 3).Success?
    requires !IsDiagonal(Steps(ParseAxes(conv, head, 3).value))
    ensures Parse(conv, head + rest) == Failure(NonSquareVoxels)
  {
    var lines := head + rest;
    ParseAxesPrefix(conv, head, rest, 3);
    assert lines[2] == head[2] && lines[0] == head[0] && lines[1] == head[1];
    ParseStages(conv, lines);
    ParseBodyStages(conv, lines, lines[0] + lines[1], ParseCountLine(conv, Tokens(lines[2])).value, ParseAxes(conv, lines, 3).value);
  }

  /** The errors that reading lines and tokens raises: everything but the
      two checks on the whole file. */
  predicate LineError(e: ReadError) {
    e.MissingLine? || e.MissingToken? || e.NotAnInteger? || e.NotANumber? || e.WrongLength?
  }

  lemma AxisLineError(conv: Conversions, fields: seq<string>)
    requires ParseAxisLine(conv, fields).Failure?
    ensures LineError(ParseAxisLine(conv, fields).error)
  {
    RealsSpec(conv, Slice(fields, 1, 4));
  }

  lemma {:induction false} AxesError(conv: Conversions, lines: seq<string>, k: nat)
    requires k <= 3 && ParseAxes(conv, lines, k).Failure?
    ensures LineError(ParseAxes(conv, lines, k).error)
  {
    if ParseAxes(conv, lines, k - 1).Failure? {
      AxesError(conv, lines, k - 1);
    } else if 2 + k < |lines| {
      AxisLineError(conv, Tokens(lines[2 + k]));
    }
  }

  lemma AtomLineError(conv: Conversions, fields: seq<string>, units: seq<real>)
    requires |units| == 3 && ParseAtomLine(conv, fields, units).Failure?
    ensures LineError(ParseAtomLine(conv, fields, units).error)
  {
    RealsSpec(conv, Slice(fields, 2, 5));
  }

  lemma {:induction false} AtomsError(conv: Conversions, lines: seq<string>, n: nat, units: seq<real>)
    requires |units| == 3 && ParseAtoms(conv, lines, n, units).Failure?
    ensures LineError(ParseAtoms(conv, lines, n, units).error)
  {
    if ParseAtoms(conv, lines, n - 1, units).Failure? {
      AtomsError(conv, lines, n - 1, units);
    } else if 5 + n < |lines| {
      AtomLineError(conv, Tokens(lines[5 + n]), units);
    }
  }

  /** A pass fails as non-square exactly when the first six lines read and
      their step vectors are not diagonal. */
  lemma NonSquareExactly(conv: Conversions, lines: seq<string>)
    ensures Parse(conv, lines) == Failure(NonSquareVoxels) <==>
      6 <= |lines| && ParseCountLine(conv, Tokens(lines[2])).Success? && ParseAxes(conv, lines, 3).Success?
      && !IsDiagonal(Steps(ParseAxes(conv, lines, 3).value))
  {
    ParseStages(conv, lines);
    if |lines| >= 3 {
      var cl := ParseCountLine(conv, Tokens(lines[2]));
      if cl.Failure? {
        RealsSpec(conv, Slice(Tokens(lines[2]), 1, 4));
        assert LineError(Parse(conv, lines).error);
      } else {
        var axes := ParseAxes(conv, lines, 3);
        if axes.Failure? {
          AxesError(conv, lines, 3);
          assert LineError(Parse(conv, lines).error);
        } else {
          AxesShape(conv, lines);
          if IsDiagonal(Steps(axes.value)) {
            ParseRestNotNonSquare(conv, lines, cl.value, axes.value);
          } else {
            ParseBodyStages(conv, lines, lines[0] + lines[1], cl.value, axes.value);
          }
        }
      }
    }
  }

  /** Past the diagonal check, no stage fails as non-square. */
  lemma ParseRestNotNonSquare(conv: Conversions, lines: seq<string>, cl: CountLine, axes: seq<Axis>)
    requires 6 <= |lines| && |axes| == 3 && IsMatrix3(Steps(axes)) && IsDiagonal(Steps(axes))
    ensures ParseBody(conv, lines, lines[0] + lines[1], cl, axes) != Failure(NonSquareVoxels)
  {
    var n, units := Max0(cl.atomCount), Units(axes);
    ParseBodyStages(conv, lines, lines[0] + lines[1], cl, axes);
    if |cl.origin| == 3 {
      if ParseAtoms(conv, lines, n, units).Failure? {
        AtomsError(conv, lines, n, units);
      } else {
        RealsSpec(conv, Tokens(Concat(lines[6 + n..])));
      }
    }
  }

  /** `atom_count` after a pass: on success the atoms held before are kept as
      a prefix and as many follow as line 3 declares (none for a negative
      count); on failure there are none. */
  lemma AtomsAfter(st: CubeState, conv: Conversions, lines: seq<string>)
    ensures Parse(conv, lines).Success? ==>
      |lines| >= 3 && ParseCountLine(conv, Tokens(lines[2])).Success?
      && var atoms := After(st, Parse(conv, lines)).atoms;
      |atoms| == |st.atoms| + Max0(ParseCountLine(conv, Tokens(lines[2])).value.atomCount)
      && atoms[..|st.atoms|] == st.atoms
    ensures Parse(conv, lines).Failure? ==> After(st, Parse(conv, lines)).atoms == []
  {
    if Parse(conv, lines).Success? {
      AtomsFromLines(conv, lines);
      var atoms := After(st, Parse(conv, lines)).atoms;
      assert atoms == st.atoms + Parse(conv, lines).value.atoms;
      assert atoms[..|st.atoms|] == st.atoms;
    }
  }

  /** After a pass, the voxel at index `(x, y, z)` of the grid, stored in
      row-major order, is the value of payload token `(x * ny + y) * nz + z`. */
  lemma VoxelFromToken(conv: Conversions, lines: seq<string>, p: Parsed, x: nat, y: nat, z: nat)
    requires Parse(conv, lines) == Success(p) && InBounds(p.voxels.shape, [x, y, z])
    ensures 6 + |p.atoms| <= |lines|
    ensures var shape, ts := p.voxels.shape, Tokens(Concat(lines[6 + |p.atoms|..]));
      var k := FlatIndex(shape, [x, y, z]);
      k == Offset3(shape, x, y, z) && k < |ts| && k < |p.voxels.values|
      && conv.toReal(ts[k]) == Some(p.voxels.values[k])
  {
    VoxelsFromLines(conv, lines);
    GridVoxelIsToken(conv, Tokens(Concat(lines[6 + |p.atoms|..])), p.voxels, x, y, z);
  }

  lemma GridVoxelIsToken(conv: Conversions, ts: seq<string>, g: Grid, x: nat, y: nat, z: nat)
    requires InBounds(g.shape, [x, y, z]) && |ts| == Product(g.shape) && |g.values| == |ts|
    requires forall k :: 0 <= k < |ts| ==> conv.toReal(ts[k]) == Some(g.values[k])
    ensures var k := FlatIndex(g.shape, [x, y, z]);
      k == Offset3(g.shape, x, y, z) && k < |ts| && k < |g.values|
      && conv.toReal(ts[k]) == Some(g.values[k])
  {
    RowMajor3(g.shape, x, y, z);
    FlatIndexInRange(g.shape, [x, y, z]);
  }

  /** The atom lines are read alike whatever follows them. */
  lemma {:induction false} ParseAtomsPrefix(conv: Conversions, head: seq<string>, rest: seq<string>, n: nat, units: seq<real>)
    requires |units| == 3 && 6 + n <= |head|
    ensures ParseAtoms(conv, head + rest, n, units) == ParseAtoms(conv, head, n, units)
  {
    if n > 0 {
      ParseAtomsPrefix(conv, head, rest, n - 1, units);
      assert (head + rest)[5 + n] == head[5 + n];
    }
  }

  /** A token followed by a line boundary splits into the token alone. */
  lemma TokensOfEndedToken(a: string)
    requires IsToken(a)
    ensures Tokens(a + "\n") == [a]
  {
    TokensOfAppend(a, "\n");
    TokensOfToken(a);
    assert Tokens("\n") == [] by {
      assert "\n"[1..] == "";
    }
  }

  /** Two one-token lines, the first with its boundary kept: two tokens. */
  lemma KeptPairTokens(a: string, b: string)
    requires IsToken(a) && IsToken(b)
    ensures Tokens(Concat([a + "\n", b])) == [a, b]
  {
    assert [a + "\n", b][1..] == [b] && [b][1..] == [];
    assert Concat([b]) == b + "" == b;
    assert Concat([a + "\n", b]) == (a + "\n") + b;
    TokensOfEndedToken(a);
    TokensOfToken(b);
    TokensOfAppend(a + "\n", b);
  }

  /** The same two lines with the boundary stripped: one fused token. */
  lemma StrippedPairTokens(a: string, b: string)
    requires IsToken(a) && IsToken(b)
    ensures Tokens(Concat([a, b])) == [a + b]
  {
    assert [a, b][1..] == [b] && [b][1..] == [];
    assert Concat([b]) == b + "" == b;
    assert Concat([a, b]) == a + b;
    TokenAppend(a, b);
    TokensOfToken(a + b);
  }

  /** The finding on the `str` branch, on whole files: a file whose two
      payload lines `a` and `b` are read with the boundary after `a` kept
      fails once that boundary is stripped, as `splitlines()` strips it,
      because `"".join` fuses `a` and `b` into one token. */
  lemma FusedPayloadFails(conv: Conversions, head: seq<string>, a: string, b: string)
    requires 6 <= |head| && IsToken(a) && IsToken(b)
    requires Parse(conv, head + [a + "\n", b]).Success?
    requires |Parse(conv, head + [a + "\n", b]).value.atoms| == |head| - 6
    ensures Parse(conv, head + [a, b]).Failure?
  {
    var kept, stripped := head + [a + "\n", b], head + [a, b];
    var n := |head| - 6;
    ParseSuccess(conv, kept);
    assert kept[2] == stripped[2] == head[2];
    var cl := ParseCountLine(conv, Tokens(head[2])).value;
    ParseAxesPrefix(conv, head, [a + "\n", b], 3);
    ParseAxesPrefix(conv, head, [a, b], 3);
    var axes := ParseAxes(conv, head, 3).value;
    ParseAtomsPrefix(conv, head, [a + "\n", b], n, Units(axes));
    ParseAtomsPrefix(conv, head, [a, b], n, Units(axes));
    // The kept lines: two payload tokens fill the grid
    assert kept[6 + n..] == [a + "\n", b];
    KeptPairTokens(a, b);
    PayloadSpec(conv, Concat(kept[6 + n..]), Counts(axes));
    // The stripped lines: one fused token cannot fill it
    assert stripped[6 + n..] == [a, b];
    StrippedPairTokens(a, b);
    PayloadSpec(conv, Concat(stripped[6 + n..]), Counts(axes));
    ParseStages(conv, stripped);
    AxesShape(conv, stripped);
    ParseBodyStages(conv, stripped, stripped[0] + stripped[1], cl, axes);
  }
}
