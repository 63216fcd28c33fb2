/** The `Cubefile` object: its attributes, `reset`, `read_iterator`, the text
    branch of `read` and the derived read-only properties. */
module Cubefile {
  import opened Wrappers
  import opened CubeText
  import opened CubeFormat
  import opened CubeProperties

  class Cubefile {
    var filename: Option<string>
    var header: string
    /** Origin of the coordinate system (Å). */
    var origin: seq<real>
    /** One step vector per axis, in the units the file declares for that axis. */
    var voxelShape: array<seq<real>>
    /** Per axis, the factor that converts the file's unit to Å. */
    var unitConversion: array<real>
    /** Per axis, the voxel size in Å. */
    var scale: seq<real>
    var atoms: seq<Atom>
    var voxels: Grid

    /** The attributes as one value. */
    ghost function State(): CubeState
      reads this, voxelShape, unitConversion
    {
      CubeState(filename, header, origin, voxelShape[..], unitConversion[..], scale, atoms, voxels)
    }

    ghost predicate Valid()
      reads this, voxelShape, unitConversion
    {
      Consistent(State())
    }

    constructor ()
      ensures Valid() && State() == Default()
    {
      filename := None;
      header := "";
      origin := [0.0, 0.0, 0.0];
      voxelShape := new seq<real>[] [[1.0, 1.0, 1.0], [1.0, 1.0, 1.0], [1.0, 1.0, 1.0]];
      unitConversion := new real[] [1.0, 1.0, 1.0];
      scale := [1.0, 1.0, 1.0];
      atoms := [];
      voxels := Grid([0], []);
    }

    /** Every attribute back to its initial value, in new arrays. */
    method Reset()
      modifies this
      ensures Valid() && State() == Default()
      ensures fresh(voxelShape) && fresh(unitConversion)
    {
      var ones := new seq<real>[3](_ => [1.0, 1.0, 1.0]);
      var units := new real[3](_ => 1.0);
      assert ones[..] == Default().voxelShape && units[..] == Default().unitConversion;
      filename, header, atoms, voxels := None, "", [], Grid([0], []);
      origin, voxelShape, unitConversion, scale := [0.0, 0.0, 0.0], ones, units, [1.0, 1.0, 1.0];
      assert State() == Default();
      DefaultConsistent();
    }

    /** Number of voxels along each dimension (the shape of `voxels`). */
    function VoxelCount(): (shape: seq<nat>)
      reads this, voxelShape, unitConversion
      requires Valid()
      ensures Product(shape) == |voxels.values|
    {
      voxels.shape
    }

    /** Total number of voxels (the size of `voxels`). */
    function VoxelTotal(): (n: nat)
      reads this, voxelShape, unitConversion
      requires Valid()
      ensures n == |voxels.values|
    {
      Product(voxels.shape)
    }

    /** `atom_count`: the number of atoms held. What it is after a read,
        in terms of the file's line 3, is `PassProperties.AtomsAfter`. */
    function AtomCount(): (n: nat)
      reads this
      ensures n == |atoms|
    {
      |atoms|
    }

    /** `max_voxel_val`: the largest absolute voxel value. There is none, and
        numpy raises, when the array has no element. */
    function MaxVoxelVal(): (r: Option<real>)
      reads this, voxelShape, unitConversion
      requires Valid()
      ensures r.None? <==> Product(voxels.shape) == 0
      ensures r.Some? ==> forall k :: 0 <= k < |voxels.values| ==> Abs(voxels.values[k]) <= r.value
      ensures r.Some? ==> exists k :: 0 <= k < |voxels.values| && Abs(voxels.values[k]) == r.value
    {
      MaxAbs(voxels.values)
    }

    /** `read_iterator`: one pass over `lines`. Every exception resets the
        object and is raised again, here returned as `Fail`. */
    method ReadIterator(lines: seq<string>, conv: Conversions) returns (outcome: Outcome<ReadError>)
      requires Valid()
      modifies this, unitConversion, voxelShape
      ensures Valid()
      ensures State() == After(old(State()), Parse(conv, lines))
      ensures outcome == OutcomeOf(Parse(conv, lines))
    {
      outcome := ReadBody(lines, conv);
      if outcome.Fail? {
        Reset();
      } else {
        ConsistentAfter(old(State()), conv, lines);
      }
    }

    /** The `try` block of `read_iterator`. On failure it leaves the object
        half-updated; `ReadIterator` then resets it. */
    method ReadBody(lines: seq<string>, conv: Conversions) returns (outcome: Outcome<ReadError>)
      requires Valid()
      modifies this, unitConversion, voxelShape
      ensures outcome == OutcomeOf(Parse(conv, lines))
      ensures outcome.Pass? ==> State() == After(old(State()), Parse(conv, lines))
    {
      ParseStages(conv, lines);
      var countLine := ReadHead(lines, conv);
      if countLine.Failure? { return Fail(countLine.error); }

      // Lines 4-6: voxel count, step vector and unit of each axis
      ghost var axes;
      var voxelCount;
      voxelCount, axes := ReadAxes(lines, conv);
      if voxelCount.Failure? { return Fail(voxelCount.error); }
      AxesShape(conv, lines);
      outcome := ReadRest(lines, conv, header, countLine.value, voxelCount.value, axes);
    }

    /** Lines 1-3 of the `try` block: the header and the atom count and
        origin line, the origin stored before its units are known. */
    method ReadHead(lines: seq<string>, conv: Conversions) returns (countLine: Result<CountLine, ReadError>)
      modifies this`header, this`origin
      ensures countLine == if |lines| < 3 then Failure(MissingLine) else ParseCountLine(conv, Tokens(lines[2]))
      ensures countLine.Success? ==> header == lines[0] + lines[1] && origin == countLine.value.origin
    {
      // Lines 1-2: the header, two lines glued together
      if |lines| < 2 { return Failure(MissingLine); }
      header := lines[0] + lines[1];

      // Line 3: atom count and origin, the origin not yet converted
      if |lines| < 3 { return Failure(MissingLine); }
      countLine := ParseCountLine(conv, Tokens(lines[2]));
      if countLine.Failure? { return; }
      origin := countLine.value.origin;
    }

    /** The rest of the `try` block once the six header lines are read: the
        diagonal check, the origin conversion, the atoms and the payload. */
    method ReadRest(lines: seq<string>, conv: Conversions, ghost hd: string, countLine: CountLine,
                    counts: seq<nat>, ghost axes: seq<Axis>) returns (outcome: Outcome<ReadError>)
      requires 6 <= |lines| && |axes| == 3 && IsMatrix3(Steps(axes))
      requires header == hd && origin == countLine.origin && counts == Counts(axes)
      requires voxelShape[..] == Steps(axes) && unitConversion[..] == Units(axes)
      modifies this`origin, this`scale, this`voxels, this`atoms
      ensures outcome == OutcomeOf(ParseBody(conv, lines, hd, countLine, axes))
      ensures outcome.Pass? ==> State() == After(old(State()), ParseBody(conv, lines, hd, countLine, axes))
    {
      ParseBodyStages(conv, lines, hd, countLine, axes);
      // Non-square voxels: a step vector with a component off its own axis
      if !IsDiagonal(voxelShape[..]) {
        assert ParseBody(conv, lines, hd, countLine, axes) == Failure(NonSquareVoxels);
        return Fail(NonSquareVoxels);
      }

      // The origin converted now that the units are known
      if |origin| != 3 {
        assert ParseBody(conv, lines, hd, countLine, axes) == Failure(WrongLength(3, |origin|));
        return Fail(WrongLength(3, |origin|));
      }
      origin := Times(origin, unitConversion[..]);

      voxels := Grid(counts, seq(Product(counts), _ => 0.0));
      scale := Scale(voxelShape[..], unitConversion[..]);

      // Lines 7 on: one atom per line, appended to the atoms already held
      ghost var atomsRead := ParseAtoms(conv, lines, Max0(countLine.atomCount), Units(axes));
      var read := ReadAtoms(lines, conv, countLine.atomCount, unitConversion[..]);
      if read.Fail? {
        assert ParseBody(conv, lines, hd, countLine, axes) == Failure(atomsRead.error);
        return read;
      }

      // The remaining lines, glued together: the voxel values
      var payload := ParsePayload(conv, Concat(lines[6 + Max0(countLine.atomCount)..]), voxels.shape);
      if payload.Failure? {
        assert ParseBody(conv, lines, hd, countLine, axes) == Failure(payload.error);
        return Fail(payload.error);
      }
      voxels := payload.value;
      ghost var p := Parsed(hd, origin, Steps(axes), Units(axes), scale, atomsRead.value, payload.value);
      assert ParseBody(conv, lines, hd, countLine, axes) == Success(p);
      assert atoms == old(atoms) + p.atoms;
      assert State() == After(old(State()), Success(p));
      return Pass;
    }

    /** The loop over lines 4-6. The voxel counts are returned; the unit
        factors and the step vectors are stored axis by axis. */
    method ReadAxes(lines: seq<string>, conv: Conversions) returns (voxelCount: Result<seq<nat>, ReadError>, ghost axes: seq<Axis>)
      requires unitConversion.Length == 3 && voxelShape.Length == 3
      modifies unitConversion, voxelShape
      ensures voxelCount.Failure? ==> ParseAxes(conv, lines, 3) == Failure(voxelCount.error)
      ensures voxelCount.Success? ==> ParseAxes(conv, lines, 3) == Success(axes) && |axes| == 3
      ensures voxelCount.Success? ==>
        voxelCount.value == Counts(axes) && unitConversion[..] == Units(axes) && voxelShape[..] == Steps(axes)
    {
      var counts: seq<nat> := [0, 0, 0];
      axes := [];
      var i := 0;
      while i < 3
        invariant 0 <= i <= 3 && |counts| == 3
        invariant ParseAxes(conv, lines, i) == Success(axes)
        invariant forall k :: 0 <= k < i ==>
          counts[k] == axes[k].count && unitConversion[k] == axes[k].unit && voxelShape[k] == axes[k].step
      {
        if 3 + i >= |lines| {
          AxisLineFails(conv, lines, i, MissingLine);
          return Failure(MissingLine), axes;
        }
        var count := ReadAxis(conv, Tokens(lines[3 + i]), i);
        if count.Failure? {
          AxisLineFails(conv, lines, i, count.error);
          return Failure(count.error), axes;
        }
        counts := counts[i := count.value];
        axes := axes + [Axis(count.value, unitConversion[i], voxelShape[i])];
        i := i + 1;
      }
      AxesColumns(counts, unitConversion[..], voxelShape[..], axes);
      voxelCount := Success(counts);
    }

    /** One axis line, already split: its voxel count is returned, its unit
        factor and its step vector are stored at index `i`. */
    method ReadAxis(conv: Conversions, fields: seq<string>, i: nat) returns (count: Result<nat, ReadError>)
      requires i < 3 && unitConversion.Length == 3 && voxelShape.Length == 3
      modifies unitConversion, voxelShape
      ensures count.Failure? ==> ParseAxisLine(conv, fields) == Failure(count.error)
      ensures count.Success? ==> ParseAxisLine(conv, fields) == Success(Axis(count.value, unitConversion[i], voxelShape[i]))
      ensures forall k :: 0 <= k < 3 && k != i ==>
        unitConversion[k] == old(unitConversion[k]) && voxelShape[k] == old(voxelShape[k])
    {
      var declared := IntAt(conv, fields, 0);
      if declared.Failure? { return Failure(declared.error); }
      var n: nat;
      // A negative count means Å, any other count Bohr
      if declared.value < 0 {
        n := -declared.value;
        unitConversion[i] := 1.0;
      } else {
        n := declared.value;
        unitConversion[i] := BohrToAngstrom;
      }
      var step := Reals(conv, Slice(fields, 1, 4));
      if step.Failure? { return Failure(step.error); }
      if |step.value| != 3 { return Failure(WrongLength(3, |step.value|)); }
      voxelShape[i] := step.value;
      return Success(n);
    }

    /** The loop over the atom lines: `count` of them (none when `count` is
        negative), each appended to `atoms`. */
    method ReadAtoms(lines: seq<string>, conv: Conversions, count: int, units: seq<real>) returns (outcome: Outcome<ReadError>)
      requires |units| == 3
      modifies this`atoms
      ensures outcome == OutcomeOf(ParseAtoms(conv, lines, Max0(count), units))
      ensures outcome.Pass? ==> atoms == old(atoms) + ParseAtoms(conv, lines, Max0(count), units).value
    {
      var n := 0;
      ghost var read: seq<Atom> := [];
      while n < count
        invariant 0 <= n <= Max0(count)
        invariant atoms == old(atoms) + read
        invariant ParseAtoms(conv, lines, n, units) == Success(read)
      {
        ParseAtomsStep(conv, lines, n, units);
        if 6 + n >= |lines| {
          ParseAtomsFailure(conv, lines, n + 1, Max0(count), units);
          return Fail(MissingLine);
        }
        var atom := ParseAtomLine(conv, Tokens(lines[6 + n]), units);
        if atom.Failure? {
          ParseAtomsFailure(conv, lines, n + 1, Max0(count), units);
          return Fail(atom.error);
        }
        atoms := atoms + [atom.value];
        read := read + [atom.value];
        n := n + 1;
      }
      return Pass;
    }

    /** `read` given a `str` that is not a file path: its lines, without their
        line boundaries, read by `ReadIterator`. */
    method ReadText(text: string, conv: Conversions) returns (outcome: Outcome<ReadError>)
      requires Valid()
      modifies this, unitConversion, voxelShape
      ensures Valid()
      ensures State() == After(old(State()), Parse(conv, SplitLines(text)))
      ensures outcome == OutcomeOf(Parse(conv, SplitLines(text)))
    {
      outcome := ReadIterator(SplitLines(text), conv);
    }

    /** `read` given a `str`, with its lines split keeping their line
        boundaries (`splitlines(keepends=True)`). */
    method ReadTextKeepEnds(text: string, conv: Conversions) returns (outcome: Outcome<ReadError>)
      requires Valid()
      modifies this, unitConversion, voxelShape
      ensures Valid()
      ensures State() == After(old(State()), Parse(conv, SplitLinesKeepEnds(text)))
      ensures outcome == OutcomeOf(Parse(conv, SplitLinesKeepEnds(text)))
    {
      outcome := ReadIterator(SplitLinesKeepEnds(text), conv);
    }
  }
}
