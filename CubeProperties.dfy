/** What `read_iterator` promises, proved about the pure description of one
    pass in `CubeFormat`. */
module CubeProperties {
  import opened Wrappers
  import opened CubeText
  import opened CubeFormat

  /** An axis line that fails makes every longer run of axis lines fail alike. */
  lemma {:induction false} ParseAxesFailure(conv: Conversions, lines: seq<string>, k: nat, m: nat)
    requires k <= m <= 3 && ParseAxes(conv, lines, k).Failure?
    ensures ParseAxes(conv, lines, m) == ParseAxes(conv, lines, k)
    decreases m
  {
    if m > k {
      ParseAxesFailure(conv, lines, k, m - 1);
    }
  }

  /** An atom line that fails makes every longer run of atom lines fail alike. */
  lemma {:induction false} ParseAtomsFailure(conv: Conversions, lines: seq<string>, k: nat, m: nat, units: seq<real>)
    requires |units| == 3 && k <= m && ParseAtoms(conv, lines, k, units).Failure?
    ensures ParseAtoms(conv, lines, m, units) == ParseAtoms(conv, lines, k, units)
    decreases m
  {
    if m > k {
      ParseAtomsFailure(conv, lines, k, m - 1, units);
    }
  }

  /** After `i` good axis lines, a missing or bad line `i` is the error of all three. */
  lemma AxisLineFails(conv: Conversions, lines: seq<string>, i: nat, e: ReadError)
    requires i < 3 && ParseAxes(conv, lines, i).Success?
    requires if 3 + i >= |lines| then e == MissingLine
             else ParseAxisLine(conv, Tokens(lines[3 + i])) == Failure(e)
    ensures ParseAxes(conv, lines, 3) == Failure(e)
  {
    ParseAxesFailure(conv, lines, i + 1, 3);
  }

  /** One more atom line read after `n` good ones. */
  lemma ParseAtomsStep(conv: Conversions, lines: seq<string>, n: nat, units: seq<real>)
    requires |units| == 3 && ParseAtoms(conv, lines, n, units).Success?
    ensures ParseAtoms(conv, lines, n + 1, units)
         == if 6 + n >= |lines| then Failure(MissingLine)
            else match ParseAtomLine(conv, Tokens(lines[6 + n]), units)
              case Failure(e) => Failure(e)
              case Success(a) => Success(ParseAtoms(conv, lines, n, units).value + [a])
  {
  }

  /** Three axes stored column by column: counts, unit factors, step vectors. */
  lemma AxesColumns(counts: seq<nat>, units: seq<real>, rows: seq<seq<real>>, axes: seq<Axis>)
    requires |counts| == 3 && |units| == 3 && |rows| == 3 && |axes| == 3
    requires forall k :: 0 <= k < 3 ==> counts[k] == axes[k].count && units[k] == axes[k].unit && rows[k] == axes[k].step
    ensures counts == Counts(axes) && units == Units(axes) && rows == Steps(axes)
  {
  }

  /** Three axis lines read give a 3x3 voxel shape, after six lines at least. */
  lemma AxesShape(conv: Conversions, lines: seq<string>)
    requires ParseAxes(conv, lines, 3).Success?
    ensures 6 <= |lines| && IsMatrix3(Steps(ParseAxes(conv, lines, 3).value))
  {
  }

  /** A pass, stage by stage up to the end of the six header lines. */
  lemma ParseStages(conv: Conversions, lines: seq<string>)
    ensures |lines| < 3 ==> Parse(conv, lines) == Failure(MissingLine)
    ensures |lines| >= 3 && ParseCountLine(conv, Tokens(lines[2])).Failure? ==>
      Parse(conv, lines) == Failure(ParseCountLine(conv, Tokens(lines[2])).error)
    ensures |lines| >= 3 && ParseCountLine(conv, Tokens(lines[2])).Success? && ParseAxes(conv, lines, 3).Failure? ==>
      Parse(conv, lines) == Failure(ParseAxes(conv, lines, 3).error)
    ensures |lines| >= 3 && ParseCountLine(conv, Tokens(lines[2])).Success? && ParseAxes(conv, lines, 3).Success? ==>
      6 <= |lines| && Parse(conv, lines)
        == ParseBody(conv, lines, lines[0] + lines[1], ParseCountLine(conv, Tokens(lines[2])).value, ParseAxes(conv, lines, 3).value)
  {
  }

  /** The rest of a pass, stage by stage: the first stage that fails decides
      the error, and when none fails the value is built from every stage. */
  lemma ParseBodyStages(conv: Conversions, lines: seq<string>, hd: string, cl: CountLine, axes: seq<Axis>)
    requires 6 <= |lines| && |axes| == 3 && IsMatrix3(Steps(axes))
    ensures !IsDiagonal(Steps(axes)) ==> ParseBody(conv, lines, hd, cl, axes) == Failure(NonSquareVoxels)
    ensures IsDiagonal(Steps(axes)) && |cl.origin| != 3 ==>
      ParseBody(conv, lines, hd, cl, axes) == Failure(WrongLength(3, |cl.origin|))
    ensures var atoms := ParseAtoms(conv, lines, Max0(cl.atomCount), Units(axes));
      (IsDiagonal(Steps(axes)) && |cl.origin| == 3 && atoms.Failure?) ==>
        ParseBody(conv, lines, hd, cl, axes) == Failure(atoms.error)
    ensures var atoms := ParseAtoms(conv, lines, Max0(cl.atomCount), Units(axes));
      (IsDiagonal(Steps(axes)) && |cl.origin| == 3 && atoms.Success?) ==>
        var voxels := ParsePayload(conv, Concat(lines[6 + Max0(cl.atomCount)..]), Counts(axes));
        ParseBody(conv, lines, hd, cl, axes)
          == if voxels.Failure? then Failure(voxels.error)
             else Success(Parsed(hd, Times(cl.origin, Units(axes)), Steps(axes), Units(axes),
                                 Scale(Steps(axes), Units(axes)), atoms.value, voxels.value))
  {
  }

  /** The `reset` state satisfies the object invariant. */
  lemma DefaultConsistent()
    ensures Consistent(Default())
  {
    assert Product([0]) == 0;
  }

  /** A successful pass, taken apart: every stage succeeded, and the value is
      assembled from what the stages read. */
  lemma ParseSuccess(conv: Conversions, lines: seq<string>)
    requires Parse(conv, lines).Success?
    ensures 6 <= |lines| && ParseCountLine(conv, Tokens(lines[2])).Success? && ParseAxes(conv, lines, 3).Success?
    ensures var cl, axes := ParseCountLine(conv, Tokens(lines[2])).value, ParseAxes(conv, lines, 3).value;
      IsMatrix3(Steps(axes)) && IsDiagonal(Steps(axes)) && |cl.origin| == 3
      && ParseAtoms(conv, lines, Max0(cl.atomCount), Units(axes)).Success?
      && ParsePayload(conv, Concat(lines[6 + Max0(cl.atomCount)..]), Counts(axes)).Success?
      && Parse(conv, lines).value
         == Parsed(lines[0] + lines[1], Times(cl.origin, Units(axes)), Steps(axes), Units(axes),
                   Scale(Steps(axes), Units(axes)),
                   ParseAtoms(conv, lines, Max0(cl.atomCount), Units(axes)).value,
                   ParsePayload(conv, Concat(lines[6 + Max0(cl.atomCount)..]), Counts(axes)).value)
  {
    ParseStages(conv, lines);
    var cl := ParseCountLine(conv, Tokens(lines[2])).value;
    var axes := ParseAxes(conv, lines, 3).value;
    AxesShape(conv, lines);
    ParseBodyStages(conv, lines, lines[0] + lines[1], cl, axes);
  }

  /** What a successful pass produces: three-element vectors, a 3x3 voxel
      shape, unit factors that are one of the two constants, atom positions in
      three coordinates and voxel values that fill their shape. */
  predicate WellFormedParsed(p: Parsed) {
    |p.origin| == 3 && IsMatrix3(p.voxelShape) && |p.scale| == 3 && |p.unitConversion| == 3
    && (forall i :: 0 <= i < 3 ==> p.unitConversion[i] == 1.0 || p.unitConversion[i] == BohrToAngstrom)
    && InSpace(p.atoms) && WellFormedGrid(p.voxels)
  }

  /** Every successful pass produces well-formed values. */
  lemma ParsedWellFormed(conv: Conversions, lines: seq<string>)
    requires Parse(conv, lines).Success?
    ensures WellFormedParsed(Parse(conv, lines).value)
  {
    ParseSuccess(conv, lines);
  }

  /** Atoms appended to atoms already held keep three coordinates each. */
  lemma AppendInSpace(xs: seq<Atom>, ys: seq<Atom>)
    requires InSpace(xs) && InSpace(ys)
    ensures InSpace(xs + ys)
  {
    forall i | 0 <= i < |xs + ys| ensures |(xs + ys)[i].xyz| == 3 {
      if i >= |xs| {
        assert (xs + ys)[i] == ys[i - |xs|];
      }
    }
  }

  /** A pass keeps the object invariant: from a consistent state, success and
      failure alike lead to a consistent state. */
  lemma ConsistentAfter(st: CubeState, conv: Conversions, lines: seq<string>)
    requires Consistent(st)
    ensures Consistent(After(st, Parse(conv, lines)))
  {
    var r := Parse(conv, lines);
    if r.Success? {
      ParsedWellFormed(conv, lines);
      AppendInSpace(st.atoms, r.value.atoms);
    } else {
      DefaultConsistent();
    }
  }
}
