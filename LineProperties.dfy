/** What one split line yields: each line parser succeeds exactly when its
    tokens are there and convert, and then holds the converted tokens. */
module LineProperties {
  import opened Wrappers
  import opened CubeText
  import opened CubeFormat

  /** Converting a list of tokens succeeds exactly when every token converts;
      the values are the tokens' values in order, and on failure the error
      names the first token that does not convert. */
  lemma {:induction false} RealsSpec(conv: Conversions, fields: seq<string>)
    ensures Reals(conv, fields).Success? <==> forall k :: 0 <= k < |fields| ==> conv.toReal(fields[k]).Some?
    ensures Reals(conv, fields).Success? ==>
      |Reals(conv, fields).value| == |fields|
      && forall k :: 0 <= k < |fields| ==> conv.toReal(fields[k]) == Some(Reals(conv, fields).value[k])
    ensures Reals(conv, fields).Failure? ==>
      exists k :: 0 <= k < |fields| && conv.toReal(fields[k]).None?
        && Reals(conv, fields).error == NotANumber(fields[k])
        && forall j :: 0 <= j < k ==> conv.toReal(fields[j]).Some?
  {
    if fields != [] {
      RealsSpec(conv, fields[1..]);
      assert forall k :: 1 <= k < |fields| ==> fields[1..][k - 1] == fields[k];
      var r := Reals(conv, fields[1..]);
      if conv.toReal(fields[0]).Some? && r.Failure? {
        var k :| 0 <= k < |fields[1..]| && conv.toReal(fields[1..][k]).None?
          && r.error == NotANumber(fields[1..][k])
          && forall j :: 0 <= j < k ==> conv.toReal(fields[1..][j]).Some?;
        assert conv.toReal(fields[k + 1]).None?;
      }
    }
  }

  /** An axis line: success exactly when its first token is an integer and
      the next three are numbers. A negative count is negated and declares
      Ångström; any other count declares Bohr. Tokens after the fourth are
      ignored. */
  lemma AxisLineFields(conv: Conversions, fields: seq<string>)
    ensures ParseAxisLine(conv, fields).Success? <==>
      |fields| >= 4 && conv.toInt(fields[0]).Some? && forall k :: 1 <= k < 4 ==> conv.toReal(fields[k]).Some?
    ensures ParseAxisLine(conv, fields).Success? ==>
      var a, d := ParseAxisLine(conv, fields).value, conv.toInt(fields[0]).value;
      a.count == (if d < 0 then -d else d)
      && a.unit == (if d < 0 then 1.0 else BohrToAngstrom)
      && |a.step| == 3 && forall k :: 0 <= k < 3 ==> conv.toReal(fields[1 + k]) == Some(a.step[k])
    ensures |fields| >= 4 ==> forall extra :: ParseAxisLine(conv, fields + extra) == ParseAxisLine(conv, fields)
  {
    if |fields| >= 1 {
      SliceFacts(conv, fields, 1, 4);
    }
    forall extra | |fields| >= 4 ensures ParseAxisLine(conv, fields + extra) == ParseAxisLine(conv, fields) {
      assert Slice(fields + extra, 1, 4) == Slice(fields, 1, 4);
      assert (fields + extra)[0] == fields[0];
    }
  }

  /** The count line: success exactly when its first token is an integer and
      each of the (at most three) tokens after it is a number; the origin is
      those numbers. Tokens after the fourth are ignored. */
  lemma CountLineFields(conv: Conversions, fields: seq<string>)
    ensures ParseCountLine(conv, fields).Success? <==>
      |fields| >= 1 && conv.toInt(fields[0]).Some?
      && forall k :: 1 <= k < |fields| && k < 4 ==> conv.toReal(fields[k]).Some?
    ensures ParseCountLine(conv, fields).Success? ==>
      var cl := ParseCountLine(conv, fields).value;
      cl.atomCount == conv.toInt(fields[0]).value
      && |cl.origin| == (if |fields| < 4 then |fields| - 1 else 3)
      && forall k :: 0 <= k < |cl.origin| ==> conv.toReal(fields[1 + k]) == Some(cl.origin[k])
    ensures |fields| >= 4 ==> forall extra :: ParseCountLine(conv, fields + extra) == ParseCountLine(conv, fields)
  {
    if |fields| >= 1 {
      SliceFacts(conv, fields, 1, 4);
    }
    forall extra | |fields| >= 4 ensures ParseCountLine(conv, fields + extra) == ParseCountLine(conv, fields) {
      assert Slice(fields + extra, 1, 4) == Slice(fields, 1, 4);
      assert (fields + extra)[0] == fields[0];
    }
  }

  /** An atom line: success exactly when its first token is an integer and
      the next four are numbers; the position is the last three converted
      with the axes' unit factors. Tokens after the fifth are ignored. */
  lemma AtomLineFields(conv: Conversions, fields: seq<string>, units: seq<real>)
    requires |units| == 3
    ensures ParseAtomLine(conv, fields, units).Success? <==>
      |fields| >= 5 && conv.toInt(fields[0]).Some? && forall k :: 1 <= k < 5 ==> conv.toReal(fields[k]).Some?
    ensures ParseAtomLine(conv, fields, units).Success? ==>
      var a := ParseAtomLine(conv, fields, units).value;
      Some(a.element) == conv.toInt(fields[0]) && Some(a.charge) == conv.toReal(fields[1])
      && |a.xyz| == 3 && forall k :: 0 <= k < 3 ==> a.xyz[k] == conv.toReal(fields[2 + k]).value * units[k]
    ensures |fields| >= 5 ==> forall extra :: ParseAtomLine(conv, fields + extra, units) == ParseAtomLine(conv, fields, units)
  {
    if |fields| >= 2 {
      SliceFacts(conv, fields, 2, 5);
    }
    forall extra | |fields| >= 5 ensures ParseAtomLine(conv, fields + extra, units) == ParseAtomLine(conv, fields, units) {
      assert Slice(fields + extra, 2, 5) == Slice(fields, 2, 5);
      assert (fields + extra)[0] == fields[0] && (fields + extra)[1] == fields[1];
    }
  }

  /** `Reals` of a slice, index by index. */
  lemma SliceFacts(conv: Conversions, fields: seq<string>, lo: nat, hi: nat)
    requires lo <= hi && lo <= |fields|
    ensures var s := Slice(fields, lo, hi);
      |s| == (if hi <= |fields| then hi - lo else |fields| - lo)
      && (forall k :: 0 <= k < |s| ==> s[k] == fields[lo + k])
      && (Reals(conv, s).Success? <==> forall k :: lo <= k < |fields| && k < hi ==> conv.toReal(fields[k]).Some?)
      && (Reals(conv, s).Success? ==>
            |Reals(conv, s).value| == |s|
            && forall k :: 0 <= k < |s| ==> conv.toReal(fields[lo + k]) == Some(Reals(conv, s).value[k]))
  {
    var s := Slice(fields, lo, hi);
    RealsSpec(conv, s);
    assert forall k :: lo <= k < |fields| && k < hi ==> s[k - lo] == fields[k];
  }
}
