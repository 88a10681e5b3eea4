/** The `--build-for` option of `snapcraft remote-build`: a comma-separated
    list of architectures, each entry stripped of surrounding whitespace. */
module BuildForArg {
  import opened Strings

  predicate IsStripped(a: string) {
    a == [] || (!IsSpace(a[0]) && !IsSpace(a[|a| - 1]))
  }

  /** The option's `type=` converter: `[arch.strip() for arch in arg.split(",")]`.
      There is one entry per comma plus one, no entry holds a comma, and no
      entry starts or ends with whitespace. */
  function ParseBuildFors(arg: string): (archs: seq<string>)
    ensures |archs| == multiset(arg)[','] + 1
    ensures forall a <- archs :: ',' !in a
    ensures forall a <- archs :: IsStripped(a)
  {
    var parts := Split(arg, ',');
    var archs := seq(|parts|, k requires 0 <= k < |parts| => Strip(parts[k]));
    assert forall k :: 0 <= k < |archs| ==> ',' !in archs[k] by {
      forall k | 0 <= k < |archs| ensures ',' !in archs[k] {
        assert parts[k] in parts;
        StripAbsent(parts[k], ',');
      }
    }
    archs
  }

  /** `a` is `field` with a leading and a trailing run of whitespace cut off. */
  predicate TrimmedFrom(a: string, field: string) {
    exists i, j :: 0 <= i <= j <= |field| && AllSpace(field[..i]) && AllSpace(field[j..]) && a == field[i..j]
  }

  /** Entry k of the converted list is the k-th comma-separated field of the
      argument with a leading and a trailing run of whitespace cut off. */
  lemma ParseFields(arg: string, k: nat)
    requires k < |ParseBuildFors(arg)|
    ensures k < |Split(arg, ',')| && TrimmedFrom(ParseBuildFors(arg)[k], Split(arg, ',')[k])
  {
    var field := Split(arg, ',')[k];
    var i := SpaceRunEnd(field, 0);
    var j := i + |Strip(field)|;
    assert ParseBuildFors(arg)[k] == Strip(field) == field[i..j];
    assert AllSpace(field[j..]) by {
      forall m | 0 <= m < |field[j..]| ensures IsSpace(field[j..][m]) {
        assert field[j..][m] == field[j + m];
      }
    }
  }

  /** Stripping a string adds no character to it. */
  lemma StripAbsent(s: string, c: char)
    requires c !in s
    ensures c !in Strip(s)
  {
    var i := SpaceRunEnd(s, 0);
    assert Strip(s) == s[i..i + |Strip(s)|];
  }

  /** A stripped string is left alone by `strip()`. */
  lemma StripStripped(a: string)
    requires IsStripped(a)
    ensures Strip(a) == a
  {
    assert SpaceRunEnd(a, 0) == 0;
    assert SpaceRunStart(a, 0, |a|) == |a|;
    assert a[0..|a|] == a;
  }

  /** Writing a list of comma-free, stripped entries as a comma-separated
      argument and parsing it gives the list back. */
  lemma {:induction false} ParseJoin(archs: seq<string>)
    requires |archs| >= 1
    requires forall a <- archs :: ',' !in a && IsStripped(a)
    ensures ParseBuildFors(Join(archs, ",")) == archs
  {
    SplitJoin(archs, ',');
    var parsed := ParseBuildFors(Join(archs, ","));
    forall k | 0 <= k < |archs| ensures parsed[k] == archs[k] {
      assert archs[k] in archs;
      StripStripped(archs[k]);
    }
  }
}
