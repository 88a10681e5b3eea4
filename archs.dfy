/** `_get_archs`: the architectures a remote build is started for, from the
    project's build plan, the `--build-for` list and the host architecture. */
module Archs {
  import opened Wrappers
  import opened Errors
  import opened Plans

  /** The build-fors of `filter_plan(plan, build_for=b)`: the entries whose
      build-for is `b`, in plan order. */
  function Matches(plan: seq<BuildInfo>, b: string): (r: seq<string>)
    ensures forall a <- r :: a == b
    ensures r == [] <==> forall i :: 0 <= i < |plan| ==> plan[i].buildFor != b
  {
    if plan == [] then []
    else
      var rest := Matches(plan[1..], b);
      assert forall i :: 1 <= i < |plan| ==> plan[i] == plan[1..][i - 1];
      (if plan[0].buildFor == b then [plan[0].buildFor] else []) + rest
  }

  /** `filter_plan` keeps one entry per plan entry building for `b`: the
      matches hold `b` exactly as often as the plan's build-fors do. */
  lemma {:induction false} MatchesCount(plan: seq<BuildInfo>, b: string)
    ensures |Matches(plan, b)| == multiset(BuildForsOf(plan))[b]
    ensures multiset(Matches(plan, b))[b] == multiset(BuildForsOf(plan))[b]
  {
    if plan != [] {
      MatchesCount(plan[1..], b);
      assert BuildForsOf(plan) == [plan[0].buildFor] + BuildForsOf(plan[1..]);
    }
  }

  /** The plan filtered by each of `buildFors` in turn, the matches concatenated. */
  function Filtered(plan: seq<BuildInfo>, buildFors: seq<string>): seq<string> {
    if buildFors == [] then []
    else Filtered(plan, buildFors[..|buildFors| - 1]) + Matches(plan, buildFors[|buildFors| - 1])
  }

  /** What `_get_archs` returns or raises.
      A project that declares platforms or architectures has its build plan
      filtered by `--build-for`; the filter raises `EmptyBuildPlanError` when
      its first value matches no entry. Otherwise `--build-for` is the list,
      and without it the host architecture alone. */
  function ResolveArchs(declaresPlatforms: bool, plan: seq<BuildInfo>, buildFors: seq<string>,
                        hostArch: string): Result<seq<string>, Error>
  {
    if declaresPlatforms then
      if buildFors == [] then Ok(BuildForsOf(plan))
      else if Matches(plan, buildFors[0]) == [] then Err(EmptyBuildPlan)
      else Ok(Filtered(plan, buildFors))
    else if buildFors != [] then Ok(buildFors)
    else Ok([hostArch])
  }

  /** The only error `_get_archs` raises is `EmptyBuildPlanError`, which
      carries no `retcode` of the command's own, unlike the validation errors. */
  lemma ResolveErrorCode(declaresPlatforms: bool, plan: seq<BuildInfo>, buildFors: seq<string>,
                         hostArch: string)
    ensures var r := ResolveArchs(declaresPlatforms, plan, buildFors, hostArch);
      r.Err? ==> r.error == EmptyBuildPlan && Retcode(r.error) == None
  {
  }

  /** Once the first filter value has matched, the accumulated list is never
      empty again. */
  lemma {:induction false} FilteredStartsWithFirst(plan: seq<BuildInfo>, buildFors: seq<string>)
    requires buildFors != []
    ensures |Filtered(plan, buildFors)| >= |Matches(plan, buildFors[0])|
    ensures Filtered(plan, buildFors)[..|Matches(plan, buildFors[0])|] == Matches(plan, buildFors[0])
  {
    var init := buildFors[..|buildFors| - 1];
    var first := Matches(plan, buildFors[0]);
    if init != [] {
      FilteredStartsWithFirst(plan, init);
      assert init[0] == buildFors[0];
      PrefixKept(Filtered(plan, init), Matches(plan, buildFors[|buildFors| - 1]), first);
    } else {
      assert Filtered(plan, init) == [];
      assert Filtered(plan, buildFors) == first;
      assert first[..|first|] == first;
    }
  }

  lemma PrefixKept(a: seq<string>, b: seq<string>, m: seq<string>)
    requires |m| <= |a| && a[..|m|] == m
    ensures |m| <= |a + b| && (a + b)[..|m|] == m
  {
    assert (a + b)[..|m|] == a[..|m|];
  }

  /** `_get_archs`. */
  method GetArchs(declaresPlatforms: bool, plan: seq<BuildInfo>, buildFors: seq<string>,
                  hostArch: string) returns (r: Result<seq<string>, Error>)
    ensures r == ResolveArchs(declaresPlatforms, plan, buildFors, hostArch)
    ensures declaresPlatforms && buildFors == [] ==> r == Ok(BuildForsOf(plan))
    ensures declaresPlatforms && buildFors != [] ==>
      (r == Err(EmptyBuildPlan) <==> Matches(plan, buildFors[0]) == []) &&
      (r.Ok? ==> r.value == Filtered(plan, buildFors))
    ensures !declaresPlatforms && buildFors != [] ==> r == Ok(buildFors)
    ensures !declaresPlatforms && buildFors == [] ==> r == Ok([hostArch])
  {
    var archs: seq<string> := [];
    if declaresPlatforms {
      // `--build-for` filters the project's build plan
      if buildFors != [] {
        var i := 0;
        while i < |buildFors|
          invariant 0 <= i <= |buildFors|
          invariant archs == Filtered(plan, buildFors[..i])
          invariant i > 0 ==> Matches(plan, buildFors[0]) != []
        {
          assert buildFors[..i + 1][..i] == buildFors[..i];
          archs := archs + Matches(plan, buildFors[i]);
          if archs == [] {
            assert i == 0 by {
              if i > 0 { FilteredStartsWithFirst(plan, buildFors[..i + 1]); }
            }
            return Err(EmptyBuildPlan);
          }
          i := i + 1;
        }
        assert buildFors[..i] == buildFors;
      } else {
        archs := BuildForsOf(plan);
      }
    } else if buildFors != [] {
      // no architectures in the project: `--build-for` is the list
      archs := buildFors;
    } else {
      archs := [hostArch];
    }
    r := Ok(archs);
  }

  /** Some entry of the plan builds for `a`. */
  predicate BuildsFor(plan: seq<BuildInfo>, a: string) {
    exists i :: 0 <= i < |plan| && plan[i].buildFor == a
  }

  /** A filter by `b` yields `b` exactly when some entry builds for it. */
  lemma MatchesMembers(plan: seq<BuildInfo>, b: string, a: string)
    ensures a in Matches(plan, b) <==> a == b && BuildsFor(plan, b)
  {
    var r := Matches(plan, b);
    if r != [] {
      assert r[0] in r;
    }
  }

  /** Every architecture `_get_archs` returns in filter mode is both a
      `--build-for` value and the build-for of some plan entry. */
  lemma {:induction false} FilteredMembers(plan: seq<BuildInfo>, buildFors: seq<string>, a: string)
    ensures a in Filtered(plan, buildFors) <==> a in buildFors && BuildsFor(plan, a)
  {
    if buildFors != [] {
      var init := buildFors[..|buildFors| - 1];
      var last := buildFors[|buildFors| - 1];
      FilteredMembers(plan, init, a);
      MatchesMembers(plan, last, a);
      assert buildFors == init + [last];
      assert a in buildFors <==> a in init || a == last;
    }
  }

  /** A successful resolution is never empty, whichever mode applies. */
  lemma ResolvedNonEmpty(declaresPlatforms: bool, plan: seq<BuildInfo>, buildFors: seq<string>,
                         hostArch: string)
    requires declaresPlatforms ==> plan != [] || buildFors != []
    ensures var r := ResolveArchs(declaresPlatforms, plan, buildFors, hostArch);
      r.Ok? ==> r.value != []
  {
    var r := ResolveArchs(declaresPlatforms, plan, buildFors, hostArch);
    if declaresPlatforms && buildFors != [] && r.Ok? {
      FilteredStartsWithFirst(plan, buildFors);
    }
  }

  /** The filter raises even when a later `--build-for` value does match:
      with a plan building only for `b`, filtering by `[a, b]` fails although
      the concatenated matches are `[b]`. */
  lemma FirstMissRaises(on: string, a: string, b: string)
    requires a != b
    ensures Filtered([BuildInfo(on, b)], [a, b]) == [b]
    ensures ResolveArchs(true, [BuildInfo(on, b)], [a, b], on) == Err(EmptyBuildPlan)
  {
    var plan := [BuildInfo(on, b)];
    assert Matches(plan, a) == [];
    assert Matches(plan, b) == [b];
    assert [a, b][..1] == [a];
    assert Filtered(plan, [a]) == [] by { assert [a][..0] == []; }
  }

  /** A later value that matches nothing is silently dropped: filtering the
      same plan by `[b, a]` gives `[b]`. */
  lemma LaterMissIgnored(on: string, a: string, b: string)
    requires a != b
    ensures ResolveArchs(true, [BuildInfo(on, b)], [b, a], on) == Ok([b])
  {
    var plan := [BuildInfo(on, b)];
    assert Matches(plan, a) == [];
    assert Matches(plan, b) == [b];
    assert [b, a][..1] == [b];
    assert Filtered(plan, [b]) == [b] by { assert [b][..0] == []; }
    assert Filtered(plan, [b, a]) == Filtered(plan, [b]) + Matches(plan, a);
    assert Matches(plan, [b, a][0]) != [];
  }
}
