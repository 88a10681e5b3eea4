/** Build plans: the (build-on, build-for) pairs the project's build planner
    produces, and the views of a plan that the remote-build command takes. */
module Plans {

  /** One entry of the build plan. Only the two architectures are modelled. */
  datatype BuildInfo = BuildInfo(buildOn: string, buildFor: string)

  /** `[info.build_for for info in plan]`. */
  function BuildForsOf(plan: seq<BuildInfo>): (fors: seq<string>)
    ensures |fors| == |plan|
    ensures forall k :: 0 <= k < |plan| ==> fors[k] == plan[k].buildFor
  {
    seq(|plan|, k requires 0 <= k < |plan| => plan[k].buildFor)
  }

  /** The build-for of every entry that builds on `on`, in plan order. */
  function BuildForsOn(plan: seq<BuildInfo>, on: string): seq<string> {
    if plan == [] then []
    else
      var last := plan[|plan| - 1];
      BuildForsOn(plan[..|plan| - 1], on) + (if last.buildOn == on then [last.buildFor] else [])
  }

  /** The distinct build-on values of the plan, in order of first occurrence. */
  function BuildOns(plan: seq<BuildInfo>): seq<string> {
    if plan == [] then []
    else
      var earlier := BuildOns(plan[..|plan| - 1]);
      var on := plan[|plan| - 1].buildOn;
      if on in earlier then earlier else earlier + [on]
  }

  /** Some two entries of the plan build on `on`. */
  ghost predicate SharedBuildOn(plan: seq<BuildInfo>, on: string) {
    exists i, j :: 0 <= i < j < |plan| && plan[i].buildOn == on && plan[j].buildOn == on
  }

  /** `x` is listed for `on` exactly when some entry builds `x` on `on`. */
  lemma {:induction false} BuildForsOnMembers(plan: seq<BuildInfo>, on: string, x: string)
    ensures x in BuildForsOn(plan, on) <==> exists i :: 0 <= i < |plan| && plan[i] == BuildInfo(on, x)
  {
    if plan != [] {
      var init := plan[..|plan| - 1];
      BuildForsOnMembers(init, on, x);
      if exists i :: 0 <= i < |plan| && plan[i] == BuildInfo(on, x) {
        var i :| 0 <= i < |plan| && plan[i] == BuildInfo(on, x);
        if i < |plan| - 1 { assert init[i] == plan[i]; }
      }
      if exists i :: 0 <= i < |init| && init[i] == BuildInfo(on, x) {
        var i :| 0 <= i < |init| && init[i] == BuildInfo(on, x);
        assert plan[i] == init[i];
      }
    }
  }

  /** Something is listed for `on` exactly when some entry builds on `on`. */
  lemma {:induction false} BuildForsOnListed(plan: seq<BuildInfo>, on: string)
    ensures |BuildForsOn(plan, on)| > 0 <==> exists i :: 0 <= i < |plan| && plan[i].buildOn == on
  {
    if plan != [] {
      var n := |plan|;
      var init := plan[..n - 1];
      BuildForsOnListed(init, on);
      if exists i :: 0 <= i < n - 1 && init[i].buildOn == on {
        var i :| 0 <= i < n - 1 && init[i].buildOn == on;
        assert plan[i].buildOn == on;
      }
      if exists i :: 0 <= i < n && plan[i].buildOn == on {
        var i :| 0 <= i < n && plan[i].buildOn == on;
        if i < n - 1 { assert init[i].buildOn == on; }
      }
    }
  }

  /** More than one build-for is listed for `on` exactly when two entries of
      the plan build on `on`, whether or not their build-fors differ. */
  lemma {:induction false} BuildForsOnSize(plan: seq<BuildInfo>, on: string)
    ensures |BuildForsOn(plan, on)| > 1 <==> SharedBuildOn(plan, on)
    ensures |BuildForsOn(plan, on)| > 0 <==> exists i :: 0 <= i < |plan| && plan[i].buildOn == on
  {
    BuildForsOnListed(plan, on);
    if plan != [] {
      var n := |plan|;
      var init := plan[..n - 1];
      BuildForsOnSize(init, on);
      if SharedBuildOn(plan, on) {
        var i, j :| 0 <= i < j < n && plan[i].buildOn == on && plan[j].buildOn == on;
        assert init[i].buildOn == on;
        if j < n - 1 { assert init[j].buildOn == on; }
      }
      if SharedBuildOn(init, on) {
        var i, j :| 0 <= i < j < n - 1 && init[i].buildOn == on && init[j].buildOn == on;
        assert plan[i].buildOn == on && plan[j].buildOn == on;
      }
      if |BuildForsOn(init, on)| > 0 && plan[n - 1].buildOn == on {
        var i :| 0 <= i < n - 1 && init[i].buildOn == on;
        assert plan[i].buildOn == on;
      }
    }
  }

  /** The build-on values listed are exactly those of the plan's entries, and
      none is listed twice. */
  lemma {:induction false} BuildOnsMembers(plan: seq<BuildInfo>)
    ensures forall on :: on in BuildOns(plan) <==> exists i :: 0 <= i < |plan| && plan[i].buildOn == on
    ensures forall p, q :: 0 <= p < q < |BuildOns(plan)| ==> BuildOns(plan)[p] != BuildOns(plan)[q]
  {
    if plan != [] {
      var n := |plan|;
      var init := plan[..n - 1];
      BuildOnsMembers(init);
      assert forall i :: 0 <= i < n - 1 ==> plan[i] == init[i];
      forall on ensures on in BuildOns(plan) <==> exists i :: 0 <= i < n && plan[i].buildOn == on {
        if exists i :: 0 <= i < n && plan[i].buildOn == on {
          var i :| 0 <= i < n && plan[i].buildOn == on;
          if i < n - 1 { assert init[i].buildOn == on; }
        }
      }
    }
  }

  /** Build-ons are listed in order of first occurrence: every entry building
      on a later-listed value comes after some entry building on each
      earlier-listed one. */
  lemma {:induction false} BuildOnsOrder(plan: seq<BuildInfo>, p: nat, q: nat, j: nat)
    requires p < q < |BuildOns(plan)|
    requires j < |plan| && plan[j].buildOn == BuildOns(plan)[q]
    ensures exists i :: 0 <= i < j && plan[i].buildOn == BuildOns(plan)[p]
  {
    var n := |plan|;
    var init := plan[..n - 1];
    var ons := BuildOns(plan);
    var earlier := BuildOns(init);
    BuildOnsMembers(init);
    BuildOnsMembers(plan);
    assert forall i :: 0 <= i < n - 1 ==> plan[i] == init[i];
    if q < |earlier| {
      assert ons[q] == earlier[q] && ons[p] == earlier[p];
      if j < n - 1 {
        BuildOnsOrder(init, p, q, j);
        var i :| 0 <= i < j && init[i].buildOn == earlier[p];
        assert plan[i].buildOn == ons[p];
      } else {
        var j' :| 0 <= j' < n - 1 && init[j'].buildOn == earlier[q];
        BuildOnsOrder(init, p, q, j');
        var i :| 0 <= i < j' && init[i].buildOn == earlier[p];
        assert plan[i].buildOn == ons[p];
      }
    } else {
      // ons[q] is the last entry's build-on, new to the plan
      assert ons == earlier + [plan[n - 1].buildOn];
      assert ons[p] == earlier[p] && earlier[p] in earlier;
      var i :| 0 <= i < n - 1 && init[i].buildOn == earlier[p];
      assert plan[i].buildOn == ons[p];
      assert ons[q] !in earlier;
    }
  }
}
