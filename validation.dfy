/** Pre-build validation of `snapcraft remote-build` (`_validate` and
    `_validate_single_artifact_per_build_on`): the public-upload
    acknowledgement, the supported-architecture check on `--build-for`, and
    the one-snap-per-build-on check on the build plan. */
module Validation {
  import opened Wrappers
  import opened Errors
  import opened Plans
  import opened Launchpad

  /** The project's privacy is asked for only when the upload was not
      acknowledged on the command line and a project was named. */
  predicate PrivacyQueried(acceptPublicUpload: bool, project: string) {
    !acceptPublicUpload && project != ""
  }

  /** The operator is asked to acknowledge that uploaded data is public when the
      upload was not acknowledged on the command line and no private project
      was named. */
  predicate AckPrompted(acceptPublicUpload: bool, project: string, projectPrivate: bool) {
    !acceptPublicUpload && (project == "" || !projectPrivate)
  }

  /** A `--build-for` value is accepted when it is a supported architecture or
      `all`. */
  predicate Allowed(arch: string, supported: seq<string>) {
    arch in supported + ["all"]
  }

  /** The first `--build-for` value that is not accepted, if any. */
  function FirstUnsupported(buildFors: seq<string>, supported: seq<string>): (r: Option<nat>)
    ensures r == None <==> forall b <- buildFors :: Allowed(b, supported)
    ensures r.Some? ==> r.value < |buildFors| && !Allowed(buildFors[r.value], supported) &&
                        forall k :: 0 <= k < r.value ==> Allowed(buildFors[k], supported)
  {
    if buildFors == [] then None
    else if !Allowed(buildFors[0], supported) then Some(0)
    else match FirstUnsupported(buildFors[1..], supported)
      case None => None
      case Some(k) => Some(k + 1)
  }

  /** One `Conflict` for each of `ons` that more than one plan entry builds
      on, in the order of `ons`. */
  function ConflictsAmong(ons: seq<string>, plan: seq<BuildInfo>): seq<Conflict> {
    if ons == [] then []
    else
      var on := ons[|ons| - 1];
      var fors := BuildForsOn(plan, on);
      ConflictsAmong(ons[..|ons| - 1], plan) + (if |fors| > 1 then [Conflict(on, fors)] else [])
  }

  /** The conflicts reported for a plan, in order of first occurrence of their
      build-on. */
  function Conflicts(plan: seq<BuildInfo>): seq<Conflict> {
    ConflictsAmong(BuildOns(plan), plan)
  }

  /** The grouping loop of `_validate_single_artifact_per_build_on`: `build_map`
      from each build-on to its build-fors, with `order` recording the
      insertion order of its keys. */
  method GroupByBuildOn(plan: seq<BuildInfo>) returns (buildMap: map<string, seq<string>>, order: seq<string>)
    ensures order == BuildOns(plan)
    ensures forall on :: on in buildMap <==> on in order
    ensures forall on :: on in buildMap ==> buildMap[on] == BuildForsOn(plan, on)
  {
    buildMap := map[];
    order := [];
    var i := 0;
    while i < |plan|
      invariant 0 <= i <= |plan|
      invariant order == BuildOns(plan[..i])
      invariant forall on :: on in buildMap <==> on in order
      invariant forall on :: on in buildMap ==> buildMap[on] == BuildForsOn(plan[..i], on)
    {
      var info := plan[i];
      GroupStep(plan, i);
      BuildForsOnListed(plan[..i], info.buildOn);
      BuildOnsMembers(plan[..i]);
      var group := if info.buildOn in buildMap then buildMap[info.buildOn] else [];
      if info.buildOn !in buildMap {
        order := order + [info.buildOn];
      }
      buildMap := buildMap[info.buildOn := group + [info.buildFor]];
      i := i + 1;
    }
    assert plan[..i] == plan;
  }

  /** What one more plan entry adds to the build-on order and to the
      build-fors of its build-on. */
  lemma GroupStep(plan: seq<BuildInfo>, i: nat)
    requires i < |plan|
    ensures BuildOns(plan[..i + 1]) ==
      if plan[i].buildOn in BuildOns(plan[..i]) then BuildOns(plan[..i]) else BuildOns(plan[..i]) + [plan[i].buildOn]
    ensures forall on ::
      BuildForsOn(plan[..i + 1], on) == BuildForsOn(plan[..i], on) + (if plan[i].buildOn == on then [plan[i].buildFor] else [])
  {
    assert plan[..i + 1][..i] == plan[..i];
  }

  /** What one more build-on adds to the conflicts reported. */
  lemma ConflictsStep(ons: seq<string>, plan: seq<BuildInfo>, j: nat)
    requires j < |ons|
    ensures ConflictsAmong(ons[..j + 1], plan) == ConflictsAmong(ons[..j], plan) +
      (if |BuildForsOn(plan, ons[j])| > 1 then [Conflict(ons[j], BuildForsOn(plan, ons[j]))] else [])
  {
    assert ons[..j + 1][..j] == ons[..j];
  }

  /** `_validate_single_artifact_per_build_on`: group the build-fors of the
      plan by build-on, then report every build-on with more than one entry,
      all in one error. */
  method ValidateSingleArtifactPerBuildOn(plan: seq<BuildInfo>) returns (err: Option<Error>)
    ensures err == if Conflicts(plan) == [] then None else Some(MultipleArtifactsPerBuildOn(Conflicts(plan)))
  {
    var buildMap, order := GroupByBuildOn(plan);

    var buildOnErrors: seq<Conflict> := [];
    var j := 0;
    while j < |order|
      invariant 0 <= j <= |order|
      invariant buildOnErrors == ConflictsAmong(order[..j], plan)
    {
      ConflictsStep(order, plan, j);
      assert order[j] in order;
      var buildFors := buildMap[order[j]];
      if |buildFors| > 1 {
        buildOnErrors := buildOnErrors + [Conflict(order[j], buildFors)];
      }
      j := j + 1;
    }
    assert order[..j] == order;

    if buildOnErrors != [] {
      err := Some(MultipleArtifactsPerBuildOn(buildOnErrors));
    } else {
      err := None;
    }
  }

  /** `_validate`, after the `sudo` warning: the acknowledgement guard, then the
      `--build-for` check, then the single-artifact check, stopping at the
      first error. */
  function ValidationError(acceptPublicUpload: bool, project: string, projectPrivate: bool,
                           acknowledges: bool, buildFors: seq<string>, supported: seq<string>,
                           plan: seq<BuildInfo>): Option<Error>
  {
    if AckPrompted(acceptPublicUpload, project, projectPrivate) && !acknowledges then
      Some(PublicUploadNotAcknowledged)
    else match FirstUnsupported(buildFors, supported)
      case Some(k) => Some(UnsupportedBuildFor(buildFors[k]))
      case None =>
        if Conflicts(plan) == [] then None else Some(MultipleArtifactsPerBuildOn(Conflicts(plan)))
  }

  method Validate(builder: RemoteBuildService, operator: Operator, acceptPublicUpload: bool,
                  project: string, buildFors: seq<string>, supported: seq<string>,
                  plan: seq<BuildInfo>) returns (err: Option<Error>)
    modifies builder`trace, operator`prompts
    ensures builder.trace == old(builder.trace) +
      (if PrivacyQueried(acceptPublicUpload, project) then [IsProjectPrivate] else [])
    ensures operator.prompts == old(operator.prompts) +
      (if AckPrompted(acceptPublicUpload, project, builder.projectPrivate) then [ConfirmPublicUpload] else [])
    ensures err == ValidationError(acceptPublicUpload, project, builder.projectPrivate,
                                   operator.acceptsPublicUpload, buildFors, supported, plan)
  {
    // `not accept and (not project or not is_project_private()) and not confirm(...)`,
    // evaluated left to right with short-circuiting
    var needsAck := !acceptPublicUpload;
    if needsAck && project != "" {
      var isPrivate := builder.IsProjectPrivate();
      needsAck := !isPrivate;
    }
    if needsAck {
      var confirmed := operator.Confirm(ConfirmPublicUpload);
      if !confirmed {
        return Some(PublicUploadNotAcknowledged);
      }
    }

    var i := 0;
    while i < |buildFors|
      invariant 0 <= i <= |buildFors|
      invariant forall k :: 0 <= k < i ==> Allowed(buildFors[k], supported)
    {
      if buildFors[i] !in supported + ["all"] {
        assert !Allowed(buildFors[i], supported);
        assert FirstUnsupported(buildFors, supported) == Some(i);
        return Some(UnsupportedBuildFor(buildFors[i]));
      }
      i := i + 1;
    }

    err := ValidateSingleArtifactPerBuildOn(plan);
  }

  /** Every reported conflict names a build-on that two plan entries share,
      with all the build-fors of the entries building on it; every shared
      build-on is reported; and no build-on is reported twice. */
  lemma {:induction false} ConflictsAmongMembers(ons: seq<string>, plan: seq<BuildInfo>)
    ensures forall c: Conflict :: c in ConflictsAmong(ons, plan) <==>
      c.buildOn in ons && SharedBuildOn(plan, c.buildOn) && c.buildFors == BuildForsOn(plan, c.buildOn)
    ensures (forall p, q :: 0 <= p < q < |ons| ==> ons[p] != ons[q]) ==>
      forall p, q :: 0 <= p < q < |ConflictsAmong(ons, plan)| ==>
        ConflictsAmong(ons, plan)[p].buildOn != ConflictsAmong(ons, plan)[q].buildOn
  {
    if ons != [] {
      var init := ons[..|ons| - 1];
      var on := ons[|ons| - 1];
      ConflictsAmongMembers(init, plan);
      BuildForsOnSize(plan, on);
      assert ons == init + [on];
    }
  }

  /** Plan-level statement: the error lists exactly the shared build-ons, each
      once, with all of its build-fors. */
  lemma ConflictsMembers(plan: seq<BuildInfo>)
    ensures forall c: Conflict :: c in Conflicts(plan) <==>
      SharedBuildOn(plan, c.buildOn) && c.buildFors == BuildForsOn(plan, c.buildOn)
    ensures forall p, q :: 0 <= p < q < |Conflicts(plan)| ==>
      Conflicts(plan)[p].buildOn != Conflicts(plan)[q].buildOn
  {
    BuildOnsMembers(plan);
    ConflictsAmongMembers(BuildOns(plan), plan);
    forall c: Conflict | SharedBuildOn(plan, c.buildOn) ensures c.buildOn in BuildOns(plan) {
      var i, j :| 0 <= i < j < |plan| && plan[i].buildOn == c.buildOn && plan[j].buildOn == c.buildOn;
    }
  }

  /** The conflicts found among `ons` name build-ons in the order `ons` lists
      them. */
  lemma {:induction false} ConflictsAmongInOrder(ons: seq<string>, plan: seq<BuildInfo>, p: nat, q: nat)
    requires p < q < |ConflictsAmong(ons, plan)|
    ensures exists a, b ::
              0 <= a < b < |ons| && ons[a] == ConflictsAmong(ons, plan)[p].buildOn &&
              ons[b] == ConflictsAmong(ons, plan)[q].buildOn
  {
    var init := ons[..|ons| - 1];
    var earlier := ConflictsAmong(init, plan);
    if q < |earlier| {
      ConflictsAmongInOrder(init, plan, p, q);
      var a, b :| 0 <= a < b < |init| && init[a] == earlier[p].buildOn && init[b] == earlier[q].buildOn;
      assert ons[a] == init[a] && ons[b] == init[b];
    } else {
      ConflictsAmongMembers(init, plan);
      assert earlier[p] in earlier;
      var a :| 0 <= a < |init| && init[a] == earlier[p].buildOn;
      assert ons[a] == init[a];
    }
  }

  /** The error lists the shared build-ons in order of first occurrence in the
      plan, the insertion order of `build_map`: the first entry building on a
      build-on listed earlier comes before every entry building on one listed
      later. */
  lemma ConflictsOrder(plan: seq<BuildInfo>, p: nat, q: nat, j: nat)
    requires p < q < |Conflicts(plan)|
    requires j < |plan| && plan[j].buildOn == Conflicts(plan)[q].buildOn
    ensures exists i :: 0 <= i < j && plan[i].buildOn == Conflicts(plan)[p].buildOn
  {
    var ons := BuildOns(plan);
    ConflictsAmongInOrder(ons, plan, p, q);
    var a, b :| 0 <= a < b < |ons| && ons[a] == Conflicts(plan)[p].buildOn && ons[b] == Conflicts(plan)[q].buildOn;
    BuildOnsOrder(plan, a, b, j);
  }

  /** Every error `_validate` raises carries a `retcode` of its own: `EX_NOPERM`
      exactly for a refused acknowledgement, `EX_CONFIG` for the two
      architecture checks. */
  lemma ValidationErrorCodes(acceptPublicUpload: bool, project: string, projectPrivate: bool,
                             acknowledges: bool, buildFors: seq<string>, supported: seq<string>,
                             plan: seq<BuildInfo>)
    ensures var e := ValidationError(acceptPublicUpload, project, projectPrivate, acknowledges,
                                     buildFors, supported, plan);
      e.Some? ==>
        (Retcode(e.value) == Some(ExitNoPerm) || Retcode(e.value) == Some(ExitConfig)) &&
        (Retcode(e.value) == Some(ExitNoPerm) <==>
           AckPrompted(acceptPublicUpload, project, projectPrivate) && !acknowledges)
  {
  }

  /** The single-artifact check fails exactly when two plan entries share a
      build-on; a plan with distinct build-ons passes. */
  lemma ConflictsIffSharedBuildOn(plan: seq<BuildInfo>)
    ensures Conflicts(plan) != [] <==>
      exists i, j :: 0 <= i < j < |plan| && plan[i].buildOn == plan[j].buildOn
  {
    ConflictsMembers(plan);
    if exists i, j :: 0 <= i < j < |plan| && plan[i].buildOn == plan[j].buildOn {
      var i, j :| 0 <= i < j < |plan| && plan[i].buildOn == plan[j].buildOn;
      var on := plan[i].buildOn;
      assert SharedBuildOn(plan, on);
      assert Conflict(on, BuildForsOn(plan, on)) in Conflicts(plan);
    }
    if Conflicts(plan) != [] {
      var c := Conflicts(plan)[0];
      assert c in Conflicts(plan);
    }
  }

  /** Two identical entries are a conflict too: the check counts entries, not
      distinct build-fors. */
  lemma IdenticalEntriesConflict(on: string, for_: string)
    ensures Conflicts([BuildInfo(on, for_), BuildInfo(on, for_)]) == [Conflict(on, [for_, for_])]
  {
    var e := BuildInfo(on, for_);
    var plan := [e, e];
    assert plan[..1] == [e] && [e][..0] == [];
    assert BuildOns([e]) == [on];
    assert BuildOns(plan) == [on];
    assert BuildForsOn([e], on) == [for_];
    assert BuildForsOn(plan, on) == [for_, for_];
    assert [on][..0] == [];
    assert ConflictsAmong([on], plan) == [Conflict(on, [for_, for_])];
  }

  /** The `--build-for` check rejects exactly when some value is neither a
      supported architecture nor `all`, naming the first such value; an empty
      list always passes it. */
  lemma UnsupportedIff(acceptPublicUpload: bool, project: string, projectPrivate: bool,
                       acknowledges: bool, buildFors: seq<string>, supported: seq<string>,
                       plan: seq<BuildInfo>)
    requires !(AckPrompted(acceptPublicUpload, project, projectPrivate) && !acknowledges)
    ensures var e := ValidationError(acceptPublicUpload, project, projectPrivate, acknowledges,
                                     buildFors, supported, plan);
      (e.Some? && e.value.UnsupportedBuildFor?) <==> exists b <- buildFors :: !Allowed(b, supported)
    ensures var e := ValidationError(acceptPublicUpload, project, projectPrivate, acknowledges,
                                     buildFors, supported, plan);
      e.Some? && e.value.UnsupportedBuildFor? ==>
        e.value.arch in buildFors && e.value.arch !in supported && e.value.arch != "all" &&
        Retcode(e.value) == Some(ExitConfig)
  {
  }

  /** The acknowledgement guard: nothing is asked when the upload was
      acknowledged; a named private project needs no acknowledgement; the
      error is raised only when the operator was asked and declined. */
  lemma AcknowledgementGuard(acceptPublicUpload: bool, project: string, projectPrivate: bool,
                             acknowledges: bool, buildFors: seq<string>, supported: seq<string>,
                             plan: seq<BuildInfo>)
    ensures acceptPublicUpload ==> !PrivacyQueried(acceptPublicUpload, project) &&
                                   !AckPrompted(acceptPublicUpload, project, projectPrivate)
    ensures PrivacyQueried(acceptPublicUpload, project) && projectPrivate ==>
      !AckPrompted(acceptPublicUpload, project, projectPrivate)
    ensures ValidationError(acceptPublicUpload, project, projectPrivate, acknowledges,
                            buildFors, supported, plan) == Some(PublicUploadNotAcknowledged) <==>
      AckPrompted(acceptPublicUpload, project, projectPrivate) && !acknowledges
  {
  }
}
