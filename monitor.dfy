/** `_monitor_and_complete`: follow the builds' progress, then decide the
    outcome once monitoring ends. */
module Monitor {
  import opened Wrappers
  import opened Strings
  import opened Errors
  import opened Launchpad

  /** The five groups a snapshot's architectures are sorted into for the
      progress line, listed in the order the line shows them. */
  datatype Bucket = StoppedBucket | BuildingBucket | UploadingBucket | SucceededBucket | PendingBucket

  /** The bucket of one build state: running builds first, then succeeded,
      uploading and pending ones; every other state counts as stopped. */
  function BucketOf(s: BuildState): Bucket {
    if s.IsRunning() then BuildingBucket
    else if s == Success then SucceededBucket
    else if s == Uploading then UploadingBucket
    else if s == Pending then PendingBucket
    else StoppedBucket
  }

  /** The sets `not_building`, `building`, `uploading`, `succeeded`, `pending`. */
  datatype Buckets = Buckets(stopped: set<string>, building: set<string>, uploading: set<string>,
                             succeeded: set<string>, pending: set<string>)
  {
    function Get(k: Bucket): set<string> {
      match k
      case StoppedBucket => stopped
      case BuildingBucket => building
      case UploadingBucket => uploading
      case SucceededBucket => succeeded
      case PendingBucket => pending
    }

    function Add(k: Bucket, arch: string): (r: Buckets)
      ensures r.Get(k) == Get(k) + {arch}
      ensures forall k' :: k' != k ==> r.Get(k') == Get(k')
    {
      match k
      case StoppedBucket => this.(stopped := stopped + {arch})
      case BuildingBucket => this.(building := building + {arch})
      case UploadingBucket => this.(uploading := uploading + {arch})
      case SucceededBucket => this.(succeeded := succeeded + {arch})
      case PendingBucket => this.(pending := pending + {arch})
    }
  }

  /** The architectures among `archs` whose state in `states` falls in bucket `k`. */
  ghost function InBucket(states: Snapshot, archs: set<string>, k: Bucket): set<string> {
    set a | a in archs && a in states && BucketOf(states[a]) == k
  }

  /** The buckets of one snapshot. */
  ghost function BucketsOf(states: Snapshot): Buckets {
    Buckets(InBucket(states, states.Keys, StoppedBucket), InBucket(states, states.Keys, BuildingBucket),
            InBucket(states, states.Keys, UploadingBucket), InBucket(states, states.Keys, SucceededBucket),
            InBucket(states, states.Keys, PendingBucket))
  }

  /** Sorts every architecture of one snapshot into its bucket. */
  method Classify(states: Snapshot) returns (b: Buckets)
    ensures forall k :: b.Get(k) == InBucket(states, states.Keys, k)
    ensures b == BucketsOf(states)
  {
    b := Buckets({}, {}, {}, {}, {});
    var rest := states.Keys;
    while rest != {}
      invariant rest <= states.Keys
      invariant forall k :: b.Get(k) == InBucket(states, states.Keys - rest, k)
      decreases |rest|
    {
      var arch :| arch in rest;
      var k := BucketOf(states[arch]);
      forall k' ensures b.Add(k, arch).Get(k') == InBucket(states, states.Keys - (rest - {arch}), k') {
        assert states.Keys - (rest - {arch}) == (states.Keys - rest) + {arch};
      }
      b := b.Add(k, arch);
      rest := rest - {arch};
    }
    assert states.Keys - rest == states.Keys;
    assert b.stopped == b.Get(StoppedBucket) && b.building == b.Get(BuildingBucket);
    assert b.uploading == b.Get(UploadingBucket) && b.succeeded == b.Get(SucceededBucket);
    assert b.pending == b.Get(PendingBucket);
  }

  /** The buckets of a snapshot partition its architectures: each
      architecture is in exactly one, according to its state. */
  lemma BucketsPartition(states: Snapshot, b: Buckets)
    requires forall k :: b.Get(k) == InBucket(states, states.Keys, k)
    ensures b.stopped + b.building + b.uploading + b.succeeded + b.pending == states.Keys
    ensures forall k1, k2 :: k1 != k2 ==> b.Get(k1) !! b.Get(k2)
    ensures forall a :: a in b.building <==> a in states && states[a].IsRunning()
    ensures forall a :: a in b.succeeded <==> a in states && states[a] == Success
    ensures forall a :: a in b.uploading <==> a in states && states[a] == Uploading
    ensures forall a :: a in b.pending <==> a in states && states[a] == Pending
    ensures forall a :: a in b.stopped <==>
      (a in states && states[a] !in {Building, Success, Uploading, Pending})
  {
    assert b.stopped == b.Get(StoppedBucket) && b.building == b.Get(BuildingBucket);
    assert b.uploading == b.Get(UploadingBucket) && b.succeeded == b.Get(SucceededBucket);
    assert b.pending == b.Get(PendingBucket);
  }

  /** Position of a bucket in the progress line. */
  function Rank(k: Bucket): nat {
    match k
    case StoppedBucket => 0
    case BuildingBucket => 1
    case UploadingBucket => 2
    case SucceededBucket => 3
    case PendingBucket => 4
  }

  function Label(k: Bucket): string {
    match k
    case StoppedBucket => "Stopped"
    case BuildingBucket => "Building"
    case UploadingBucket => "Uploading"
    case SucceededBucket => "Succeeded"
    case PendingBucket => "Pending"
  }

  /** The stopped and uploading lists are joined with "," and the others
      with ", ". */
  function Separator(k: Bucket): string {
    if k == StoppedBucket || k == UploadingBucket then "," else ", "
  }

  /** One element of `progress_parts`: a non-empty bucket and its sorted names. */
  datatype Part = Part(bucket: Bucket, names: seq<string>)

  function RenderPart(p: Part): string {
    Label(p.bucket) + ": " + Join(p.names, Separator(p.bucket))
  }

  function RenderParts(parts: seq<Part>): seq<string> {
    if parts == [] then [] else [RenderPart(parts[0])] + RenderParts(parts[1..])
  }

  ghost function PartOf(b: Buckets, k: Bucket): seq<Part> {
    if b.Get(k) == {} then [] else [Part(k, SortedOf(b.Get(k)))]
  }

  /** The parts of the progress line: one per non-empty bucket, stopped,
      building, uploading, succeeded and pending in that order. */
  ghost function PartsOf(b: Buckets): seq<Part> {
    PartOf(b, StoppedBucket) + PartOf(b, BuildingBucket) + PartOf(b, UploadingBucket) +
    PartOf(b, SucceededBucket) + PartOf(b, PendingBucket)
  }

  ghost function ProgressLineOf(b: Buckets): string {
    Join(RenderParts(PartsOf(b)), "; ")
  }

  ghost predicate WellFormedPart(b: Buckets, p: Part) {
    p.names != [] && StrictlySorted(p.names) && (forall x :: x in p.names <==> x in b.Get(p.bucket))
  }

  lemma PartOfShape(b: Buckets, k: Bucket)
    ensures |PartOf(b, k)| == (if b.Get(k) == {} then 0 else 1)
    ensures PartOf(b, k) != [] ==> PartOf(b, k)[0].bucket == k && WellFormedPart(b, PartOf(b, k)[0])
  {
    if b.Get(k) != {} {
      var x :| x in b.Get(k);
      assert x in SortedOf(b.Get(k));
    }
  }

  /** Every part of `parts` is well formed and has a rank in `[lo, hi)`. */
  ghost predicate PartsWithin(b: Buckets, parts: seq<Part>, lo: nat, hi: nat) {
    forall i :: 0 <= i < |parts| ==> WellFormedPart(b, parts[i]) && lo <= Rank(parts[i].bucket) < hi
  }

  /** The buckets of `parts` have strictly increasing ranks. */
  ghost predicate RanksIncrease(parts: seq<Part>) {
    forall i, j :: 0 <= i < j < |parts| ==> Rank(parts[i].bucket) < Rank(parts[j].bucket)
  }

  /** Every bucket with rank in `[lo, hi)` has a part exactly when it is non-empty. */
  ghost predicate Covers(b: Buckets, parts: seq<Part>, lo: nat, hi: nat) {
    forall k :: lo <= Rank(k) < hi ==>
      (b.Get(k) != {} <==> exists i :: 0 <= i < |parts| && parts[i].bucket == k)
  }

  /** `parts` lists, in increasing rank and each once, exactly the non-empty
      buckets whose rank lies in `[lo, hi)`, each with all of its names in
      sorted order. */
  ghost predicate Lists(b: Buckets, parts: seq<Part>, lo: nat, hi: nat) {
    PartsWithin(b, parts, lo, hi) && RanksIncrease(parts) && Covers(b, parts, lo, hi)
  }

  lemma RankInjective(k1: Bucket, k2: Bucket)
    ensures Rank(k1) == Rank(k2) ==> k1 == k2
  {
  }

  lemma RankBelowFive(k: Bucket)
    ensures Rank(k) < 5
  {
  }

  lemma ListsOne(b: Buckets, k: Bucket)
    ensures Lists(b, PartOf(b, k), Rank(k), Rank(k) + 1)
  {
    PartOfShape(b, k);
    forall k' | Rank(k) <= Rank(k') < Rank(k) + 1
      ensures b.Get(k') != {} <==> exists i :: 0 <= i < |PartOf(b, k)| && PartOf(b, k)[i].bucket == k'
    {
      RankInjective(k, k');
      if b.Get(k') != {} {
        assert PartOf(b, k)[0].bucket == k';
      }
    }
  }

  lemma ListsConcat(b: Buckets, x: seq<Part>, y: seq<Part>, lo: nat, mid: nat, hi: nat)
    requires lo <= mid <= hi
    requires Lists(b, x, lo, mid) && Lists(b, y, mid, hi)
    ensures Lists(b, x + y, lo, hi)
  {
    WithinConcat(b, x, y, lo, mid, hi);
    IncreaseConcat(b, x, y, lo, mid, hi);
    CoversConcat(b, x, y, lo, mid, hi);
  }

  lemma WithinConcat(b: Buckets, x: seq<Part>, y: seq<Part>, lo: nat, mid: nat, hi: nat)
    requires lo <= mid <= hi
    requires PartsWithin(b, x, lo, mid) && PartsWithin(b, y, mid, hi)
    ensures PartsWithin(b, x + y, lo, hi)
  {
    var xy := x + y;
    forall i | 0 <= i < |xy| ensures WellFormedPart(b, xy[i]) && lo <= Rank(xy[i].bucket) < hi {
      if i < |x| { assert xy[i] == x[i]; } else { assert xy[i] == y[i - |x|]; }
    }
  }

  lemma IncreaseConcat(b: Buckets, x: seq<Part>, y: seq<Part>, lo: nat, mid: nat, hi: nat)
    requires PartsWithin(b, x, lo, mid) && PartsWithin(b, y, mid, hi)
    requires RanksIncrease(x) && RanksIncrease(y)
    ensures RanksIncrease(x + y)
  {
    var xy := x + y;
    forall i, j | 0 <= i < j < |xy| ensures Rank(xy[i].bucket) < Rank(xy[j].bucket) {
      if j < |x| {
        assert xy[i] == x[i] && xy[j] == x[j];
      } else if i >= |x| {
        assert xy[i] == y[i - |x|] && xy[j] == y[j - |x|];
      } else {
        assert xy[i] == x[i] && xy[j] == y[j - |x|];
        assert Rank(x[i].bucket) < mid <= Rank(y[j - |x|].bucket);
      }
    }
  }

  lemma CoversConcat(b: Buckets, x: seq<Part>, y: seq<Part>, lo: nat, mid: nat, hi: nat)
    requires lo <= mid <= hi
    requires PartsWithin(b, x, lo, mid) && PartsWithin(b, y, mid, hi)
    requires Covers(b, x, lo, mid) && Covers(b, y, mid, hi)
    ensures Covers(b, x + y, lo, hi)
  {
    var xy := x + y;
    forall k | lo <= Rank(k) < hi
      ensures b.Get(k) != {} <==> exists i :: 0 <= i < |xy| && xy[i].bucket == k
    {
      if b.Get(k) != {} {
        if Rank(k) < mid {
          var i :| 0 <= i < |x| && x[i].bucket == k;
          assert xy[i] == x[i];
        } else {
          var i :| 0 <= i < |y| && y[i].bucket == k;
          assert xy[|x| + i] == y[i];
        }
      }
      if exists i :: 0 <= i < |xy| && xy[i].bucket == k {
        var i :| 0 <= i < |xy| && xy[i].bucket == k;
        if i < |x| { assert x[i] == xy[i]; } else { assert y[i - |x|] == xy[i]; }
      }
    }
  }

  /** Appending the part of the bucket of the next rank extends the listing
      by that rank. */
  lemma ListsAppend(b: Buckets, x: seq<Part>, k: Bucket)
    requires Lists(b, x, 0, Rank(k))
    ensures Lists(b, x + PartOf(b, k), 0, Rank(k) + 1)
  {
    ListsOne(b, k);
    ListsConcat(b, x, PartOf(b, k), 0, Rank(k), Rank(k) + 1);
  }

  /** The progress line lists exactly the non-empty buckets, each once, in the
      order stopped, building, uploading, succeeded, pending, each with all of
      its architectures in sorted order. */
  lemma PartsOfShape(b: Buckets)
    ensures forall k :: Rank(k) < 5
    ensures Lists(b, PartsOf(b), 0, 5)
  {
    PartsListed(b);
    forall k ensures Rank(k) < 5 {
      RankBelowFive(k);
    }
  }

  lemma PartsListed(b: Buckets)
    ensures Lists(b, PartsOf(b), 0, 5)
  {
    ListsOne(b, StoppedBucket);
    ListsAppend(b, PartOf(b, StoppedBucket), BuildingBucket);
    ListsAppend(b, PartOf(b, StoppedBucket) + PartOf(b, BuildingBucket), UploadingBucket);
    ListsAppend(b, PartOf(b, StoppedBucket) + PartOf(b, BuildingBucket) + PartOf(b, UploadingBucket),
      SucceededBucket);
    ListsAppend(b, PartOf(b, StoppedBucket) + PartOf(b, BuildingBucket) + PartOf(b, UploadingBucket) +
      PartOf(b, SucceededBucket), PendingBucket);
  }

  /** Appends the part for bucket `k`, if it is not empty. */
  method AppendPart(parts: seq<Part>, b: Buckets, k: Bucket) returns (parts': seq<Part>)
    ensures parts' == parts + PartOf(b, k)
  {
    parts' := parts;
    if b.Get(k) != {} {
      var names := SortNames(b.Get(k));
      parts' := parts + [Part(k, names)];
    }
  }

  /** The progress line for one snapshot's buckets: `"; "`-joined parts for
      the non-empty buckets, in the fixed order. */
  method ProgressLine(b: Buckets) returns (line: string)
    ensures line == ProgressLineOf(b)
  {
    var parts: seq<Part> := [];
    parts := AppendPart(parts, b, StoppedBucket);
    assert parts == PartOf(b, StoppedBucket);
    parts := AppendPart(parts, b, BuildingBucket);
    parts := AppendPart(parts, b, UploadingBucket);
    parts := AppendPart(parts, b, SucceededBucket);
    parts := AppendPart(parts, b, PendingBucket);
    assert parts == PartsOf(b);
    line := Join(RenderParts(parts), "; ");
  }

  /** The command printed on a local timeout to resume the build. */
  function ResumeCommand(appName: string, buildId: string): (cmd: string)
    ensures ResumedBuildId(appName, cmd) == if buildId == "" then None else Some(buildId)
  {
    var base := appName + " remote-build --recover";
    if buildId != "" then
      var flag := base + " --build-id=";
      var cmd := flag + buildId;
      assert cmd[..|flag|] == flag && cmd[|flag|..] == buildId;
      cmd
    else base
  }

  /** The build id a resume command names with `--build-id=`, if any. */
  function ResumedBuildId(appName: string, cmd: string): Option<string> {
    var flag := appName + " remote-build --recover --build-id=";
    if |flag| <= |cmd| && cmd[..|flag|] == flag then Some(cmd[|flag|..]) else None
  }

  /** How `_monitor_and_complete` ends: with a return code once monitoring
      completes, with 75 and a resume command on a local timeout, or by
      letting the operator's interrupt or another exception escape. */
  datatype MonitorOutcome =
    | Completed(code: int)
    | TimedOut(resumeCommand: string)
    | Interrupt
    | Crash
  {
    predicate Returns() {
      Completed? || TimedOut?
    }

    function ReturnCode(): int
      requires Returns()
    {
      if Completed? then code else ExitTempFail
    }
  }

  /** The states monitoring ends with: those of the last snapshot, or none. */
  function FinalStates(snapshots: seq<Snapshot>): Snapshot {
    if snapshots == [] then map[] else snapshots[|snapshots| - 1]
  }

  predicate AnyFailed(states: Snapshot) {
    exists arch :: arch in states && states[arch] == Failed
  }

  /** The outcome of `_monitor_and_complete` for a given behaviour of the
      service. After normal completion the code is 1 when a build failed, no
      log was fetched at all or no artifact was fetched, and 0 otherwise. */
  function MonitorOutcomeOf(appName: string, buildId: string, snapshots: seq<Snapshot>,
                            end: StreamEnd, logs: map<string, Option<string>>,
                            artifacts: seq<string>): MonitorOutcome
  {
    match end
    case Exhausted =>
      Completed(if AnyFailed(FinalStates(snapshots)) || |logs| == 0 || |artifacts| == 0
                then ExitGeneral else ExitOk)
    case TimesOut => TimedOut(ResumeCommand(appName, buildId))
    case Interrupted => Interrupt
    case Crashes => Crash
  }

  /** The requests `_monitor_and_complete` makes of the service. */
  function MonitorCalls(end: StreamEnd): seq<Call> {
    [MonitorBuilds] + (if end == Exhausted then [FetchLogs, FetchArtifacts] else [])
  }

  /** The progress line printed for each snapshot. */
  ghost function ProgressLines(snapshots: seq<Snapshot>): seq<string> {
    if snapshots == [] then []
    else
      var states := snapshots[|snapshots| - 1];
      ProgressLines(snapshots[..|snapshots| - 1]) + [ProgressLineOf(BucketsOf(states))]
  }

  /** What one more snapshot adds: it becomes the final states, and its
      progress line is printed after the earlier ones. */
  lemma PollStep(snapshots: seq<Snapshot>, n: nat)
    requires n < |snapshots|
    ensures FinalStates(snapshots[..n + 1]) == snapshots[n]
    ensures ProgressLines(snapshots[..n + 1]) ==
      ProgressLines(snapshots[..n]) + [ProgressLineOf(BucketsOf(snapshots[n]))]
  {
    assert snapshots[..n + 1][..n] == snapshots[..n];
  }

  /** The polling half of `_monitor_and_complete`: follows the build stream,
      printing one progress line per snapshot, until it ends. */
  method FollowBuilds(builder: RemoteBuildService) returns (states: Snapshot, progress: seq<string>, end: StreamEnd)
    requires builder.Valid()
    modifies builder`trace, builder`polled
    ensures builder.Valid()
    ensures states == FinalStates(builder.snapshots)
    ensures progress == ProgressLines(builder.snapshots)
    ensures end == builder.streamEnd
    ensures builder.trace == old(builder.trace) + [MonitorBuilds]
  {
    builder.MonitorBuilds();
    states := map[];
    progress := [];
    var done := false;
    end := Exhausted;
    while !done
      invariant builder.Valid()
      invariant builder.trace == old(builder.trace) + [MonitorBuilds]
      invariant states == FinalStates(builder.snapshots[..builder.polled])
      invariant progress == ProgressLines(builder.snapshots[..builder.polled])
      invariant done ==> builder.polled == |builder.snapshots| && end == builder.streamEnd
      decreases |builder.snapshots| - builder.polled, !done
    {
      var poll := builder.NextSnapshot();
      match poll
      case Next(snapshot) =>
        PollStep(builder.snapshots, builder.polled - 1);
        states := snapshot;
        var buckets := Classify(states);
        var line := ProgressLine(buckets);
        progress := progress + [line];
      case End(how) =>
        done := true;
        end := how;
    }
    assert builder.snapshots[..builder.polled] == builder.snapshots;
  }

  /** The scan of the final states for a failed build. */
  method AnyFailedBuild(states: Snapshot) returns (failed: bool)
    ensures failed == AnyFailed(states)
  {
    failed := false;
    var unchecked := states.Keys;
    while unchecked != {}
      invariant unchecked <= states.Keys
      invariant failed == exists arch :: arch in states.Keys - unchecked && states[arch] == Failed
      decreases |unchecked|
    {
      var arch :| arch in unchecked;
      if states[arch] == Failed {
        failed := true;
      }
      unchecked := unchecked - {arch};
    }
    assert states.Keys - unchecked == states.Keys;
  }

  /** The completion half of `_monitor_and_complete`: report failed builds,
      fetch the logs and the artifacts, and decide the return code. */
  method Complete(builder: RemoteBuildService, states: Snapshot) returns (returnCode: int)
    modifies builder`trace
    ensures returnCode == if AnyFailed(states) || |builder.logs| == 0 || |builder.artifacts| == 0
                          then ExitGeneral else ExitOk
    ensures builder.trace == old(builder.trace) + [FetchLogs, FetchArtifacts]
  {
    returnCode := ExitOk;
    var failed := AnyFailedBuild(states);
    if failed {
      returnCode := ExitGeneral;
    }
    var logs := builder.FetchLogs();
    if |logs| == 0 {
      returnCode := ExitGeneral;
    }
    var artifacts := builder.FetchArtifacts();
    if |artifacts| == 0 {
      returnCode := ExitGeneral;
    }
  }

  /** `_monitor_and_complete`: print a progress line per snapshot until
      monitoring ends, then decide the return code from the final states and
      the fetched logs and artifacts. */
  method MonitorAndComplete(builder: RemoteBuildService, appName: string, buildId: string)
      returns (outcome: MonitorOutcome, progress: seq<string>)
    requires builder.Valid()
    modifies builder`trace, builder`polled
    ensures builder.Valid()
    ensures outcome == MonitorOutcomeOf(appName, buildId, builder.snapshots, builder.streamEnd,
                                        builder.logs, builder.artifacts)
    ensures builder.trace == old(builder.trace) + MonitorCalls(builder.streamEnd)
    ensures progress == ProgressLines(builder.snapshots)
  {
    var states, end;
    states, progress, end := FollowBuilds(builder);

    if end != Exhausted {
      if end == TimesOut {
        outcome := TimedOut(ResumeCommand(appName, buildId));
      } else if end == Interrupted {
        outcome := Interrupt;
      } else {
        outcome := Crash;
      }
      return;
    }

    var returnCode := Complete(builder, states);
    outcome := Completed(returnCode);
  }

  /** A local timeout returns 75 and never fetches logs or artifacts; the
      resume command names the build id exactly when there is one. */
  lemma TimeoutOutcome(appName: string, buildId: string, snapshots: seq<Snapshot>,
                       logs: map<string, Option<string>>, artifacts: seq<string>)
    ensures var o := MonitorOutcomeOf(appName, buildId, snapshots, TimesOut, logs, artifacts);
      o.Returns() && o.ReturnCode() == ExitTempFail &&
      ResumedBuildId(appName, o.resumeCommand) == (if buildId == "" then None else Some(buildId))
    ensures FetchLogs !in MonitorCalls(TimesOut) && FetchArtifacts !in MonitorCalls(TimesOut)
  {
  }

  /** After normal completion the code is 0 or 1, and 1 exactly when the final
      states hold a failed build, the log mapping is empty or no artifact was
      fetched. */
  lemma CompletionCode(appName: string, buildId: string, snapshots: seq<Snapshot>,
                       logs: map<string, Option<string>>, artifacts: seq<string>)
    ensures var o := MonitorOutcomeOf(appName, buildId, snapshots, Exhausted, logs, artifacts);
      o.Completed? && (o.code == ExitOk || o.code == ExitGeneral) &&
      (o.code == ExitGeneral <==>
        (snapshots != [] && AnyFailed(snapshots[|snapshots| - 1])) ||
        logs == map[] || artifacts == [])
  {
  }

  /** Only the emptiness of the whole log mapping matters: a mapping in which
      no architecture has a log file still lets a run with artifacts and no
      failed build succeed. */
  lemma MissingLogFilesTolerated(appName: string, buildId: string, arch: string, artifact: string)
    ensures var states: Snapshot := map[arch := Success];
      var logs: map<string, Option<string>> := map[arch := None];
      MonitorOutcomeOf(appName, buildId, [states], Exhausted, logs, [artifact]) == Completed(ExitOk)
  {
    var states: Snapshot := map[arch := Success];
    var logs: map<string, Option<string>> := map[arch := None];
    assert !AnyFailed(states);
    assert |logs| == 1;
  }

  /** A failed build in the last snapshot makes the run fail, whatever was
      fetched and whatever the earlier snapshots held. */
  lemma FailedBuildFails(appName: string, buildId: string, snapshots: seq<Snapshot>, arch: string,
                         logs: map<string, Option<string>>, artifacts: seq<string>)
    requires snapshots != []
    requires arch in snapshots[|snapshots| - 1] && snapshots[|snapshots| - 1][arch] == Failed
    ensures MonitorOutcomeOf(appName, buildId, snapshots, Exhausted, logs, artifacts) == Completed(ExitGeneral)
  {
  }
}
