/** The collaborators the remote-build command drives: the remote build
    service (its Launchpad-backed builder) and the operator answering prompts.
    Their internals are network and terminal I/O; here each is an object whose
    answers are fixed when it is created and which records, in a ghost trace,
    every request the command makes of it. */
module Launchpad {
  import opened Wrappers
  import opened Errors

  /** State of one architecture's build on Launchpad. */
  datatype BuildState =
    | Pending
    | Building
    | Uploading
    | Success
    | Failed
    | Cancelled
    | OtherStopped(name: string)  // dependency wait, superseded, failed upload, ...
  {
    /** `BuildState.is_running`: true only while the build is running. */
    predicate IsRunning() {
      Building?
    }
  }

  /** One value yielded by `monitor_builds()`: the state of every architecture. */
  type Snapshot = map<string, BuildState>

  /** What `start_builds` does: start the builds, report that the remote
      repository already exists (lazr's `Conflict`), or raise. */
  datatype StartResponse = Started | RepositoryConflict | Raises(failure: StartFailure)

  /** How the `monitor_builds()` generator ends after its last snapshot: it is
      exhausted, raises `TimeoutError`, is interrupted by the operator
      (`KeyboardInterrupt`) or raises any other exception. */
  datatype StreamEnd = Exhausted | TimesOut | Interrupted | Crashes

  /** One step of iterating `monitor_builds()`. */
  datatype Poll = Next(states: Snapshot) | End(how: StreamEnd)

  /** A request made of the remote build service. */
  datatype Call =
    | SetProject(project: string)
    | IsProjectPrivate
    | SetTimeout(seconds: int)
    | StartBuilds(projectDir: string, archs: seq<string>)
    | ResumeBuilds(buildId: string)
    | MonitorBuilds
    | FetchLogs
    | FetchArtifacts
    | CancelBuilds
    | Cleanup

  /** Everything the remote build service answers during one run. */
  datatype Script = Script(projectPrivate: bool, startResponse: StartResponse,
                           snapshots: seq<Snapshot>, streamEnd: StreamEnd,
                           logs: map<string, Option<string>>, artifacts: seq<string>)

  /** The remote build service as the command sees it. */
  class RemoteBuildService {
    ghost var trace: seq<Call>
    const projectPrivate: bool
    const startResponse: StartResponse
    const snapshots: seq<Snapshot>
    const streamEnd: StreamEnd
    /** Architecture to downloaded log file name, where one was downloaded. */
    const logs: map<string, Option<string>>
    /** Names of the downloaded artifacts. */
    const artifacts: seq<string>
    /** How many snapshots the current `monitor_builds()` iteration has yielded. */
    var polled: nat

    ghost predicate Valid()
      reads this`polled
    {
      polled <= |snapshots|
    }

    /** The answers this service gives. */
    function Behaviour(): Script {
      Script(projectPrivate, startResponse, snapshots, streamEnd, logs, artifacts)
    }

    constructor (projectPrivate: bool, startResponse: StartResponse, snapshots: seq<Snapshot>,
                 streamEnd: StreamEnd, logs: map<string, Option<string>>, artifacts: seq<string>)
      ensures Valid() && trace == [] && polled == 0
      ensures this.projectPrivate == projectPrivate && this.startResponse == startResponse
      ensures this.snapshots == snapshots && this.streamEnd == streamEnd
      ensures this.logs == logs && this.artifacts == artifacts
    {
      this.projectPrivate := projectPrivate;
      this.startResponse := startResponse;
      this.snapshots := snapshots;
      this.streamEnd := streamEnd;
      this.logs := logs;
      this.artifacts := artifacts;
      polled := 0;
      trace := [];
    }

    method SetProject(project: string)
      modifies this`trace
      ensures trace == old(trace) + [Call.SetProject(project)]
    {
      trace := trace + [Call.SetProject(project)];
    }

    method IsProjectPrivate() returns (isPrivate: bool)
      modifies this`trace
      ensures isPrivate == projectPrivate
      ensures trace == old(trace) + [Call.IsProjectPrivate]
    {
      isPrivate := projectPrivate;
      trace := trace + [Call.IsProjectPrivate];
    }

    method SetTimeout(seconds: int)
      modifies this`trace
      ensures trace == old(trace) + [Call.SetTimeout(seconds)]
    {
      trace := trace + [Call.SetTimeout(seconds)];
    }

    method StartBuilds(projectDir: string, archs: seq<string>) returns (response: StartResponse)
      modifies this`trace
      ensures response == startResponse
      ensures trace == old(trace) + [Call.StartBuilds(projectDir, archs)]
    {
      response := startResponse;
      trace := trace + [Call.StartBuilds(projectDir, archs)];
    }

    method ResumeBuilds(buildId: string)
      modifies this`trace
      ensures trace == old(trace) + [Call.ResumeBuilds(buildId)]
    {
      trace := trace + [Call.ResumeBuilds(buildId)];
    }

    /** Starts a fresh iteration of `monitor_builds()`. */
    method MonitorBuilds()
      modifies this`trace, this`polled
      ensures Valid() && polled == 0
      ensures trace == old(trace) + [Call.MonitorBuilds]
    {
      polled := 0;
      trace := trace + [Call.MonitorBuilds];
    }

    /** Advances the current `monitor_builds()` iteration by one step. */
    method NextSnapshot() returns (p: Poll)
      requires Valid()
      modifies this`polled
      ensures Valid()
      ensures old(polled) < |snapshots| ==> p == Next(snapshots[old(polled)]) && polled == old(polled) + 1
      ensures old(polled) == |snapshots| ==> p == End(streamEnd) && polled == old(polled)
    {
      if polled < |snapshots| {
        p := Next(snapshots[polled]);
        polled := polled + 1;
      } else {
        p := End(streamEnd);
      }
    }

    method FetchLogs() returns (fetched: map<string, Option<string>>)
      modifies this`trace
      ensures fetched == logs
      ensures trace == old(trace) + [Call.FetchLogs]
    {
      fetched := logs;
      trace := trace + [Call.FetchLogs];
    }

    method FetchArtifacts() returns (fetched: seq<string>)
      modifies this`trace
      ensures fetched == artifacts
      ensures trace == old(trace) + [Call.FetchArtifacts]
    {
      fetched := artifacts;
      trace := trace + [Call.FetchArtifacts];
    }

    method CancelBuilds()
      modifies this`trace
      ensures trace == old(trace) + [Call.CancelBuilds]
    {
      trace := trace + [Call.CancelBuilds];
    }

    method Cleanup()
      modifies this`trace
      ensures trace == old(trace) + [Call.Cleanup]
    {
      trace := trace + [Call.Cleanup];
    }
  }

  /** A yes/no question put to the operator with `confirm_with_user`. */
  datatype Prompt = ConfirmPublicUpload | ConfirmCancel

  /** The operator at the terminal, with the answers they will give. */
  class Operator {
    ghost var prompts: seq<Prompt>
    const acceptsPublicUpload: bool
    const cancelsOnInterrupt: bool

    constructor (acceptsPublicUpload: bool, cancelsOnInterrupt: bool)
      ensures prompts == []
      ensures this.acceptsPublicUpload == acceptsPublicUpload
      ensures this.cancelsOnInterrupt == cancelsOnInterrupt
    {
      this.acceptsPublicUpload := acceptsPublicUpload;
      this.cancelsOnInterrupt := cancelsOnInterrupt;
      prompts := [];
    }

    method Confirm(p: Prompt) returns (yes: bool)
      modifies this`prompts
      ensures yes == if p == ConfirmPublicUpload then acceptsPublicUpload else cancelsOnInterrupt
      ensures prompts == old(prompts) + [p]
    {
      yes := if p == ConfirmPublicUpload then acceptsPublicUpload else cancelsOnInterrupt;
      prompts := prompts + [p];
    }
  }
}
