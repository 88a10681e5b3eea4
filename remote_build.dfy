/** `RemoteBuildCommand._run`: set the project, validate, resolve the
    architectures, submit or resume the builds, monitor them, and decide
    whether to cancel and whether to clean up. */
module RemoteBuild {
  import opened Wrappers
  import opened Errors
  import opened Plans
  import opened Launchpad
  import opened BuildForArg
  import opened Validation
  import opened Archs
  import opened Monitor

  /** The command-line options `_run` reads. An absent `--project` is the empty
      string; an absent `--build-for` is `None`. */
  datatype Args = Args(project: string, acceptPublicUpload: bool, buildFor: Option<string>,
                       timeout: int, recover: bool)

  /** What `_run` takes from the project and the machine: the application name,
      the supported architectures, the build plan, whether the project declares
      platforms or architectures, the host architecture, the build id
      `get_build_id` derives and the resolved project directory. */
  datatype Context = Context(appName: string, supported: seq<string>, plan: seq<BuildInfo>,
                             declaresPlatforms: bool, hostArch: string, buildId: string,
                             projectDir: string)

  /** How `_run` ends: it returns an exit code or lets an error escape. */
  datatype RunResult = Returned(code: int) | Raised(error: Error)

  /** One run of the command: how it ends, the requests it makes of the remote
      build service and the prompts it shows the operator, in order. */
  datatype Session = Session(result: RunResult, calls: seq<Call>, prompts: seq<Prompt>)

  /** The parsed `--build-for` option, with `or []` applied. */
  function RequestedBuildFors(args: Args): seq<string> {
    match args.buildFor
    case None => []
    case Some(arg) => ParseBuildFors(arg)
  }

  /** The requests made before the build is submitted: `set_project` when a
      project is named, then the privacy query of `_validate`. */
  function ValidationCalls(args: Args): seq<Call> {
    (if args.project != "" then [Call.SetProject(args.project)] else []) +
    (if PrivacyQueried(args.acceptPublicUpload, args.project) then [IsProjectPrivate] else [])
  }

  function ValidationPrompts(s: Script, args: Args): seq<Prompt> {
    if AckPrompted(args.acceptPublicUpload, args.project, s.projectPrivate) then [ConfirmPublicUpload] else []
  }

  /** What `_run` does once `_monitor_and_complete` has ended with `outcome`:
      an interrupt asks whether to cancel, cancels and cleans up only when the
      operator agrees, and returns 0; any other exception counts as code 1;
      and cleanup runs unless the code is 75. */
  function Concluded(outcome: MonitorOutcome, cancels: bool): Session {
    match outcome
    case Interrupt =>
      Session(Returned(ExitOk), if cancels then [CancelBuilds, Cleanup] else [], [ConfirmCancel])
    case Crash => Session(Returned(ExitGeneral), [Cleanup], [])
    case Completed(code) => Session(Returned(code), if code != ExitTempFail then [Cleanup] else [], [])
    case TimedOut(_) => Session(Returned(ExitTempFail), [], [])
  }

  /** How `_monitor_and_complete` ends for this behaviour of the service. */
  function Outcome(s: Script, ctx: Context): MonitorOutcome {
    MonitorOutcomeOf(ctx.appName, ctx.buildId, s.snapshots, s.streamEnd, s.logs, s.artifacts)
  }

  /** A stage preceded by the given requests and prompts. */
  function After(calls: seq<Call>, prompts: seq<Prompt>, rest: Session): Session {
    Session(rest.result, calls + rest.calls, prompts + rest.prompts)
  }

  /** The monitoring stage of `_run`, after the builds were started or
      resumed: the requests of `_monitor_and_complete`, then its conclusion. */
  function Monitored(s: Script, cancels: bool, ctx: Context): Session {
    After(MonitorCalls(s.streamEnd), [], Concluded(Outcome(s, ctx), cancels))
  }

  /** The checks `_run` makes before submitting: `_validate`, then
      `_get_archs`; the first error raised ends the run. */
  function Prepared(s: Script, acknowledges: bool, args: Args, ctx: Context): Result<seq<string>, Error> {
    var buildFors := RequestedBuildFors(args);
    match ValidationError(args.acceptPublicUpload, args.project, s.projectPrivate, acknowledges,
                          buildFors, ctx.supported, ctx.plan)
    case Some(e) => Err(e)
    case None => ResolveArchs(ctx.declaresPlatforms, ctx.plan, buildFors, ctx.hostArch)
  }

  /** The whole of `_run` for a given behaviour of the service, the operator's
      two answers, the options and the context. */
  function SessionOf(s: Script, acknowledges: bool, cancels: bool, args: Args, ctx: Context): Session {
    SessionAfter(s, cancels, args, ctx, Prepared(s, acknowledges, args, ctx))
  }

  /** `_run` once the checks before submitting have given `prepared`: the
      architectures to build for, or the error that ends the run. */
  function SessionAfter(s: Script, cancels: bool, args: Args, ctx: Context,
                        prepared: Result<seq<string>, Error>): Session {
    var calls := ValidationCalls(args);
    var prompts := ValidationPrompts(s, args);
    match prepared
    case Err(e) => Session(Raised(e), calls, prompts)
    case Ok(archs) => After(calls, prompts, Submitted(s, cancels, args, ctx, archs))
  }

  /** The requests of the submission itself: the timeout, when one is given,
      then resuming or starting the builds. */
  function SubmitCalls(args: Args, ctx: Context, archs: seq<string>): seq<Call> {
    (if args.timeout != 0 then [SetTimeout(args.timeout)] else []) +
    [if args.recover then ResumeBuilds(ctx.buildId) else StartBuilds(ctx.projectDir, archs)]
  }

  /** How the submission turns out: resuming always goes on to monitoring. */
  function Response(s: Script, args: Args): StartResponse {
    if args.recover then Started else s.startResponse
  }

  /** The stage of `_run` after validation: set the timeout, resume or start
      the builds, and monitor them. A repository conflict on submission cleans
      up and returns 75; a `RemoteBuildError` or `LaunchpadError` cleans up and
      is re-raised; any other submission error escapes untouched. */
  function Submitted(s: Script, cancels: bool, args: Args, ctx: Context, archs: seq<string>): Session {
    var submitted := SubmitCalls(args, ctx, archs);
    match Response(s, args)
    case Started => After(submitted, [], Monitored(s, cancels, ctx))
    case RepositoryConflict => Session(Returned(ExitTempFail), submitted + [Cleanup], [])
    case Raises(f) =>
      Session(Raised(StartFailed(f)), submitted + (if f == OtherFailure then [] else [Cleanup]), [])
  }

  /** The `except` and `finally` clauses around `_monitor_and_complete`. */
  method Conclude(builder: RemoteBuildService, operator: Operator, outcome: MonitorOutcome)
      returns (result: RunResult)
    modifies builder`trace, operator`prompts
    ensures var c := Concluded(outcome, operator.cancelsOnInterrupt);
      result == c.result && builder.trace == old(builder.trace) + c.calls &&
      operator.prompts == old(operator.prompts) + c.prompts
  {
    var returnCode;
    match outcome {
      case Interrupt =>
        var cancel := operator.Confirm(ConfirmCancel);
        if cancel {
          builder.CancelBuilds();
          builder.Cleanup();
        }
        return Returned(ExitOk);
      case Crash =>
        returnCode := ExitGeneral;
      case Completed(code) =>
        returnCode := code;
      case TimedOut(_) =>
        returnCode := ExitTempFail;
    }
    if returnCode != ExitTempFail {
      builder.Cleanup();
    }
    result := Returned(returnCode);
  }

  /** The monitoring stage of `_run`. */
  method MonitorAndCleanUp(builder: RemoteBuildService, operator: Operator, ctx: Context)
      returns (result: RunResult)
    requires builder.Valid()
    modifies builder`trace, builder`polled, operator`prompts
    ensures var session := Monitored(builder.Behaviour(), operator.cancelsOnInterrupt, ctx);
      result == session.result && builder.trace == old(builder.trace) + session.calls &&
      operator.prompts == old(operator.prompts) + session.prompts
  {
    var outcome, _ := MonitorAndComplete(builder, ctx.appName, ctx.buildId);
    result := Conclude(builder, operator, outcome);
    AppendAssoc(old(builder.trace), MonitorCalls(builder.streamEnd),
                Concluded(outcome, operator.cancelsOnInterrupt).calls);
  }

  /** Sets the timeout, then resumes or starts the builds. */
  method Submit(builder: RemoteBuildService, args: Args, ctx: Context, archs: seq<string>)
      returns (response: StartResponse)
    modifies builder`trace
    ensures response == Response(builder.Behaviour(), args)
    ensures builder.trace == old(builder.trace) + SubmitCalls(args, ctx, archs)
  {
    if args.timeout != 0 {
      builder.SetTimeout(args.timeout);
    }
    if args.recover {
      builder.ResumeBuilds(ctx.buildId);
      response := Started;
    } else {
      response := builder.StartBuilds(ctx.projectDir, archs);
    }
  }

  /** The stage of `_run` after validation. */
  method SubmitAndMonitor(builder: RemoteBuildService, operator: Operator, args: Args, ctx: Context,
                          archs: seq<string>) returns (result: RunResult)
    requires builder.Valid()
    modifies builder`trace, builder`polled, operator`prompts
    ensures var session := Submitted(builder.Behaviour(), operator.cancelsOnInterrupt, args, ctx, archs);
      result == session.result && builder.trace == old(builder.trace) + session.calls &&
      operator.prompts == old(operator.prompts) + session.prompts
  {
    var response := Submit(builder, args, ctx, archs);
    match response {
      case Started =>
        result := MonitorAndCleanUp(builder, operator, ctx);
        AppendAssoc(old(builder.trace), SubmitCalls(args, ctx, archs),
                    Monitored(builder.Behaviour(), operator.cancelsOnInterrupt, ctx).calls);
      case RepositoryConflict =>
        builder.Cleanup();
        result := Returned(ExitTempFail);
      case Raises(failure) =>
        // only RemoteBuildError and LaunchpadError are caught, cleaned up after and re-raised
        if failure != OtherFailure {
          builder.Cleanup();
        }
        result := Raised(StartFailed(failure));
    }
  }

  /** The checks `_run` makes before submitting. */
  method Prepare(builder: RemoteBuildService, operator: Operator, args: Args, ctx: Context)
      returns (archs: Result<seq<string>, Error>)
    modifies builder`trace, operator`prompts
    ensures archs == Prepared(builder.Behaviour(), operator.acceptsPublicUpload, args, ctx)
    ensures builder.trace == old(builder.trace) + ValidationCalls(args)
    ensures operator.prompts == old(operator.prompts) + ValidationPrompts(builder.Behaviour(), args)
  {
    if args.project != "" {
      builder.SetProject(args.project);
    }
    var buildFors := RequestedBuildFors(args);
    var err := Validate(builder, operator, args.acceptPublicUpload, args.project, buildFors,
                        ctx.supported, ctx.plan);
    if err.Some? {
      return Err(err.value);
    }
    archs := GetArchs(ctx.declaresPlatforms, ctx.plan, buildFors, ctx.hostArch);
  }

  /** `_run`. */
  method Run(builder: RemoteBuildService, operator: Operator, args: Args, ctx: Context)
      returns (result: RunResult)
    requires builder.Valid()
    modifies builder`trace, builder`polled, operator`prompts
    ensures result == SessionOf(builder.Behaviour(), operator.acceptsPublicUpload,
                                operator.cancelsOnInterrupt, args, ctx).result
    ensures builder.trace == old(builder.trace) + SessionOf(builder.Behaviour(), operator.acceptsPublicUpload,
                                                            operator.cancelsOnInterrupt, args, ctx).calls
    ensures operator.prompts == old(operator.prompts) + SessionOf(builder.Behaviour(), operator.acceptsPublicUpload,
                                                                  operator.cancelsOnInterrupt, args, ctx).prompts
  {
    ghost var s := builder.Behaviour();
    var archs := Prepare(builder, operator, args, ctx);
    if archs.Err? {
      return Raised(archs.error);
    }
    ghost var calls, prompts := builder.trace, operator.prompts;
    result := SubmitAndMonitor(builder, operator, args, ctx, archs.value);
    ghost var rest := Submitted(s, operator.cancelsOnInterrupt, args, ctx, archs.value);
    assert calls == old(builder.trace) + ValidationCalls(args);
    assert prompts == old(operator.prompts) + ValidationPrompts(s, args);
    AppendAssoc(old(builder.trace), ValidationCalls(args), rest.calls);
    AppendAssoc(old(operator.prompts), ValidationPrompts(s, args), rest.prompts);
  }

  lemma AppendAssoc<T>(a: seq<T>, b: seq<T>, c: seq<T>)
    ensures a + (b + c) == (a + b) + c
  {
  }

  /** The ways a run of `_run` ends: an error raised before anything is
      submitted, the three outcomes of `start_builds`, and the four ways
      `_monitor_and_complete` can end (normal completion split by its code).
      `CleansUp` and `Ending` below form the terminal table, stated per way of
      ending and independently of the control flow, that `_run` is checked
      against. */
  datatype Terminal =
    | Rejected(error: Error)
    | SubmissionConflict
    | SubmissionFailed(cause: StartFailure)
    | AllSucceeded
    | PartialOrFullFailure
    | LocalTimeout
    | UserCancelled(confirmed: bool)
    | UnexpectedError

  /** How a run ends, classified from its inputs alone. */
  function TerminalOf(s: Script, acknowledges: bool, cancels: bool, args: Args, ctx: Context): Terminal {
    TerminalAfter(s, cancels, args, ctx, Prepared(s, acknowledges, args, ctx))
  }

  function TerminalAfter(s: Script, cancels: bool, args: Args, ctx: Context,
                         prepared: Result<seq<string>, Error>): Terminal {
    match prepared
    case Err(e) => Rejected(e)
    case Ok(_) => SubmittedTerminal(s, cancels, args, ctx)
  }

  function SubmittedTerminal(s: Script, cancels: bool, args: Args, ctx: Context): Terminal {
    match Response(s, args)
    case Started => MonitoredTerminal(s, cancels, ctx)
    case RepositoryConflict => SubmissionConflict
    case Raises(f) => SubmissionFailed(f)
  }

  function MonitoredTerminal(s: Script, cancels: bool, ctx: Context): Terminal {
    match s.streamEnd
    case Exhausted => if Outcome(s, ctx) == Completed(ExitOk) then AllSucceeded else PartialOrFullFailure
    case TimesOut => LocalTimeout
    case Interrupted => UserCancelled(cancels)
    case Crashes => UnexpectedError
  }

  /** Whether `_run` cleans up the remote session in the way `t` ends it. */
  predicate CleansUp(t: Terminal) {
    match t
    case Rejected(_) => false
    case SubmissionConflict => true
    case SubmissionFailed(cause) => cause != OtherFailure
    case AllSucceeded => true
    case PartialOrFullFailure => true
    case LocalTimeout => false
    case UserCancelled(confirmed) => confirmed
    case UnexpectedError => true
  }

  /** The result `_run` gives in the way `t` ends it. */
  function Ending(t: Terminal): RunResult {
    match t
    case Rejected(e) => Raised(e)
    case SubmissionConflict => Returned(ExitTempFail)
    case SubmissionFailed(cause) => Raised(StartFailed(cause))
    case AllSucceeded => Returned(ExitOk)
    case PartialOrFullFailure => Returned(ExitGeneral)
    case LocalTimeout => Returned(ExitTempFail)
    case UserCancelled(_) => Returned(ExitOk)
    case UnexpectedError => Returned(ExitGeneral)
  }

  /** Requests that neither cancel nor clean up. */
  predicate Harmless(calls: seq<Call>) {
    forall c <- calls :: c != Cleanup && c != CancelBuilds
  }

  lemma HarmlessCounts(calls: seq<Call>)
    requires Harmless(calls)
    ensures multiset(calls)[Cleanup] == 0 && CancelBuilds !in calls
  {
    assert Cleanup !in calls;
    assert Cleanup !in multiset(calls);
  }

  /** A session ends as the table says for `t`: with the table's result;
      with exactly one cleanup, as the last request, when the table says
      cleanup runs and none otherwise; and with builds cancelled only when the
      operator confirmed, right before the cleanup. */
  predicate Follows(session: Session, t: Terminal) {
    var calls := session.calls;
    session.result == Ending(t) &&
    multiset(calls)[Cleanup] == (if CleansUp(t) then 1 else 0) &&
    (CleansUp(t) ==> |calls| > 0 && calls[|calls| - 1] == Cleanup) &&
    (CancelBuilds in calls <==> t == UserCancelled(true)) &&
    (t == UserCancelled(true) ==> |calls| >= 2 && calls[|calls| - 2..] == [CancelBuilds, Cleanup])
  }

  /** A stage that ends without cleanup. */
  lemma EndsWithoutCleanup(calls: seq<Call>, prompts: seq<Prompt>, t: Terminal)
    requires Harmless(calls) && !CleansUp(t) && t != UserCancelled(true)
    ensures Follows(Session(Ending(t), calls, prompts), t)
  {
    HarmlessCounts(calls);
  }

  /** A stage that ends with one cleanup and no cancellation. */
  lemma EndsWithCleanup(calls: seq<Call>, prompts: seq<Prompt>, t: Terminal)
    requires Harmless(calls) && CleansUp(t) && t != UserCancelled(true)
    ensures Follows(Session(Ending(t), calls + [Cleanup], prompts), t)
  {
    HarmlessCounts(calls);
    assert multiset(calls + [Cleanup]) == multiset(calls) + multiset{Cleanup};
  }

  /** The table's row for the way monitoring ended. */
  function ConcludedTerminal(outcome: MonitorOutcome, cancels: bool): Terminal {
    match outcome
    case Completed(code) => if code == ExitOk then AllSucceeded else PartialOrFullFailure
    case TimedOut(_) => LocalTimeout
    case Interrupt => UserCancelled(cancels)
    case Crash => UnexpectedError
  }

  /** A stage that ends by cancelling and then cleaning up. */
  lemma EndsWithCancellation(prompts: seq<Prompt>)
    ensures Follows(Session(Returned(ExitOk), [CancelBuilds, Cleanup], prompts), UserCancelled(true))
  {
    assert multiset([CancelBuilds, Cleanup]) == multiset{CancelBuilds, Cleanup};
  }

  /** The conclusion after monitoring follows the table, given that a
      completed monitoring returns 0 or 1. */
  lemma ConcludedFollows(outcome: MonitorOutcome, cancels: bool)
    requires outcome.Completed? ==> outcome.code == ExitOk || outcome.code == ExitGeneral
    ensures Follows(Concluded(outcome, cancels), ConcludedTerminal(outcome, cancels))
  {
    var t := ConcludedTerminal(outcome, cancels);
    var c := Concluded(outcome, cancels);
    assert [] + [Cleanup] == [Cleanup];
    if outcome == Interrupt && cancels {
      EndsWithCancellation([ConfirmCancel]);
    } else if outcome == Interrupt {
      assert c == Session(Ending(t), [], [ConfirmCancel]);
      EndsWithoutCleanup([], [ConfirmCancel], t);
    } else if outcome.TimedOut? {
      assert c == Session(Ending(t), [], []);
      EndsWithoutCleanup([], [], t);
    } else {
      assert c == Session(Ending(t), [] + [Cleanup], []);
      EndsWithCleanup([], [], t);
    }
  }

  lemma MonitorCallsHarmless(end: StreamEnd)
    ensures Harmless(MonitorCalls(end))
    ensures forall c <- MonitorCalls(end) :: !c.SetProject? && c != IsProjectPrivate && !c.StartBuilds?
  {
  }

  lemma PrefixFollows(calls: seq<Call>, prompts: seq<Prompt>, rest: Session, t: Terminal)
    requires Harmless(calls) && Follows(rest, t)
    ensures Follows(After(calls, prompts, rest), t)
  {
    var all := calls + rest.calls;
    HarmlessCounts(calls);
    if |rest.calls| >= 2 {
      assert all[|all| - 2..] == rest.calls[|rest.calls| - 2..];
    }
    if |rest.calls| > 0 {
      assert all[|all| - 1] == rest.calls[|rest.calls| - 1];
    }
  }

  lemma MonitoredFollows(s: Script, cancels: bool, ctx: Context)
    ensures Follows(Monitored(s, cancels, ctx), MonitoredTerminal(s, cancels, ctx))
  {
    var outcome := Outcome(s, ctx);
    if s.streamEnd == Exhausted {
      CompletionCode(ctx.appName, ctx.buildId, s.snapshots, s.logs, s.artifacts);
    }
    assert MonitoredTerminal(s, cancels, ctx) == ConcludedTerminal(outcome, cancels);
    ConcludedFollows(outcome, cancels);
    MonitorCallsHarmless(s.streamEnd);
    PrefixFollows(MonitorCalls(s.streamEnd), [], Concluded(outcome, cancels), ConcludedTerminal(outcome, cancels));
  }

  lemma SubmitCallsHarmless(args: Args, ctx: Context, archs: seq<string>)
    ensures Harmless(SubmitCalls(args, ctx, archs))
    ensures forall c <- SubmitCalls(args, ctx, archs) :: !c.SetProject? && c != IsProjectPrivate
    ensures MonitorBuilds !in SubmitCalls(args, ctx, archs)
    ensures FetchLogs !in SubmitCalls(args, ctx, archs) && FetchArtifacts !in SubmitCalls(args, ctx, archs)
  {
  }

  lemma SubmittedFollows(s: Script, cancels: bool, args: Args, ctx: Context, archs: seq<string>)
    ensures Follows(Submitted(s, cancels, args, ctx, archs), SubmittedTerminal(s, cancels, args, ctx))
  {
    var submitted := SubmitCalls(args, ctx, archs);
    var t := SubmittedTerminal(s, cancels, args, ctx);
    SubmitCallsHarmless(args, ctx, archs);
    match Response(s, args)
    case Started =>
      MonitoredFollows(s, cancels, ctx);
      PrefixFollows(submitted, [], Monitored(s, cancels, ctx), t);
    case RepositoryConflict =>
      EndsWithCleanup(submitted, [], t);
    case Raises(f) =>
      if f == OtherFailure {
        EndsWithoutCleanup(submitted, [], t);
      } else {
        EndsWithCleanup(submitted, [], t);
      }
  }

  /** Whatever the checks before submitting give, the rest of `_run`
      follows the table. */
  lemma SessionAfterFollows(s: Script, cancels: bool, args: Args, ctx: Context,
                            prepared: Result<seq<string>, Error>)
    ensures Follows(SessionAfter(s, cancels, args, ctx, prepared), TerminalAfter(s, cancels, args, ctx, prepared))
  {
    match prepared
    case Err(e) =>
      HarmlessCounts(ValidationCalls(args));
    case Ok(archs) =>
      SubmittedFollows(s, cancels, args, ctx, archs);
      PrefixFollows(ValidationCalls(args), ValidationPrompts(s, args), Submitted(s, cancels, args, ctx, archs),
                    SubmittedTerminal(s, cancels, args, ctx));
  }

  /** `_run` follows the table, although it decides on cleanup at four
      separate places. */
  lemma SessionFollowsTable(s: Script, acknowledges: bool, cancels: bool, args: Args, ctx: Context)
    ensures Follows(SessionOf(s, acknowledges, cancels, args, ctx), TerminalOf(s, acknowledges, cancels, args, ctx))
  {
    SessionAfterFollows(s, cancels, args, ctx, Prepared(s, acknowledges, args, ctx));
  }

  /** Validation only names the project and asks whether it is private. */
  lemma ValidationCallsShape(args: Args)
    ensures forall c <- ValidationCalls(args) :: c.SetProject? || c == IsProjectPrivate
  {
  }

  /** The requests up to and including the one that starts or resumes the
      builds. */
  function SubmissionCalls(args: Args, ctx: Context, archs: seq<string>): seq<Call> {
    ValidationCalls(args) + SubmitCalls(args, ctx, archs)
  }

  lemma SubmissionCallsShape(args: Args, ctx: Context, archs: seq<string>)
    ensures Harmless(SubmissionCalls(args, ctx, archs))
    ensures MonitorBuilds !in SubmissionCalls(args, ctx, archs)
    ensures FetchLogs !in SubmissionCalls(args, ctx, archs) && FetchArtifacts !in SubmissionCalls(args, ctx, archs)
  {
    ValidationCallsShape(args);
    SubmitCallsHarmless(args, ctx, archs);
  }

  /** A run whose submission failed or conflicted: the submission requests,
      then what the submission stage adds. */
  lemma SubmittedSession(s: Script, cancels: bool, args: Args, ctx: Context, archs: seq<string>)
    ensures var rest := Submitted(s, cancels, args, ctx, archs);
      SessionAfter(s, cancels, args, ctx, Ok(archs)) ==
        Session(rest.result, ValidationCalls(args) + rest.calls, ValidationPrompts(s, args) + rest.prompts)
  {
  }

  /** A run whose builds were started or resumed: the submission requests,
      those of `_monitor_and_complete`, then the conclusion. */
  lemma MonitoredSession(s: Script, cancels: bool, args: Args, ctx: Context, archs: seq<string>)
    requires args.recover || s.startResponse == Started
    ensures var c := Concluded(Outcome(s, ctx), cancels);
      SessionAfter(s, cancels, args, ctx, Ok(archs)) ==
        Session(c.result, SubmissionCalls(args, ctx, archs) + MonitorCalls(s.streamEnd) + c.calls,
                ValidationPrompts(s, args) + c.prompts)
  {
    SubmittedSession(s, cancels, args, ctx, archs);
    var submit := SubmitCalls(args, ctx, archs);
    var watched := MonitorCalls(s.streamEnd);
    var c := Concluded(Outcome(s, ctx), cancels);
    assert Submitted(s, cancels, args, ctx, archs) == Session(c.result, submit + (watched + c.calls), [] + ([] + c.prompts));
    AppendAssoc(submit, watched, c.calls);
    AppendAssoc(ValidationCalls(args), submit + watched, c.calls);
    AppendAssoc(ValidationCalls(args), submit, watched);
    assert [] + ([] + c.prompts) == c.prompts;
  }

  /** A repository conflict on submission cleans up exactly once, as the last
      request, returns 75 and never starts monitoring. */
  lemma ConflictCleansUpOnce(s: Script, cancels: bool, args: Args, ctx: Context, archs: seq<string>)
    requires !args.recover && s.startResponse == RepositoryConflict
    ensures var session := SessionAfter(s, cancels, args, ctx, Ok(archs));
      session.result == Returned(ExitTempFail) && multiset(session.calls)[Cleanup] == 1 &&
      session.calls[|session.calls| - 1] == Cleanup && MonitorBuilds !in session.calls &&
      CancelBuilds !in session.calls
  {
    var pre := SubmissionCalls(args, ctx, archs);
    SubmittedSession(s, cancels, args, ctx, archs);
    SubmissionCallsShape(args, ctx, archs);
    AppendAssoc(ValidationCalls(args), SubmitCalls(args, ctx, archs), [Cleanup]);
    assert SessionAfter(s, cancels, args, ctx, Ok(archs)) ==
           Session(Ending(SubmissionConflict), pre + [Cleanup], ValidationPrompts(s, args) + []);
    EndsWithCleanup(pre, ValidationPrompts(s, args) + [], SubmissionConflict);
  }

  /** A `RemoteBuildError` or `LaunchpadError` from `start_builds` is cleaned
      up after and re-raised; any other exception escapes without cleanup.
      Either way monitoring never starts. */
  lemma StartErrorReraised(s: Script, cancels: bool, args: Args, ctx: Context, archs: seq<string>,
                           failure: StartFailure)
    requires !args.recover && s.startResponse == Raises(failure)
    ensures var session := SessionAfter(s, cancels, args, ctx, Ok(archs));
      session.result == Raised(StartFailed(failure)) &&
      (Cleanup in session.calls <==> failure != OtherFailure) &&
      MonitorBuilds !in session.calls && CancelBuilds !in session.calls
  {
    var pre := SubmissionCalls(args, ctx, archs);
    SubmittedSession(s, cancels, args, ctx, archs);
    SubmissionCallsShape(args, ctx, archs);
    var tail := if failure == OtherFailure then [] else [Cleanup];
    AppendAssoc(ValidationCalls(args), SubmitCalls(args, ctx, archs), tail);
    assert SessionAfter(s, cancels, args, ctx, Ok(archs)).calls == pre + tail;
  }

  /** The requests of a run whose monitoring did not complete: harmless
      submission requests, the monitoring request, then the conclusion's.
      Nothing is fetched; the builds are cancelled only on a confirmed
      interrupt, and cleanup runs after that or after an unexpected error. */
  lemma ConcludedCalls(pre: seq<Call>, outcome: MonitorOutcome, cancels: bool)
    requires !outcome.Completed?
    requires Harmless(pre) && FetchLogs !in pre && FetchArtifacts !in pre
    ensures var calls := pre + [MonitorBuilds] + Concluded(outcome, cancels).calls;
      FetchLogs !in calls && FetchArtifacts !in calls &&
      (CancelBuilds in calls <==> outcome == Interrupt && cancels) &&
      (Cleanup in calls <==> outcome == Crash || (outcome == Interrupt && cancels))
  {
    var c := Concluded(outcome, cancels);
    assert Cleanup !in pre && CancelBuilds !in pre;
    match outcome
    case Interrupt =>
      if cancels { assert c.calls == [CancelBuilds, Cleanup]; } else { assert c.calls == []; }
    case Crash =>
      assert c.calls == [Cleanup];
    case TimedOut(_) =>
      assert c.calls == [];
  }

  /** Once the builds run, an interrupt always asks the operator, as the last
      prompt of the run; the builds are cancelled and cleaned up exactly when
      the operator confirms; the run returns 0 either way, without fetching
      logs or artifacts. */
  lemma InterruptAsksBeforeCancelling(s: Script, cancels: bool, args: Args, ctx: Context, archs: seq<string>)
    requires args.recover || s.startResponse == Started
    requires s.streamEnd == Interrupted
    ensures var session := SessionAfter(s, cancels, args, ctx, Ok(archs));
      session.result == Returned(ExitOk) && session.prompts == ValidationPrompts(s, args) + [ConfirmCancel] &&
      (CancelBuilds in session.calls <==> cancels) && (Cleanup in session.calls <==> cancels) &&
      FetchLogs !in session.calls && FetchArtifacts !in session.calls
  {
    MonitoredSession(s, cancels, args, ctx, archs);
    SubmissionCallsShape(args, ctx, archs);
    assert Outcome(s, ctx) == Interrupt;
    assert MonitorCalls(s.streamEnd) == [MonitorBuilds];
    ConcludedCalls(SubmissionCalls(args, ctx, archs), Outcome(s, ctx), cancels);
  }

  /** Once the builds run, any other exception from monitoring gives code 1
      and still cleans up. */
  lemma UnexpectedErrorIsGeneral(s: Script, cancels: bool, args: Args, ctx: Context, archs: seq<string>)
    requires args.recover || s.startResponse == Started
    requires s.streamEnd == Crashes
    ensures var session := SessionAfter(s, cancels, args, ctx, Ok(archs));
      session.result == Returned(ExitGeneral) && Cleanup in session.calls &&
      CancelBuilds !in session.calls && FetchLogs !in session.calls
  {
    MonitoredSession(s, cancels, args, ctx, archs);
    SubmissionCallsShape(args, ctx, archs);
    assert Outcome(s, ctx) == Crash;
    assert MonitorCalls(s.streamEnd) == [MonitorBuilds];
    ConcludedCalls(SubmissionCalls(args, ctx, archs), Outcome(s, ctx), cancels);
  }

  /** A local timeout returns 75 and leaves the remote session alone: no
      cancellation, no cleanup, no fetching. */
  lemma LocalTimeoutKeepsSession(s: Script, cancels: bool, args: Args, ctx: Context, archs: seq<string>)
    requires args.recover || s.startResponse == Started
    requires s.streamEnd == TimesOut
    ensures var session := SessionAfter(s, cancels, args, ctx, Ok(archs));
      session.result == Returned(ExitTempFail) && Cleanup !in session.calls &&
      CancelBuilds !in session.calls && FetchLogs !in session.calls && FetchArtifacts !in session.calls
  {
    MonitoredSession(s, cancels, args, ctx, archs);
    SubmissionCallsShape(args, ctx, archs);
    assert Outcome(s, ctx).TimedOut?;
    assert MonitorCalls(s.streamEnd) == [MonitorBuilds];
    ConcludedCalls(SubmissionCalls(args, ctx, archs), Outcome(s, ctx), cancels);
  }

  /** When monitoring returns or raises anything but an interrupt, cleanup
      runs exactly when the code is not 75. */
  lemma CleanupUnlessTempFail(s: Script, cancels: bool, args: Args, ctx: Context, archs: seq<string>)
    requires args.recover || s.startResponse == Started
    requires s.streamEnd != Interrupted
    ensures var session := SessionAfter(s, cancels, args, ctx, Ok(archs));
      session.result.Returned? && (Cleanup in session.calls <==> session.result.code != ExitTempFail)
  {
    if s.streamEnd == Exhausted {
      CompletedSession(s, cancels, args, ctx, archs);
      CompletionCode(ctx.appName, ctx.buildId, s.snapshots, s.logs, s.artifacts);
    } else if s.streamEnd == TimesOut {
      LocalTimeoutKeepsSession(s, cancels, args, ctx, archs);
    } else {
      UnexpectedErrorIsGeneral(s, cancels, args, ctx, archs);
    }
  }

  /** The submission stage never names the project or asks about privacy. */
  lemma SubmittedCallsShape(s: Script, cancels: bool, args: Args, ctx: Context, archs: seq<string>)
    ensures forall c <- Submitted(s, cancels, args, ctx, archs).calls :: !c.SetProject? && c != IsProjectPrivate
  {
    SubmitCallsHarmless(args, ctx, archs);
    MonitorCallsHarmless(s.streamEnd);
  }

  /** The privacy of the project is asked about exactly when the public upload
      was not acknowledged on the command line and a project is named, and a
      named project is set before anything else. */
  lemma PrivacyQueriedOnlyWithProject(s: Script, acknowledges: bool, cancels: bool, args: Args, ctx: Context)
    ensures var session := SessionOf(s, acknowledges, cancels, args, ctx);
      (IsProjectPrivate in session.calls <==> !args.acceptPublicUpload && args.project != "") &&
      (args.project != "" <==> |session.calls| > 0 && session.calls[0] == Call.SetProject(args.project))
  {
    var session := SessionOf(s, acknowledges, cancels, args, ctx);
    var calls := ValidationCalls(args);
    match Prepared(s, acknowledges, args, ctx)
    case Err(_) =>
      assert session.calls == calls;
    case Ok(archs) =>
      SubmittedSession(s, cancels, args, ctx, archs);
      SubmittedCallsShape(s, cancels, args, ctx, archs);
      var rest := Submitted(s, cancels, args, ctx, archs).calls;
      assert session.calls == calls + rest;
      if args.project == "" && |session.calls| > 0 {
        assert calls == [];
        assert session.calls[0] == rest[0];
      }
  }

  /** An error from validation or from resolving the architectures ends the
      run before anything is submitted, with that error. */
  lemma RejectedBeforeSubmission(s: Script, acknowledges: bool, cancels: bool, args: Args, ctx: Context)
    requires Prepared(s, acknowledges, args, ctx).Err?
    ensures var session := SessionOf(s, acknowledges, cancels, args, ctx);
      session.result == Raised(Prepared(s, acknowledges, args, ctx).error) &&
      !session.result.error.StartFailed? &&
      (forall c <- session.calls :: c.SetProject? || c == IsProjectPrivate) &&
      ConfirmCancel !in session.prompts
  {
    ValidationCallsShape(args);
  }

  /** Once the builds run and monitoring completes, the run fetches the logs
      and the artifacts, cleans up once, and returns the completion code. */
  lemma CompletedSession(s: Script, cancels: bool, args: Args, ctx: Context, archs: seq<string>)
    requires args.recover || s.startResponse == Started
    requires s.streamEnd == Exhausted
    ensures Outcome(s, ctx).Completed?
    ensures SessionAfter(s, cancels, args, ctx, Ok(archs)) ==
      Session(Returned(Outcome(s, ctx).code),
              SubmissionCalls(args, ctx, archs) + [MonitorBuilds, FetchLogs, FetchArtifacts, Cleanup],
              ValidationPrompts(s, args))
  {
    MonitoredSession(s, cancels, args, ctx, archs);
    CompletionCode(ctx.appName, ctx.buildId, s.snapshots, s.logs, s.artifacts);
    var pre := SubmissionCalls(args, ctx, archs);
    assert pre + MonitorCalls(s.streamEnd) + [Cleanup] == pre + [MonitorBuilds, FetchLogs, FetchArtifacts, Cleanup];
    assert ValidationPrompts(s, args) + [] == ValidationPrompts(s, args);
  }

  /** With `--recover` the builds are resumed under the build id and never
      started anew. */
  lemma RecoverResumes(s: Script, cancels: bool, args: Args, ctx: Context, archs: seq<string>)
    requires args.recover
    ensures var session := SessionAfter(s, cancels, args, ctx, Ok(archs));
      ResumeBuilds(ctx.buildId) in session.calls && MonitorBuilds in session.calls &&
      forall c <- session.calls :: !c.StartBuilds?
  {
    MonitoredSession(s, cancels, args, ctx, archs);
    ValidationCallsShape(args);
    MonitorCallsHarmless(s.streamEnd);
    var pre := SubmissionCalls(args, ctx, archs);
    var watched := MonitorCalls(s.streamEnd);
    var c := Concluded(Outcome(s, ctx), cancels).calls;
    var calls := pre + watched + c;
    assert calls[|pre| - 1] == ResumeBuilds(ctx.buildId);
    assert calls[|pre|] == MonitorBuilds;
    assert forall x <- pre :: !x.StartBuilds?;
    assert forall x <- c :: !x.StartBuilds?;
  }

  /** With the upload acknowledged on the command line, no `--build-for` and
      a plan whose entries build on distinct architectures, the checks pass
      and every build-for of the plan is built. */
  lemma PlanPassesChecks(s: Script, acknowledges: bool, args: Args, ctx: Context)
    requires args.acceptPublicUpload && args.buildFor == None && ctx.declaresPlatforms
    requires forall i, j :: 0 <= i < j < |ctx.plan| ==> ctx.plan[i].buildOn != ctx.plan[j].buildOn
    ensures Prepared(s, acknowledges, args, ctx) == Ok(BuildForsOf(ctx.plan))
  {
    ConflictsIffSharedBuildOn(ctx.plan);
  }

  /** The options of the scenarios below: the upload acknowledged on the
      command line, no project, no `--build-for`, no timeout, no `--recover`. */
  const PlainArgs := Args("", true, None, 0, false)

  /** A plan building on and for two distinct architectures passes the checks
      and builds for both, in plan order. */
  lemma TwoArchitecturesPass(s: Script, acknowledges: bool, ctx: Context, arch1: string, arch2: string)
    requires arch1 != arch2
    requires ctx.plan == [BuildInfo(arch1, arch1), BuildInfo(arch2, arch2)] && ctx.declaresPlatforms
    ensures Prepared(s, acknowledges, PlainArgs, ctx) == Ok([arch1, arch2])
  {
    PlanPassesChecks(s, acknowledges, PlainArgs, ctx);
    assert BuildForsOf(ctx.plan) == [arch1, arch2];
  }

  /** Started builds for two architectures that both succeed, with logs and
      artifacts fetched, end with code 0 after one cleanup. */
  lemma BothBuildsSucceed(s: Script, cancels: bool, ctx: Context, arch1: string, arch2: string)
    requires s.startResponse == Started && s.streamEnd == Exhausted
    requires s.snapshots == [map[arch1 := Success, arch2 := Success]]
    requires |s.logs| > 0 && |s.artifacts| > 0
    ensures SessionAfter(s, cancels, PlainArgs, ctx, Ok([arch1, arch2])) ==
      Session(Returned(ExitOk),
              [StartBuilds(ctx.projectDir, [arch1, arch2]), MonitorBuilds, FetchLogs, FetchArtifacts, Cleanup],
              [])
  {
    CompletedSession(s, cancels, PlainArgs, ctx, [arch1, arch2]);
    var states := s.snapshots[0];
    assert FinalStates(s.snapshots) == states;
    forall a | a in states ensures states[a] == Success {}
  }

  /** A plan building on and for two architectures, both of which succeed,
      with logs and artifacts fetched: the run returns 0 after one cleanup. */
  lemma TwoArchitecturesSucceed(s: Script, acknowledges: bool, cancels: bool, ctx: Context,
                                arch1: string, arch2: string)
    requires arch1 != arch2
    requires ctx.plan == [BuildInfo(arch1, arch1), BuildInfo(arch2, arch2)] && ctx.declaresPlatforms
    requires s.startResponse == Started && s.streamEnd == Exhausted
    requires s.snapshots == [map[arch1 := Success, arch2 := Success]]
    requires |s.logs| > 0 && |s.artifacts| > 0
    ensures SessionOf(s, acknowledges, cancels, PlainArgs, ctx) ==
      Session(Returned(ExitOk),
              [StartBuilds(ctx.projectDir, [arch1, arch2]), MonitorBuilds, FetchLogs, FetchArtifacts, Cleanup],
              [])
  {
    TwoArchitecturesPass(s, acknowledges, ctx, arch1, arch2);
    BothBuildsSucceed(s, cancels, ctx, arch1, arch2);
  }

  /** A plan for one architecture passes the checks and builds for it. */
  lemma SingleArchitecturePasses(s: Script, acknowledges: bool, ctx: Context, arch: string)
    requires ctx.plan == [BuildInfo(arch, arch)] && ctx.declaresPlatforms
    ensures Prepared(s, acknowledges, PlainArgs, ctx) == Ok([arch])
  {
    PlanPassesChecks(s, acknowledges, PlainArgs, ctx);
    assert BuildForsOf(ctx.plan) == [arch];
  }

  /** A started build that has failed when monitoring ends gives code 1 and
      still cleans up, whatever was fetched. */
  lemma BuildFailed(s: Script, cancels: bool, ctx: Context, arch: string)
    requires s.startResponse == Started && s.streamEnd == Exhausted
    requires s.snapshots == [map[arch := Failed]]
    ensures SessionAfter(s, cancels, PlainArgs, ctx, Ok([arch])) ==
      Session(Returned(ExitGeneral),
              [StartBuilds(ctx.projectDir, [arch]), MonitorBuilds, FetchLogs, FetchArtifacts, Cleanup], [])
  {
    CompletedSession(s, cancels, PlainArgs, ctx, [arch]);
    assert FinalStates(s.snapshots)[arch] == Failed;
  }

  /** A plan for one architecture whose build has failed when monitoring
      ends: the run returns 1 and still cleans up, whatever was fetched. */
  lemma SingleArchitectureFails(s: Script, acknowledges: bool, cancels: bool, ctx: Context, arch: string)
    requires ctx.plan == [BuildInfo(arch, arch)] && ctx.declaresPlatforms
    requires s.startResponse == Started && s.streamEnd == Exhausted
    requires s.snapshots == [map[arch := Failed]]
    ensures SessionOf(s, acknowledges, cancels, PlainArgs, ctx) ==
      Session(Returned(ExitGeneral),
              [StartBuilds(ctx.projectDir, [arch]), MonitorBuilds, FetchLogs, FetchArtifacts, Cleanup], [])
  {
    SingleArchitecturePasses(s, acknowledges, ctx, arch);
    BuildFailed(s, cancels, ctx, arch);
  }

  /** Without `--build-for` and with the upload acknowledged, the checks pass
      whenever no two plan entries share a build-on. */
  lemma PlainChecksPass(s: Script, acknowledges: bool, ctx: Context)
    requires Conflicts(ctx.plan) == []
    ensures Prepared(s, acknowledges, PlainArgs, ctx).Ok?
  {
  }

  /** Monitoring that times out after two snapshots with build id `abc123`:
      the run returns 75 without cleaning up, and the resume command names
      `--build-id=abc123`. */
  lemma TimeoutAfterTwoSnapshots(s: Script, acknowledges: bool, cancels: bool, ctx: Context)
    requires Conflicts(ctx.plan) == [] && ctx.buildId == "abc123"
    requires s.startResponse == Started && s.streamEnd == TimesOut && |s.snapshots| == 2
    ensures var session := SessionOf(s, acknowledges, cancels, PlainArgs, ctx);
      session.result == Returned(ExitTempFail) && Cleanup !in session.calls &&
      ResumedBuildId(ctx.appName, Outcome(s, ctx).resumeCommand) == Some("abc123")
  {
    PlainChecksPass(s, acknowledges, ctx);
    LocalTimeoutKeepsSession(s, cancels, PlainArgs, ctx, Prepared(s, acknowledges, PlainArgs, ctx).value);
    TimeoutOutcome(ctx.appName, ctx.buildId, s.snapshots, s.logs, s.artifacts);
  }
}
