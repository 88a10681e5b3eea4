/** The process exit codes and the errors `snapcraft remote-build` raises. */
module Errors {
  import opened Wrappers

  /** `os.EX_OK`, `os.EX_TEMPFAIL`, `os.EX_NOPERM` and `os.EX_CONFIG`. */
  const ExitOk := 0
  const ExitGeneral := 1
  const ExitTempFail := 75
  const ExitNoPerm := 77
  const ExitConfig := 78

  /** One build-on architecture of the plan that would produce several snaps,
      with the build-for of every plan entry building on it, in plan order. */
  datatype Conflict = Conflict(buildOn: string, buildFors: seq<string>)

  /** How `start_builds` can fail. */
  datatype StartFailure =
    | RemoteBuildFailure   // craft_application's RemoteBuildError
    | LaunchpadFailure     // craft_application.launchpad.LaunchpadError
    | OtherFailure         // any other exception: not caught by the command

  datatype Error =
    | PublicUploadNotAcknowledged
    | UnsupportedBuildFor(arch: string)
    | MultipleArtifactsPerBuildOn(conflicts: seq<Conflict>)
    | EmptyBuildPlan
    | StartFailed(cause: StartFailure)

  /** The `retcode` the command attaches to the errors it constructs itself;
      the others carry whatever code their raising library gives them. */
  function Retcode(e: Error): (code: Option<int>)
    ensures e.PublicUploadNotAcknowledged? ==> code == Some(ExitNoPerm)
    ensures (e.UnsupportedBuildFor? || e.MultipleArtifactsPerBuildOn?) ==> code == Some(ExitConfig)
    ensures (e.EmptyBuildPlan? || e.StartFailed?) ==> code == None
  {
    match e
    case PublicUploadNotAcknowledged => Some(ExitNoPerm)
    case UnsupportedBuildFor(_) => Some(ExitConfig)
    case MultipleArtifactsPerBuildOn(_) => Some(ExitConfig)
    case _ => None
  }
}
