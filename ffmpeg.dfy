/** `check_ffmpeg`, written identically in both worker scripts: try the
    decoder named by three environment variables and then the bare name
    `ffmpeg`, and report the first one whose `-version` probe exits 0. */
module Ffmpeg {
  import opened Common

  /** How one run of `<candidate> -version` (5 second timeout) ended. */
  datatype ProbeOutcome =
    | Exited(code: int)
    | TimedOut          // subprocess.TimeoutExpired
    | NotFound          // FileNotFoundError
    | PermissionDenied  // PermissionError
    | Raised(message: string)  // any other exception: it is not caught

  datatype FfmpegStatus =
    | Available(path: string)
    | Unavailable(error: string)
    /** The probe raised an exception the loop does not catch; the script
        ends with a traceback and no JSON. */
    | ProbeAborted(message: string)

  const NotFoundError := "FFmpeg not found in PATH or environment variables"
  const SystemName := "ffmpeg"

  /** The environment variables consulted, in order. */
  const EnvNames: seq<string> := ["FFMPEG_PATH", "FFMPEG_EXECUTABLE", "FFMPEG_BINARY"]

  /** `os.environ.get(name)`. */
  function EnvGet(env: map<string, string>, name: string): (v: Option<string>)
    ensures v.Some? <==> name in env
    ensures v.Some? ==> v.value == env[name]
  {
    if name in env then Some(env[name]) else None
  }

  /** The candidate list: `os.environ.get` of each variable, then `"ffmpeg"`. */
  function Candidates(env: map<string, string>): (c: seq<Option<string>>)
    ensures |c| == 4 && c[3] == Some(SystemName)
    ensures forall k :: 0 <= k < 3 ==> c[k] == EnvGet(env, EnvNames[k])
  {
    [EnvGet(env, EnvNames[0]), EnvGet(env, EnvNames[1]), EnvGet(env, EnvNames[2]), Some(SystemName)]
  }

  /** The loop moves past this candidate: unset or empty, or its probe
      exited non-zero, timed out, or was refused as missing or not permitted. */
  predicate Skips(c: Option<string>, probe: string -> ProbeOutcome) {
    c.None? || c.value == "" ||
    match probe(c.value)
    case Exited(code) => code != 0
    case TimedOut => true
    case NotFound => true
    case PermissionDenied => true
    case Raised(_) => false
  }

  /** The outcome of trying `cands` in order. */
  function FirstAvailable(cands: seq<Option<string>>, probe: string -> ProbeOutcome): (r: FfmpegStatus)
    ensures r.Available? ==>
              exists k :: 0 <= k < |cands| && cands[k] == Some(r.path) && r.path != ""
                          && probe(r.path) == Exited(0)
                          && forall j :: 0 <= j < k ==> Skips(cands[j], probe)
    ensures r.ProbeAborted? ==>
              exists k :: 0 <= k < |cands| && cands[k].Some? && cands[k].value != ""
                          && probe(cands[k].value) == Raised(r.message)
                          && forall j :: 0 <= j < k ==> Skips(cands[j], probe)
    ensures r.Unavailable? <==> forall j :: 0 <= j < |cands| ==> Skips(cands[j], probe)
    ensures r.Unavailable? ==> r.error == NotFoundError
  {
    if |cands| == 0 then Unavailable(NotFoundError)
    else if Skips(cands[0], probe) then
      var rest := FirstAvailable(cands[1..], probe);
      assert forall j :: 1 <= j < |cands| ==> cands[j] == cands[1..][j - 1];
      rest
    else if probe(cands[0].value) == Exited(0) then Available(cands[0].value)
    else ProbeAborted(probe(cands[0].value).message)
  }

  /** `check_ffmpeg()`: the loop with early return over the candidate list. */
  method CheckFfmpeg(env: map<string, string>, probe: string -> ProbeOutcome) returns (r: FfmpegStatus)
    ensures r == FirstAvailable(Candidates(env), probe)
  {
    var paths := Candidates(env);
    var i := 0;
    while i < |paths|
      invariant 0 <= i <= |paths|
      invariant FirstAvailable(paths, probe) == FirstAvailable(paths[i..], probe)
    {
      var path := paths[i];
      if path.None? || path.value == "" {
        assert paths[i..][1..] == paths[i + 1..];
        i := i + 1;
        continue;
      }
      var outcome := probe(path.value);
      if outcome == Exited(0) {
        return Available(path.value);
      }
      if outcome.Raised? {
        return ProbeAborted(outcome.message);
      }
      assert paths[i..][1..] == paths[i + 1..];
      i := i + 1;
    }
    return Unavailable(NotFoundError);
  }

  /** A usable decoder named by FFMPEG_PATH wins over everything after it. */
  lemma PathOverrideWins(env: map<string, string>, probe: string -> ProbeOutcome)
    requires "FFMPEG_PATH" in env && env["FFMPEG_PATH"] != ""
    requires probe(env["FFMPEG_PATH"]) == Exited(0)
    ensures FirstAvailable(Candidates(env), probe) == Available(env["FFMPEG_PATH"])
  {
    var c := Candidates(env);
    assert c[0] == Some(env["FFMPEG_PATH"]);
  }

  /** With no decoder variable set, the answer depends only on the probe of `ffmpeg`. */
  lemma {:induction false} SystemFallback(env: map<string, string>, probe: string -> ProbeOutcome)
    requires forall k :: 0 <= k < 3 ==> EnvNames[k] !in env
    ensures FirstAvailable(Candidates(env), probe) ==
              match probe(SystemName)
              case Exited(code) => if code == 0 then Available(SystemName) else Unavailable(NotFoundError)
              case Raised(m) => ProbeAborted(m)
              case _ => Unavailable(NotFoundError)
  {
    var c := Candidates(env);
    assert c == [None, None, None, Some(SystemName)];
    assert c[1..] == [None, None, Some(SystemName)];
    assert c[1..][1..] == [None, Some(SystemName)];
    assert c[1..][1..][1..] == [Some(SystemName)];
    assert c[1..][1..][1..][1..] == [];
  }

  /** A variable set to the empty string is skipped exactly as an unset one. */
  lemma EmptyVariableIsUnset(env: map<string, string>, name: string, probe: string -> ProbeOutcome)
    requires name in EnvNames
    ensures FirstAvailable(Candidates(env[name := ""]), probe)
         == FirstAvailable(Candidates(env - {name}), probe)
  {
    var a, b := Candidates(env[name := ""]), Candidates(env - {name});
    forall k | 0 <= k < 4 ensures Skips(a[k], probe) == Skips(b[k], probe)
                            && (!Skips(a[k], probe) ==> a[k] == b[k]) { }
    FirstAvailableAgree(a, b, probe);
  }

  /** Two candidate lists that skip at the same places and agree elsewhere give the same outcome. */
  lemma {:induction false} FirstAvailableAgree(a: seq<Option<string>>, b: seq<Option<string>>,
                                               probe: string -> ProbeOutcome)
    requires |a| == |b|
    requires forall k :: 0 <= k < |a| ==> Skips(a[k], probe) == Skips(b[k], probe)
    requires forall k :: 0 <= k < |a| && !Skips(a[k], probe) ==> a[k] == b[k]
    ensures FirstAvailable(a, probe) == FirstAvailable(b, probe)
  {
    if |a| > 0 && Skips(a[0], probe) {
      FirstAvailableAgree(a[1..], b[1..], probe);
    }
  }
}
