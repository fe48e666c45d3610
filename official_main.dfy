/** `main` of `whisper_bridge_mlx_official.py`: dispatch on `--mode`,
    print one JSON payload and set the exit status. */
module OfficialMain {
  import opened Common
  import opened Cli
  import opened Ffmpeg
  import opened OfficialTranscription
  import opened DownloadMonitor
  import opened OfficialModels
  import opened OfficialStore

  datatype Mode = Transcribe | Download | Check | List | Delete | CheckFfmpegMode

  datatype Args = Args(audioFile: Option<string>, model: string, language: Option<string>,
                       outputFormat: OutputFormat, mode: Mode)

  /** The outside world for one run: environment and decoder probe, the
      audio file's existence and the speech engine, and for a download the
      monitor's polls, its start time and how the fetch ends; for a delete,
      the error `rmtree` raises, if any. */
  datatype World = World(env: map<string, string>, probe: string -> ProbeOutcome,
                         audioExists: bool, engine: (string, string, Option<string>) -> EngineOutput,
                         start: real, polls: seq<Poll>, fetch: FetchOutcome,
                         removal: Option<string>)

  datatype Payload =
    | TranscribePayload(transcription: TranscribeResult)
    | ModelPayload(report: ModelReport)
    | ListPayload(listing: ListReport)
    | DeletePayload(deletion: DeleteReport)
    | FfmpegPayload(status: FfmpegStatus)
    | UsagePayload(error: string)

  /** `result.get("success")` of the payloads a model-store mode prints;
      a listing always succeeds. */
  predicate StoreSuccess(p: Payload) {
    match p
    case ModelPayload(report) => report.Success()
    case ListPayload(_) => true
    case DeletePayload(deletion) => deletion.Success()
    case _ => false
  }

  predicate IsStoreMode(m: Mode) {
    m == Download || m == Check || m == List || m == Delete
  }

  /** `main()`, from parsed arguments. The model-store modes exit 0 iff
      their payload reports success, `check-ffmpeg` iff a decoder was
      found. Transcription exits 1 without an audio file; with one, the
      JSON format always exits 0, and the text format exits 1 on failure. */
  method Run(hub: HubCache, args: Args, world: World) returns (reply: Reply<Payload>)
    modifies hub
    ensures IsStoreMode(args.mode) ==>
              reply.output.JsonLine? && (reply.exitCode == 0 <==> StoreSuccess(reply.output.payload))
    ensures args.mode == Check ==>
              reply.output == JsonLine(ModelPayload(CheckModelStatus(old(hub.folders), hub.cacheDir, args.model)))
    ensures args.mode == Download ==>
              var r := DownloadResult(old(hub.folders), hub.cacheDir, args.model, world.fetch);
              && reply == Reply(JsonLine(ModelPayload(r)), if r.Success() then 0 else 1)
              && hub.folders == DownloadFolders(old(hub.folders), args.model, world.fetch)
    ensures args.mode == Delete ==>
              var r := DeleteResult(old(hub.folders), args.model, world.removal);
              && reply == Reply(JsonLine(DeletePayload(r)), if r.Success() then 0 else 1)
              && hub.folders == DeleteFolders(old(hub.folders), args.model, world.removal)
    ensures args.mode == List ==>
              && reply.exitCode == 0 && reply.output.JsonLine? && reply.output.payload.ListPayload?
              && reply.output.payload.listing.cacheDir == hub.cacheDir
              && |reply.output.payload.listing.models| == |ModelMapping|
              && forall i :: 0 <= i < |ModelMapping| ==>
                   reply.output.payload.listing.models[i]
                   == CheckModelStatus(old(hub.folders), hub.cacheDir, ModelMapping[i].0)
    ensures args.mode == CheckFfmpegMode ==>
              var status := FirstAvailable(Candidates(world.env), world.probe);
              && (reply.exitCode == 0 <==> status.Available?)
              && reply.output == (if status.ProbeAborted? then Traceback else JsonLine(FfmpegPayload(status)))
    ensures args.mode == Transcribe && NoAudioFile(args.audioFile) ==>
              reply == Reply(JsonLine(UsagePayload(AudioRequired)), 1)
    ensures args.mode == Transcribe && !NoAudioFile(args.audioFile) ==>
              var r := TranscribeAudio(args.audioFile.value, args.model, args.language,
                                       world.audioExists, world.engine);
              reply == match args.outputFormat
                       case Json => Reply(JsonLine(TranscribePayload(r)), 0)
                       case PlainText => if r.Success() then Reply(TextLine(r.text), 0)
                                         else Reply(ErrorLine("Error: " + r.error), 1)
    ensures args.mode != Download && args.mode != Delete ==> hub.folders == old(hub.folders)
  {
    if args.mode == Download {
      var result, _, _ := hub.DownloadModel(args.model, world.start, world.polls, world.fetch);
      reply := Reply(JsonLine(ModelPayload(result)), if result.Success() then 0 else 1);
    } else if args.mode == Check {
      var result := CheckModelStatus(hub.folders, hub.cacheDir, args.model);
      reply := Reply(JsonLine(ModelPayload(result)), if result.Success() then 0 else 1);
    } else if args.mode == List {
      var result := hub.ListModels();
      reply := Reply(JsonLine(ListPayload(result)), 0);
    } else if args.mode == Delete {
      var result := hub.DeleteModel(args.model, world.removal);
      reply := Reply(JsonLine(DeletePayload(result)), if result.Success() then 0 else 1);
    } else if args.mode == CheckFfmpegMode {
      var status := CheckFfmpeg(world.env, world.probe);
      if status.ProbeAborted? {
        return Reply(Traceback, 1);
      }
      reply := Reply(JsonLine(FfmpegPayload(status)), if status.Available? then 0 else 1);
    } else {
      if NoAudioFile(args.audioFile) {
        return Reply(JsonLine(UsagePayload(AudioRequired)), 1);
      }
      var result := TranscribeAudio(args.audioFile.value, args.model, args.language,
                                    world.audioExists, world.engine);
      if args.outputFormat == Json {
        reply := Reply(JsonLine(TranscribePayload(result)), 0);
      } else if result.Success() {
        reply := Reply(TextLine(result.text), 0);
      } else {
        reply := Reply(ErrorLine("Error: " + result.error), 1);
      }
    }
  }
}
