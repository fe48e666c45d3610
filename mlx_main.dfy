/** `transcribe_audio` and `main` of `whisper_bridge_mlx.py`. */
module MlxBridge {
  import opened Common
  import opened Text
  import opened Cli
  import opened Ffmpeg
  import opened MlxModels

  datatype MlxResult =
    | MlxTranscribed(text: string, language: string, backend: string)
    | MlxFailed(error: string)
  {
    predicate Success() { MlxTranscribed? }
  }

  const MlxBackend := "mlx-gpu"

  /** Validation of the engine's dict (timings left out): strip the text,
      reject an empty one, default the language to English. The requested
      language is not consulted here. */
  function ShapeMlxResult(output: EngineOutput): (r: MlxResult)
    ensures r.Success() ==> r.text != [] && Stripped(r.text)
    ensures r.Success() ==> r.backend == MlxBackend
    ensures output.EngineRaised? ==> r == MlxFailed("Transcription failed: " + output.message)
  {
    match output
    case EngineRaised(message) => MlxFailed("Transcription failed: " + message)
    case EngineResult(rawText, rawLanguage) =>
      var text := Strip(if rawText.Some? then rawText.value else "");
      if text == [] then MlxFailed(NoTextError)
      else MlxTranscribed(text, if rawLanguage.Some? then rawLanguage.value else "en", MlxBackend)
  }

  /** Shaping succeeds exactly when the engine returned text that is not
      whitespace only; the language is the engine's, or English. */
  lemma {:induction false} ShapeSuccessIff(output: EngineOutput)
    ensures var raw := if output.EngineResult? && output.text.Some? then output.text.value else "";
            var r := ShapeMlxResult(output);
            && (r.Success() <==> output.EngineResult? && !AllSpace(raw))
            && (r.Success() ==> r.text == Strip(raw)
                                && r.language == if output.language.Some? then output.language.value else "en")
            && (output.EngineResult? && AllSpace(raw) ==> r == MlxFailed(NoTextError))
  {
    var raw := if output.EngineResult? && output.text.Some? then output.text.value else "";
    StripEmptyIff(raw);
  }

  /** `transcribe_audio(audio_file, model_name, language)` over the model
      cache. `engine` is `model.transcribe(audio_file, language=language)`. */
  method TranscribeAudio(cache: ModelCache, audioFile: string, modelName: string, language: Option<string>,
                         audioExists: bool, constructs: bool,
                         engine: (LoadedModel, string, Option<string>) -> EngineOutput)
    returns (r: MlxResult)
    requires cache.Valid()
    modifies cache
    ensures cache.Valid()
    ensures !audioExists ==> r == MlxFailed("Audio file not found: " + audioFile)
                             && cache.entries == old(cache.entries)
    ensures var key := CacheKey(MlxModelFor(modelName), false);
            audioExists ==>
              if key in old(cache.entries) then
                && cache.entries == old(cache.entries)
                && r == ShapeMlxResult(engine(old(cache.entries)[key], audioFile, language))
              else if constructs then
                && cache.entries == map[key := Construct(MlxModelFor(modelName), false)]
                && r == ShapeMlxResult(engine(Construct(MlxModelFor(modelName), false), audioFile, language))
              else
                && cache.entries == old(cache.entries)
                && r == MlxFailed("Failed to load model: " + modelName)
  {
    if !audioExists {
      return MlxFailed("Audio file not found: " + audioFile);
    }
    var model, cacheKey := cache.LoadModel(modelName, false, constructs);
    if model.None? {
      return MlxFailed("Failed to load model: " + modelName);
    }
    var result := engine(model.value, audioFile, language);
    r := ShapeMlxResult(result);
  }

  datatype MlxMode = Transcribe | CheckFfmpegMode

  datatype MlxArgs = MlxArgs(audioFile: Option<string>, model: string, language: Option<string>,
                             outputFormat: OutputFormat, mode: MlxMode)

  /** The outside world for one run of the script. */
  datatype MlxWorld = MlxWorld(env: map<string, string>, probe: string -> ProbeOutcome,
                               audioExists: bool, constructs: bool,
                               engine: (LoadedModel, string, Option<string>) -> EngineOutput)

  datatype MlxPayload =
    | FfmpegPayload(status: FfmpegStatus)
    | TranscribePayload(result: MlxResult)
    | UsagePayload(error: string)

  /** `main()`, from parsed arguments. Each run starts with an empty model
      cache, so a run loads at most one model. */
  method RunMlx(args: MlxArgs, world: MlxWorld) returns (reply: Reply<MlxPayload>)
    ensures args.mode == CheckFfmpegMode ==>
              var status := FirstAvailable(Candidates(world.env), world.probe);
              && (reply.exitCode == 0 <==> status.Available?)
              && reply.output == (if status.ProbeAborted? then Traceback else JsonLine(FfmpegPayload(status)))
    ensures args.mode == Transcribe && NoAudioFile(args.audioFile) ==>
              reply == Reply(JsonLine(UsagePayload(AudioRequired)), 1)
    ensures args.mode == Transcribe && !NoAudioFile(args.audioFile) ==>
              var r := if !world.audioExists then MlxFailed("Audio file not found: " + args.audioFile.value)
                       else if world.constructs then
                         ShapeMlxResult(world.engine(Construct(MlxModelFor(args.model), false),
                                                     args.audioFile.value, args.language))
                       else MlxFailed("Failed to load model: " + args.model);
              reply == match args.outputFormat
                       case Json => Reply(JsonLine(TranscribePayload(r)), 0)
                       case PlainText => if r.Success() then Reply(TextLine(r.text), 0)
                                         else Reply(ErrorLine("Error: " + r.error), 1)
  {
    if args.mode == CheckFfmpegMode {
      var status := CheckFfmpeg(world.env, world.probe);
      if status.ProbeAborted? {
        return Reply(Traceback, 1);
      }
      return Reply(JsonLine(FfmpegPayload(status)), if status.Available? then 0 else 1);
    }
    if NoAudioFile(args.audioFile) {
      return Reply(JsonLine(UsagePayload(AudioRequired)), 1);
    }
    var cache := new ModelCache();
    var result := TranscribeAudio(cache, args.audioFile.value, args.model, args.language,
                                  world.audioExists, world.constructs, world.engine);
    match args.outputFormat {
      case Json =>
        reply := Reply(JsonLine(TranscribePayload(result)), 0);
      case PlainText =>
        if result.Success() {
          reply := Reply(TextLine(result.text), 0);
        } else {
          reply := Reply(ErrorLine("Error: " + result.error), 1);
        }
    }
  }
}
