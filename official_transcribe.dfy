/** The backend label `transcribe_audio` of `whisper_bridge_mlx_official.py`
    reports: the first of three substring tests on the UI name and the
    repository that matches. */
module OfficialBackend {
  import opened Common
  import opened Text
  import opened OfficialModels

  /** The backend label, chosen by the first substring test that matches. */
  datatype Backend = OfficialQ4 | Official8bit | OfficialTurbo | Official {
    function Label(): string {
      match this
      case OfficialQ4 => "mlx-official-q4"
      case Official8bit => "mlx-official-8bit"
      case OfficialTurbo => "mlx-official-turbo"
      case Official => "mlx-official"
    }
  }

  /** True iff `tag` occurs in the UI name or in the repository. */
  predicate Mentions(modelName: string, repo: string, tag: string) {
    Contains(modelName, tag) || Contains(repo, tag)
  }

  /** The `if`/`elif` chain on `q4`, `8bit` and `turbo`, in that order. */
  function ClassifyBackend(modelName: string, repo: string): (b: Backend)
    ensures b == OfficialQ4 <==> Mentions(modelName, repo, "q4")
    ensures b == Official8bit <==> !Mentions(modelName, repo, "q4") && Mentions(modelName, repo, "8bit")
    ensures b == OfficialTurbo <==>
              !Mentions(modelName, repo, "q4") && !Mentions(modelName, repo, "8bit")
              && Mentions(modelName, repo, "turbo")
  {
    if Mentions(modelName, repo, "q4") then OfficialQ4
    else if Mentions(modelName, repo, "8bit") then Official8bit
    else if Mentions(modelName, repo, "turbo") then OfficialTurbo
    else Official
  }

  /** The quantised turbo model is reported as 4-bit, not as turbo. */
  lemma TurboQ4IsQ4()
    ensures ClassifyBackend("turbo-q4", RepoFor("turbo-q4")) == OfficialQ4
  {
    assert OccursAt("turbo-q4", "q4", 6);
  }

  /** A tag is absent from name and repository when one of its characters is. */
  lemma NotMentioned(modelName: string, org: string, rest: string, tag: string, c: char)
    requires c in tag && c !in modelName && c !in org && c !in rest
    ensures !Mentions(modelName, org + rest, tag)
  {
    AbsentFromConcat(org, rest, c);
    NotContained(modelName, tag, c);
    NotContained(org + rest, tag, c);
  }

  /** An 8-bit model is reported as 8-bit. */
  lemma Large8bitIs8bit()
    ensures ClassifyBackend("large-8bit", RepoFor("large-8bit")) == Official8bit
  {
    var name, rest := "large-8bit", "whisper-large-v3-mlx-8bit";
    assert ModelMapping[11] == (name, CommunityPrefix + rest);
    NotMentioned(name, CommunityPrefix, rest, "q4", 'q');
    assert OccursAt(name, "8bit", 6);
  }

  /** The unquantised turbo model is reported as turbo. */
  lemma TurboIsTurbo()
    ensures ClassifyBackend("turbo", RepoFor("turbo")) == OfficialTurbo
  {
    var name, rest := "turbo", "whisper-large-v3-turbo";
    assert ModelMapping[6] == (name, CommunityPrefix + rest);
    NotMentioned(name, CommunityPrefix, rest, "q4", 'q');
    NotMentioned(name, CommunityPrefix, rest, "8bit", '8');
    assert OccursAt(name, "turbo", 0);
  }

  /** A full-precision model gets the plain label. */
  lemma LargeV3IsFull()
    ensures ClassifyBackend("large-v3", RepoFor("large-v3")) == Official
  {
    var name, rest := "large-v3", "whisper-large-v3";
    assert ModelMapping[5] == (name, CommunityPrefix + rest);
    NotMentioned(name, CommunityPrefix, rest, "q4", 'q');
    NotMentioned(name, CommunityPrefix, rest, "8bit", '8');
    NotMentioned(name, CommunityPrefix, rest, "turbo", 'b');
  }

  /** The label is read from the UI name as well as the repository: an
      unknown name that mentions `q4` runs the default full-precision base
      model yet is reported as the 4-bit backend. */
  lemma UnknownNameSetsLabel()
    ensures RepoFor("custom-q4") == DefaultRepo
    ensures ClassifyBackend("custom-q4", RepoFor("custom-q4")) == OfficialQ4
  {
    assert !HasKey(ModelMapping, "custom-q4");
    assert OccursAt("custom-q4", "q4", 7);
  }
}

/** `transcribe_audio` of `whisper_bridge_mlx_official.py`: the existence
    check, the repository lookup, the call into mlx-whisper (an oracle
    here), the strip-and-reject of empty text and the shape of the success
    payload. */
module OfficialTranscription {
  import opened Common
  import opened Text
  import opened OfficialModels
  import opened OfficialBackend

  /** The payload of `transcribe_audio` (timings left out). */
  datatype TranscribeResult =
    | Transcribed(text: string, language: string, backend: string, modelRepo: string)
    | TranscribeFailed(error: string)
  {
    predicate Success() { Transcribed? }
  }

  /** `language or "en"`: a missing or empty language hint becomes English. */
  function HintOrEnglish(language: Option<string>): (l: string)
    ensures l != ""
    ensures language.Some? && language.value != "" ==> l == language.value
    ensures !(language.Some? && language.value != "") ==> l == "en"
  {
    if language.Some? && language.value != "" then language.value else "en"
  }

  /** `transcribe_audio(audio_file, model_name, language)`. `audioExists`
      is `os.path.exists(audio_file)`; `engine` is what
      `mlx_whisper.transcribe` returns for a file, a repository and a
      language hint. */
  function TranscribeAudio(audioFile: string, modelName: string, language: Option<string>,
                           audioExists: bool,
                           engine: (string, string, Option<string>) -> EngineOutput): (r: TranscribeResult)
    ensures !audioExists ==> r == TranscribeFailed("Audio file not found: " + audioFile)
    ensures r.Success() ==> audioExists && r.text != [] && r.modelRepo == RepoFor(modelName)
    ensures r.Success() ==> Stripped(r.text)
    ensures r.Success() ==> r.backend == ClassifyBackend(modelName, r.modelRepo).Label()
  {
    if !audioExists then
      TranscribeFailed("Audio file not found: " + audioFile)
    else
      var repo := RepoFor(modelName);
      match engine(audioFile, repo, language)
      case EngineRaised(message) => TranscribeFailed("Transcription failed: " + message)
      case EngineResult(rawText, rawLanguage) =>
        var text := Strip(if rawText.Some? then rawText.value else "");
        if text == [] then TranscribeFailed(NoTextError)
        else
          var lang := if rawLanguage.Some? then rawLanguage.value else HintOrEnglish(language);
          Transcribed(text, lang, ClassifyBackend(modelName, repo).Label(), repo)
  }

  /** A missing file fails before any transcription: the engine is never
      consulted, so every engine gives the same answer. */
  lemma MissingFileIgnoresEngine(audioFile: string, modelName: string, language: Option<string>,
                                 e1: (string, string, Option<string>) -> EngineOutput,
                                 e2: (string, string, Option<string>) -> EngineOutput)
    ensures TranscribeAudio(audioFile, modelName, language, false, e1)
         == TranscribeAudio(audioFile, modelName, language, false, e2)
  { }

  /** Success happens exactly when the file exists, the engine returns, and
      its text is not whitespace only; then the payload carries that text
      stripped, the mapped repository and the engine's language, falling
      back to the hint and then to English. */
  lemma {:induction false} TranscribeSuccessIff(audioFile: string, modelName: string,
                                                language: Option<string>, audioExists: bool,
                                                engine: (string, string, Option<string>) -> EngineOutput)
    ensures var out := engine(audioFile, RepoFor(modelName), language);
            var raw := if out.EngineResult? && out.text.Some? then out.text.value else "";
            var r := TranscribeAudio(audioFile, modelName, language, audioExists, engine);
            && (r.Success() <==> audioExists && out.EngineResult? && !AllSpace(raw))
            && (r.Success() ==> r.text == Strip(raw)
                                && r.language == (if out.language.Some? then out.language.value
                                                  else HintOrEnglish(language)))
            && (audioExists && out.EngineResult? && AllSpace(raw) ==> r == TranscribeFailed(NoTextError))
  {
    var out := engine(audioFile, RepoFor(modelName), language);
    if audioExists && out.EngineResult? {
      var raw := if out.text.Some? then out.text.value else "";
      StripEmptyIff(raw);
    }
  }

  /** An exception from the engine becomes a failure carrying its message. */
  lemma EngineRaisedFails(audioFile: string, modelName: string, language: Option<string>,
                          engine: (string, string, Option<string>) -> EngineOutput, message: string)
    requires engine(audioFile, RepoFor(modelName), language) == EngineRaised(message)
    ensures TranscribeAudio(audioFile, modelName, language, true, engine)
         == TranscribeFailed("Transcription failed: " + message)
  { }
}
