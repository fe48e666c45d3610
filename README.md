# Whisper MLX bridge workers, modelled in Dafny

Two Python worker scripts let a desktop transcription app use Apple-silicon
speech recognition. Each is started once per request with command-line
arguments, prints one JSON document (or plain text) on stdout, and reports
success through its exit status.

- `whisper_bridge_mlx_official.py` maps a UI model name ("tiny", "turbo",
  "large-8bit", …) to an `mlx-community/…` Hugging Face repository and
  offers six modes: transcribe a file, download a model while a monitor
  loop reports progress, check whether a model is in the hub cache, list
  every model's status, delete a model's cache folder, and look for an
  FFmpeg decoder.
- `whisper_bridge_mlx.py` maps the UI name to one of five MLX model names,
  keeps a single-entry model cache keyed by name and quantisation, and
  offers transcription and the FFmpeg check.

The project models both scripts file by file:

| file | module(s) | what it holds |
|---|---|---|
| `common.dfy` | `Common`, `Cli` | `Option`, ordered dict tables with `dict.get`, the engine's answer, the reply of a run |
| `text.dfy` | `Text` | `str.strip()` over Python's whitespace set, `in` on strings, `str.replace` of one character, `os.path.join` |
| `ffmpeg.dfy` | `Ffmpeg` | `check_ffmpeg` (identical in both scripts, modelled once) |
| `official_models.dfy` | `OfficialModels` | `MODEL_MAPPING` and the `models--org--name` folder rule |
| `official_transcribe.dfy` | `OfficialBackend`, `OfficialTranscription` | backend label, `transcribe_audio` |
| `download_monitor.dfy` | `DownloadMonitor` | `monitor_download_progress` as a loop over polls |
| `official_store.dfy` | `OfficialStore` | the hub cache as a class: check, list, delete, download |
| `official_main.dfy` | `OfficialMain` | `main()` of the official script |
| `mlx_models.dfy` | `MlxModels` | the MLX mapping, the cache key, `load_model` over the cache class |
| `mlx_main.dfy` | `MlxBridge` | `transcribe_audio` and `main()` of the MLX script |

What the outside world does is passed in as parameters:
- environment variables are a `map<string, string>`;
- a decoder probe is a function from path to `ProbeOutcome` (exit code,
  time-out, missing, not permitted, or another exception);
- `os.path.exists` of the audio file and whether the model constructor
  raises are booleans;
- the speech engine is a function from its arguments to `EngineOutput`;
- the hub cache is a map from folder name to total bytes below it;
- the download's end is a `FetchOutcome`, and the monitor thread's
  iterations are a sequence of `Poll`s (folder size, `time.time()`).

The monitor is modelled as a sequential loop over those polls. Python
floats are exact reals.

Behaviour the model keeps because the code has it:
- In the official script, `transcribe` with the JSON format exits 0 even
  when transcription failed. Only the text format exits 1 on failure.
- The monitor's emit test compares `current_time - last_progress_update`,
  where `last_progress_update` holds a percentage. With any wall-clock
  reading above 100.5 every poll emits an event
  (`DownloadMonitor.MonitorDownload`, last ensures).
- The stall exit only fires when one poll interval exceeds 30 seconds,
  because the last-update time is refreshed on every poll.
- `large-v3` and `large-v3-turbo` have no expected size and are measured
  against the 1000 MiB default.
- An unknown UI name containing `q4` runs the default base model and is
  still labelled as the 4-bit backend.
- The MLX script ignores the requested language when it fills in the
  result's language. The official script falls back to the hint, then to
  `en`.

## Model

| member | source | states |
|---|---|---|
| Common.Get | whisper_bridge_mlx_official.py:63 | `dict.get` over an insertion-ordered table: the value of the first entry with the key, the default when no entry has it |
| Common.GetDistinct | whisper_bridge_mlx_official.py:28-46 | in a table without repeated keys, the lookup returns the value of whichever entry carries the key |
| Common.Keys | whisper_bridge_mlx_official.py:380 | `list(d.keys())` has one key per entry, in insertion order |
| Cli.NoAudioFile | whisper_bridge_mlx_official.py:477 | definition: `not args.audio_file`, the positional argument is absent or the empty string (the same test is at whisper_bridge_mlx.py:179) |
| Text.IsSpace | whisper_bridge_mlx_official.py:76 | definition: the characters `str.strip()` removes, the ASCII controls tab to carriage return, the separators 0x1c-0x1f, and the Unicode spaces |
| Text.LeadingSpace | whisper_bridge_mlx_official.py:76 | the number of leading whitespace characters: all of them are whitespace and the next character, if any, is not |
| Text.TrailingSpace | whisper_bridge_mlx_official.py:76 | the number of trailing whitespace characters: all of them are whitespace and the character before them, if any, is not |
| Text.TrimStart | whisper_bridge_mlx_official.py:76 | the result is a suffix of the input, all removed characters are whitespace, and what is left starts with a non-space |
| Text.TrimEnd | whisper_bridge_mlx_official.py:76 | the result is a prefix, all removed characters are whitespace, and what is left ends with a non-space |
| Text.Strip | whisper_bridge_mlx_official.py:76 | `str.strip()` is the slice of the input between its leading and its trailing whitespace, and has no whitespace at either end |
| Text.StripEmptyIff | whisper_bridge_mlx.py:98-99 | the stripped text is empty exactly when the input is whitespace only |
| Text.StripIdempotent | whisper_bridge_mlx.py:98 | stripping twice is stripping once |
| Text.Contains | whisper_bridge_mlx_official.py:86 | definition: Python's `t in s`, the needle occurs as a contiguous slice at some position (the empty needle everywhere) |
| Text.NotContained | whisper_bridge_mlx_official.py:86-92 | a needle with a character the haystack lacks is not contained |
| Text.ReplaceChar | whisper_bridge_mlx_official.py:161 | after `replace('/', …)` with a replacement without `/`, no `/` is left |
| Text.ReplaceCharConcat | whisper_bridge_mlx_official.py:161 | replacing distributes over concatenation |
| Text.ReplaceCharAbsent | whisper_bridge_mlx_official.py:161 | replacing an absent character changes nothing |
| Text.Join | whisper_bridge_mlx_official.py:162 | `os.path.join(dir, name)` starts with the directory and ends with the name; exactly one `/` is inserted between them exactly when the directory is non-empty and does not already end with `/` |
| Ffmpeg.EnvGet | whisper_bridge_mlx_official.py:129-131 | `os.environ.get` is set exactly when the variable is in the environment, and then carries its value |
| Ffmpeg.Candidates | whisper_bridge_mlx_official.py:128-133 | four candidates: the three variables in order, unset as None, then `ffmpeg` |
| Ffmpeg.Skips | whisper_bridge_mlx_official.py:136-151 | definition: a candidate is passed over when it is unset or empty, exits non-zero, times out, is missing or not permitted; any other exception is not caught |
| Ffmpeg.FirstAvailable | whisper_bridge_mlx_official.py:135-156 | available means the first candidate not skipped probed with exit 0; an uncaught probe exception aborts at the first candidate not skipped; unavailable exactly when every candidate is skipped, with the not-found message |
| Ffmpeg.CheckFfmpeg | whisper_bridge_mlx.py:127-160 | the loop with early returns computes `FirstAvailable` of the candidate list |
| Ffmpeg.PathOverrideWins | whisper_bridge_mlx_official.py:129 | a working `FFMPEG_PATH` is the answer, whatever else is set |
| Ffmpeg.SystemFallback | whisper_bridge_mlx_official.py:132-156 | with no variable set, the answer is that of probing `ffmpeg` |
| Ffmpeg.EmptyVariableIsUnset | whisper_bridge_mlx_official.py:136-137 | a variable set to the empty string gives the same answer as an unset one |
| Ffmpeg.FirstAvailableAgree | whisper_bridge_mlx_official.py:135-151 | the outcome depends only on which candidates are skipped and on the others' values |
| OfficialModels.RepoFor | whisper_bridge_mlx_official.py:63 | the mapped repository of a known UI name, `mlx-community/whisper-base` for any other |
| OfficialModels.MappingIsDict | whisper_bridge_mlx_official.py:28-46 | no UI name appears twice in the mapping |
| OfficialModels.RepoIsCommunity | whisper_bridge_mlx_official.py:28-46 | every repository used starts with `mlx-community/` and has no other `/` |
| OfficialModels.EntryIsCommunity | whisper_bridge_mlx_official.py:28-46 | each mapping entry's repository is `mlx-community/` followed by a name without `/` |
| OfficialModels.AliasesShareRepo | whisper_bridge_mlx_official.py:34-39 | `large`/`large-v3` and `turbo`/`large-v3-turbo` share repositories |
| OfficialModels.RepoFolder | whisper_bridge_mlx_official.py:161 | the folder name starts with `models--` and contains no `/` |
| OfficialModels.ReplaceSingleSlash | whisper_bridge_mlx_official.py:255 | `org/name` becomes `org--name` |
| OfficialModels.CommunityFolder | whisper_bridge_mlx_official.py:345 | a community repository's folder is `models--mlx-community--` then its name |
| OfficialModels.FolderDeterminesRepo | whisper_bridge_mlx_official.py:399 | two UI names share a cache folder exactly when they share a repository |
| OfficialModels.FolderRuleCollides | whisper_bridge_mlx_official.py:161 | the folder rule alone is not injective: `a/b` and `a--b` get the same folder |
| OfficialBackend.Backend.Label | whisper_bridge_mlx_official.py:86-96 | definition: the four label strings `mlx-official-q4`, `mlx-official-8bit`, `mlx-official-turbo` and `mlx-official` |
| OfficialBackend.Mentions | whisper_bridge_mlx_official.py:86-92 | definition: `tag in model_name or tag in hf_repo` |
| OfficialBackend.ClassifyBackend | whisper_bridge_mlx_official.py:86-97 | the label is q4 exactly when either name mentions `q4`; 8-bit exactly when not q4 and `8bit` is mentioned; turbo exactly when neither and `turbo` is mentioned |
| OfficialBackend.TurboQ4IsQ4 | whisper_bridge_mlx_official.py:86-88 | `turbo-q4` is labelled 4-bit, not turbo |
| OfficialBackend.NotMentioned | whisper_bridge_mlx_official.py:86-92 | a tag is not mentioned when one of its characters is in neither name |
| OfficialBackend.Large8bitIs8bit | whisper_bridge_mlx_official.py:89-91 | `large-8bit` is labelled 8-bit |
| OfficialBackend.TurboIsTurbo | whisper_bridge_mlx_official.py:92-94 | `turbo` is labelled turbo |
| OfficialBackend.LargeV3IsFull | whisper_bridge_mlx_official.py:95-97 | `large-v3` gets the plain label |
| OfficialBackend.UnknownNameSetsLabel | whisper_bridge_mlx_official.py:63-87 | an unknown name with `q4` runs the default repository yet is labelled 4-bit |
| OfficialTranscription.HintOrEnglish | whisper_bridge_mlx_official.py:105 | `language or "en"`: a non-empty hint is kept, a missing or empty one becomes `en` |
| OfficialTranscription.TranscribeAudio | whisper_bridge_mlx_official.py:48-121 | a missing file gives the not-found error; success implies the file exists, the text is non-empty and stripped, the repository is the mapped one and the backend its label |
| OfficialTranscription.MissingFileIgnoresEngine | whisper_bridge_mlx_official.py:52-56 | with a missing file the engine is never consulted |
| OfficialTranscription.TranscribeSuccessIff | whisper_bridge_mlx_official.py:68-112 | success exactly when the file exists, the engine returns and its text is not whitespace only; the text is the engine's stripped, the language the engine's, else the hint, else `en`; whitespace-only text gives the no-text error |
| OfficialTranscription.EngineRaisedFails | whisper_bridge_mlx_official.py:114-121 | with the file present, an engine exception gives `Transcription failed:` followed by its message |
| DownloadMonitor.ExpectedSize | whisper_bridge_mlx_official.py:165-177 | the table's size for a listed name, 1000 MiB otherwise, never 0 |
| DownloadMonitor.UnsizedAliases | whisper_bridge_mlx_official.py:165-177 | `large-v3` and `large-v3-turbo` get the 1000 MiB default |
| DownloadMonitor.LastN | whisper_bridge_mlx_official.py:207-208 | the last n elements: a suffix of length exactly n when the input is longer, the whole input otherwise (the window uses n = 10) |
| DownloadMonitor.Slide | whisper_bridge_mlx_official.py:206-208 | definition: append the sample, then drop the oldest when more than ten are held |
| DownloadMonitor.Sum | whisper_bridge_mlx_official.py:209 | definition: `sum` of the window, added left to right |
| DownloadMonitor.SlideKeepsRecent | whisper_bridge_mlx_official.py:206-208 | append then pop-front keeps the window equal to the last ten samples of everything seen |
| DownloadMonitor.WindowIsRecent | whisper_bridge_mlx_official.py:201-208 | sliding the window poll by poll leaves exactly the last ten speed samples of the polls seen |
| DownloadMonitor.PrevSize | whisper_bridge_mlx_official.py:179-239 | definition: `last_size` before poll i, 0 before the first poll and the previous poll's size afterwards |
| DownloadMonitor.PrevTime | whisper_bridge_mlx_official.py:180-239 | definition: `last_update_time` before poll i, the start time before the first poll and the previous poll's clock afterwards |
| DownloadMonitor.Grew | whisper_bridge_mlx_official.py:202 | definition: the guard `last_size > 0 and time_diff > 0 and current_size > last_size` of poll i |
| DownloadMonitor.Rate | whisper_bridge_mlx_official.py:203-204 | definition: poll i's speed sample, `Megabits` of its size growth over its time step |
| DownloadMonitor.Megabits | whisper_bridge_mlx_official.py:203-204 | definition: bytes over seconds, times eight, over 1024 * 1024 |
| DownloadMonitor.Average | whisper_bridge_mlx_official.py:209 | definition: the sum of the window over its length |
| DownloadMonitor.Percentage | whisper_bridge_mlx_official.py:211 | the percentage lies in 0..100 |
| DownloadMonitor.Min | whisper_bridge_mlx_official.py:211 | definition: `min` of two numbers |
| DownloadMonitor.Abs | whisper_bridge_mlx_official.py:215 | definition: `abs` of a number |
| DownloadMonitor.NearlyComplete | whisper_bridge_mlx_official.py:230 | definition: at least 95% of the expected size and more than 0 bytes |
| DownloadMonitor.ExitTest | whisper_bridge_mlx_official.py:229-236 | definition: nearly complete, or no growth since the last poll over more than 30 seconds with more than 90% present |
| DownloadMonitor.Monitored | whisper_bridge_mlx_official.py:179-244 | definition: the monitor's promise about its events: each is a `PROGRESS:` event naming the model and expected size, the loop stopped at its first exit test or ran out of polls, one event per poll under wall-clock time |
| DownloadMonitor.MonitoredEmits | whisper_bridge_mlx_official.py:213-226 | under wall-clock time the first poll emits a progress event with its size, so a monitored download has at least one `PROGRESS:` event |
| DownloadMonitor.MonitorDownload | whisper_bridge_mlx_official.py:179-244 | the loop ends after the first poll that is nearly complete or stalled, else when the polls run out; the window is the last ten samples; every event names the model and expected size, with percentage in 0..100 and speed at least 0; with wall-clock times one event per poll, reporting that poll's size |
| OfficialStore.FolderFor | whisper_bridge_mlx_official.py:341-345 | a model's folder starts with `models--` and has no `/` |
| OfficialStore.CheckModelStatus | whisper_bridge_mlx_official.py:339-370 | always a success with the mapped repository; downloaded exactly when the folder is present, then with its size and joined path |
| OfficialStore.DeleteAffectsOnlySharedRepo | whisper_bridge_mlx_official.py:393-409 | after deleting one model's folder, models sharing its repository read as not downloaded and all others read as before |
| OfficialStore.StoreThenCheck | whisper_bridge_mlx_official.py:348-363 | a model whose folder was just written reads as downloaded with that size |
| OfficialStore.DeleteResult | whisper_bridge_mlx_official.py:393-431 | success exactly when the folder is present and its removal raises nothing, then with the folder's bytes freed; a missing folder gives "Model not found", a failing removal its error |
| OfficialStore.DeleteFolders | whisper_bridge_mlx_official.py:402-409 | the model's folder is gone exactly when it was present and the removal succeeded; no other folder is added, removed or resized |
| OfficialStore.DeleteTwiceNotFound | whisper_bridge_mlx_official.py:402-424 | deleting a model that was just deleted reports "Model not found" and changes nothing |
| OfficialStore.DownloadResult | whisper_bridge_mlx_official.py:246-337 | a present folder gives the report `check_model_status` gives; otherwise success exactly when the fetch completed, with its local path and size; an interrupt or exception reports its error |
| OfficialStore.DownloadFolders | whisper_bridge_mlx_official.py:259-337 | a present folder leaves the cache alone; a completed fetch records the folder's new total; an interrupted or failed one keeps what it wrote; no other folder changes |
| OfficialStore.DownloadThenCheck | whisper_bridge_mlx_official.py:259-273 | after a completed download the model reads as downloaded, and a second download fetches nothing, succeeds and changes nothing |
| OfficialStore.HubCache.constructor | whisper_bridge_mlx_official.py:254 | the cache directory and its folders are the given ones |
| OfficialStore.HubCache.ListModels | whisper_bridge_mlx_official.py:378-391 | one status per mapping key in order, each equal to checking that key, and the cache directory |
| OfficialStore.HubCache.StatusOfEach | whisper_bridge_mlx_official.py:383-385 | one status per model name, in order, each equal to checking that name against the current cache |
| OfficialStore.HubCache.DeleteModel | whisper_bridge_mlx_official.py:393-431 | the report is `DeleteResult` of the folders before the call, and the new folders are `DeleteFolders` of them |
| OfficialStore.HubCache.DownloadModel | whisper_bridge_mlx_official.py:246-337 | the report is `DownloadResult` and the new folders `DownloadFolders` of the folders before the call; a present folder emits no progress and polls nothing; otherwise the monitor's events come first, each naming the model and expected size, one per consumed poll under wall-clock time, the monitor stops at its first exit test, and only a completed fetch appends the 100% completion event |
| OfficialMain.StoreSuccess | whisper_bridge_mlx_official.py:446-467 | definition: `result.get("success")` of a store payload: the report's success, always true for a listing |
| OfficialMain.Run | whisper_bridge_mlx_official.py:433-493 | download and delete print the report of `download_model` / `delete_model` on the cache before the run, exit 0 exactly when it succeeds, and leave the cache as those operations do; check prints `check_model_status`; list prints one status per mapping key in order with the cache directory and exits 0; check-ffmpeg exits 0 exactly when a decoder is found; no audio file exits 1; JSON transcription exits 0; text transcription exits 1 with `Error:` on failure; only download and delete change the cache |
| MlxModels.MlxModelFor | whisper_bridge_mlx.py:42 | the mapped MLX name of a listed UI name, `base` for any other |
| MlxModels.MlxModelRange | whisper_bridge_mlx.py:24-33 | every result is one of five MLX models; both turbo names load `large-v3` |
| MlxModels.CacheKey | whisper_bridge_mlx.py:45 | the key is the model name followed by `_8bit` or `_full` |
| MlxModels.CacheKeyRoundTrip | whisper_bridge_mlx.py:45 | the model name and quantisation flag can be read back from the key |
| MlxModels.CacheKeyInjective | whisper_bridge_mlx.py:45-47 | two keys are equal exactly when model and flag are |
| MlxModels.Construct | whisper_bridge_mlx.py:50-57 | definition: the model built with batch size 12 and the `8bit` quantisation exactly when quantisation is allowed |
| MlxModels.ModelCache.constructor | whisper_bridge_mlx.py:35 | the cache starts empty |
| MlxModels.ModelCache.LoadModel | whisper_bridge_mlx.py:37-65 | a hit returns the cached model unchanged; a miss that constructs leaves only the new model in the cache; a failed construction returns nothing and keeps the cache; at most one entry, always under its own key |
| MlxBridge.ShapeMlxResult | whisper_bridge_mlx.py:97-125 | success means non-empty stripped text and the `mlx-gpu` backend; an engine exception gives `Transcription failed:` and its message |
| MlxBridge.ShapeSuccessIff | whisper_bridge_mlx.py:98-112 | success exactly when the engine returned text that is not whitespace only; the language is the engine's or `en`, never the request's |
| MlxBridge.TranscribeAudio | whisper_bridge_mlx.py:67-125 | a missing file fails before the cache is touched; otherwise the full-precision model is taken from the cache or built, a failed build gives `Failed to load model:`, and the result is the shaped engine answer |
| MlxBridge.RunMlx | whisper_bridge_mlx.py:162-195 | check-ffmpeg exits 0 exactly when a decoder is found; no audio file exits 1; JSON transcription exits 0; text transcription exits 1 with `Error:` on failure; every run starts from an empty cache, so the answer is that of a freshly built full-precision model |

## Left out

- Argument parsing: `argparse` defaults, rejected choices and usage errors are not modelled; runs start from parsed arguments.
- The import-failure exit at the top of both scripts is not modelled.
- JSON serialisation and the exact byte layout of stdout and stderr are not modelled; a run's output is a payload value.
- `[MLX]` log lines on stderr and the exception traceback printed after a failed transcription are not modelled.
- Timings (`load_time`, `transcribe_time`, `total_time`) are not modelled, because they only read the clock.
- `size_mb`, `freed_mb` and the rounding of `percentage` and `speed_mbps` are not modelled; reals are exact, so float rounding is absent too.
- The progress thread, `join(timeout=1)`, `stop_event` and `time.sleep(0.5)` are not modelled; the monitor's iterations before the fetch ends are an input.
- The monitor's `except Exception: pass` is not modelled, because the loop body has no failing step once folder sizes are inputs.
- Folder sizes come from `os.walk` and `os.path.getsize`; here each folder's total is a number in the cache map, so per-file errors are absent.
- OfficialStore.CheckModelStatus: never returns the `except` branch's failure, because the walk that could raise is not modelled.
- OfficialStore.DeleteFolders: a failing `shutil.rmtree` leaves the cache unchanged; a partial removal before the error is not modelled.
- OfficialStore.DownloadResult: `snapshot_download` is an outcome parameter; its local path and byte counts are not tied to the cache directory.
- `~/.cache/huggingface/hub` is taken as an already-expanded directory name, so `expanduser` is not modelled.
- The 5-second probe timeout and the subprocess itself are the abstract `ProbeOutcome`.
- The engine's result dict is reduced to its optional `text` and `language`; a `text` that is present but not a string is not modelled.
- The desktop app that starts these scripts is not part of this model.
