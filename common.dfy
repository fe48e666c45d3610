/** Small value types shared by both worker scripts. */
module Common {

  datatype Option<+T> = None | Some(value: T)

  /** What a speech-recognition engine call produced: the `text` and `language`
      entries of the returned dict (each absent or present), or the message of
      the exception it raised. */
  datatype EngineOutput =
    | EngineResult(text: Option<string>, language: Option<string>)
    | EngineRaised(message: string)

  /** The error both scripts report when the engine's text strips to nothing. */
  const NoTextError := "Transcription produced no text"

  /** True iff `key` occurs among the keys of the ordered table `t`. */
  predicate HasKey<V>(t: seq<(string, V)>, key: string) {
    exists i :: 0 <= i < |t| && t[i].0 == key
  }

  /** No key occurs twice, as in every Python dict. */
  predicate DistinctKeys<V>(t: seq<(string, V)>) {
    forall i, j :: 0 <= i < j < |t| ==> t[i].0 != t[j].0
  }

  /** `dict.get(key, default)` over an insertion-ordered table: the value of the
      first entry whose key is `key`, or `default` when there is none. */
  function Get<V>(t: seq<(string, V)>, key: string, default: V): (r: V)
    ensures forall i :: 0 <= i < |t| && t[i].0 == key && (forall j :: 0 <= j < i ==> t[j].0 != key)
                        ==> r == t[i].1
    ensures !HasKey(t, key) ==> r == default
  {
    if |t| == 0 then default
    else if t[0].0 == key then t[0].1
    else Get(t[1..], key, default)
  }

  /** With distinct keys (a dict), the value found is the one stored under that key. */
  lemma {:induction false} GetDistinct<V>(t: seq<(string, V)>, key: string, default: V, i: nat)
    requires DistinctKeys(t)
    requires i < |t| && t[i].0 == key
    ensures Get(t, key, default) == t[i].1
  {
    forall j | 0 <= j < i ensures t[j].0 != key {
      assert t[j].0 != t[i].0;
    }
  }

  /** The keys of an ordered table, in order (`list(d.keys())`). */
  function Keys<V>(t: seq<(string, V)>): (ks: seq<string>)
    ensures |ks| == |t|
    ensures forall i :: 0 <= i < |t| ==> ks[i] == t[i].0
  {
    if |t| == 0 then [] else [t[0].0] + Keys(t[1..])
  }
}

/** What a worker script's `main` leaves behind: one line on stdout or
    stderr (or a traceback) and the process exit status. */
module Cli {
  import opened Common

  datatype OutputFormat = Json | PlainText

  datatype Output<P> =
    | JsonLine(payload: P)      // `print(json.dumps(result))`
    | TextLine(text: string)    // `print(result.get("text", ""))`
    | ErrorLine(text: string)   // `print(f"Error: ...", file=sys.stderr)`
    | Traceback                 // an uncaught exception

  datatype Reply<P> = Reply(output: Output<P>, exitCode: nat)

  const AudioRequired := "Audio file required"

  /** `not args.audio_file`: the positional argument is absent or empty. */
  predicate NoAudioFile(audioFile: Option<string>) {
    match audioFile
    case None => true
    case Some(path) => path == ""
  }
}
