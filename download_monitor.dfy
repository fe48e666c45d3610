/** `monitor_download_progress` of `whisper_bridge_mlx_official.py`: the
    loop that polls the size of a repository's cache folder while a
    download runs, keeps a window of the last ten speed samples and emits
    progress events. Each iteration's folder size and clock reading are
    inputs (a `Poll`); the loop ends when the polls run out (the stop
    event was set) or when one of its two exit tests fires. Reals stand
    for Python floats and are exact here. */
module DownloadMonitor {
  import opened Common

  const MiB: nat := 1024 * 1024

  /** `expected_sizes`, in insertion order. */
  const ExpectedSizes: seq<(string, nat)> := [
    ("tiny", 80 * MiB),
    ("base", 150 * MiB),
    ("small", 500 * MiB),
    ("medium", 1500 * MiB),
    ("large", 3000 * MiB),
    ("turbo", 1600 * MiB),
    ("turbo-q4", 500 * MiB),
    ("base-8bit", 100 * MiB),
    ("medium-8bit", 800 * MiB),
    ("large-8bit", 1600 * MiB)
  ]

  const DefaultExpectedSize: nat := 1000 * MiB

  /** At most this many speed samples are averaged. */
  const WindowSize: nat := 10

  /** `expected_sizes.get(model_name, 1000 * 1024 * 1024)`. */
  function ExpectedSize(modelName: string): (n: nat)
    ensures n > 0
    ensures forall i :: 0 <= i < |ExpectedSizes| && ExpectedSizes[i].0 == modelName
                        ==> n == ExpectedSizes[i].1
    ensures !HasKey(ExpectedSizes, modelName) ==> n == DefaultExpectedSize
  {
    SizesAreDict();
    if HasKey(ExpectedSizes, modelName) then
      var i :| 0 <= i < |ExpectedSizes| && ExpectedSizes[i].0 == modelName;
      GetDistinct(ExpectedSizes, modelName, DefaultExpectedSize, i);
      SizePositive(i);
      Get(ExpectedSizes, modelName, DefaultExpectedSize)
    else
      Get(ExpectedSizes, modelName, DefaultExpectedSize)
  }

  /** No name is listed twice in the size table. */
  lemma SizesAreDict()
    ensures DistinctKeys(ExpectedSizes)
  { }

  /** Every listed size is positive. */
  lemma SizePositive(i: nat)
    requires i < |ExpectedSizes|
    ensures ExpectedSizes[i].1 > 0
  { }

  /** Two names of the model mapping have no entry of their own and are
      measured against the 1000 MiB default. */
  lemma UnsizedAliases()
    ensures ExpectedSize("large-v3") == DefaultExpectedSize
    ensures ExpectedSize("large-v3-turbo") == DefaultExpectedSize
  {
    assert !HasKey(ExpectedSizes, "large-v3");
    assert !HasKey(ExpectedSizes, "large-v3-turbo");
  }

  /** One iteration's observations: the folder's total size (0 while it
      does not exist) and `time.time()`. */
  datatype Poll = Poll(size: nat, now: real)

  datatype ProgressEvent =
    | Progress(model: string, downloadedBytes: nat, totalBytes: nat, percentage: real, speedMbps: real)
    | Complete(model: string, downloadedBytes: nat, totalBytes: nat, percentage: real)

  /** The last `n` elements of `s`, in order. */
  function LastN<T>(s: seq<T>, n: nat): (w: seq<T>)
    ensures |w| <= n && |w| <= |s|
    ensures w == s[|s| - |w|..]
    ensures |s| <= n ==> w == s
    ensures |s| > n ==> |w| == n
  {
    if |s| <= n then s else s[|s| - n..]
  }

  /** `speed_samples.append(x)` followed by `pop(0)` when it outgrows the window. */
  function Slide(window: seq<real>, x: real): (w: seq<real>)
  {
    var grown := window + [x];
    if |grown| > WindowSize then grown[1..] else grown
  }

  /** Sliding keeps the window equal to the most recent samples: the last
      ten of everything seen, in arrival order. */
  lemma {:induction false} SlideKeepsRecent(seen: seq<real>, x: real)
    ensures Slide(LastN(seen, WindowSize), x) == LastN(seen + [x], WindowSize)
  {
    var w := LastN(seen, WindowSize);
    var all := seen + [x];
    if |seen| < WindowSize {
      assert w == seen;
    } else {
      assert |w| == WindowSize;
      assert (w + [x])[1..] == all[|all| - WindowSize..];
    }
  }

  function Sum(s: seq<real>): real {
    if s == [] then 0.0 else Sum(s[..|s| - 1]) + s[|s| - 1]
  }

  function Min(a: real, b: real): real { if a <= b then a else b }
  function Abs(x: real): real { if x < 0.0 then -x else x }

  /** `min(current_size / expected_size * 100, 100)`. */
  function Percentage(size: nat, expected: nat): (p: real)
    requires expected > 0
    ensures 0.0 <= p <= 100.0
  {
    var ratio := size as real / expected as real;
    assert ratio >= 0.0 by { assert ratio * expected as real == size as real; }
    Min(ratio * 100.0, 100.0)
  }

  /** The folder size and clock reading the loop remembers from the
      iteration before poll `i` (initially 0 bytes and the start time). */
  function PrevSize(polls: seq<Poll>, i: nat): nat
    requires i <= |polls|
  {
    if i == 0 then 0 else polls[i - 1].size
  }

  function PrevTime(polls: seq<Poll>, i: nat, start: real): real
    requires i <= |polls|
  {
    if i == 0 then start else polls[i - 1].now
  }

  /** Poll `i` produces a speed sample: something was already there, time
      moved on and the folder grew. */
  predicate Grew(polls: seq<Poll>, i: nat, start: real)
    requires i < |polls|
  {
    PrevSize(polls, i) > 0 && polls[i].now - PrevTime(polls, i, start) > 0.0
    && polls[i].size > PrevSize(polls, i)
  }

  /** `(bytes / seconds * 8) / (1024 * 1024)`: a byte delta over a time delta in megabits per second. */
  function Megabits(bytes: nat, seconds: real): real
    requires seconds > 0.0
  {
    bytes as real / seconds * 8.0 / (1024.0 * 1024.0)
  }

  /** `sum(speed_samples) / len(speed_samples)`. */
  function Average(samples: seq<real>): real
    requires samples != []
  {
    Sum(samples) / |samples| as real
  }

  /** The sample of poll `i`. */
  function Rate(polls: seq<Poll>, i: nat, start: real): real
    requires i < |polls| && Grew(polls, i, start)
  {
    Megabits(polls[i].size - PrevSize(polls, i), polls[i].now - PrevTime(polls, i, start))
  }

  /** Every speed sample taken by the first `n` polls, in order. */
  function Samples(polls: seq<Poll>, n: nat, start: real): seq<real>
    requires n <= |polls|
  {
    if n == 0 then []
    else Samples(polls, n - 1, start) + (if Grew(polls, n - 1, start) then [Rate(polls, n - 1, start)] else [])
  }

  /** `current_size >= expected_size * 0.95 and current_size > 0`. */
  predicate NearlyComplete(size: nat, expected: nat) {
    size as real >= expected as real * 0.95 && size > 0
  }

  /** The two exit tests of one iteration: nearly complete, or no growth
      over more than 30 seconds with more than 90% present. */
  predicate ExitTest(size: nat, lastSize: nat, now: real, lastTime: real, expected: nat) {
    NearlyComplete(size, expected)
    || (size == lastSize && now - lastTime > 30.0 && size as real > expected as real * 0.9)
  }

  /** The loop leaves after poll `i`. */
  predicate StopsAt(polls: seq<Poll>, i: nat, start: real, expected: nat)
    requires i < |polls|
  {
    ExitTest(polls[i].size, PrevSize(polls, i), polls[i].now, PrevTime(polls, i, start), expected)
  }

  /** Clock readings are seconds since the epoch, far above 100.5. */
  predicate WallClock(polls: seq<Poll>) {
    forall j :: 0 <= j < |polls| ==> polls[j].now > 100.5
  }

  /** Event `k` reports the size seen by poll `k`, for each of the first `n` polls. */
  predicate OnePerPoll(events: seq<ProgressEvent>, polls: seq<Poll>, n: nat)
    requires n <= |polls|
  {
    |events| == n && forall k :: 0 <= k < n ==> events[k].downloadedBytes == polls[k].size
  }

  /** A progress event of this download: it names the model and the
      expected size, with a percentage in 0..100 and a speed of at least 0. */
  predicate Reported(e: ProgressEvent, modelName: string, expected: nat) {
    e.Progress? && e.model == modelName && e.totalBytes == expected
    && 0.0 <= e.percentage <= 100.0 && e.speedMbps >= 0.0
  }

  /** What the monitor promises about the events it emitted while it took
      `consumed` of the polls: each is a progress event of this download,
      it stopped at the first poll whose exit test fired (or ran out of
      polls), and under wall-clock time there is one event per poll. */
  predicate Monitored(events: seq<ProgressEvent>, modelName: string, start: real, polls: seq<Poll>, consumed: nat) {
    && (forall k :: 0 <= k < |events| ==> Reported(events[k], modelName, ExpectedSize(modelName)))
    && consumed <= |polls|
    && (forall j :: 0 <= j < consumed - 1 ==> !StopsAt(polls, j, start, ExpectedSize(modelName)))
    && (consumed < |polls| ==> 0 < consumed && StopsAt(polls, consumed - 1, start, ExpectedSize(modelName)))
    && (WallClock(polls) ==> OnePerPoll(events, polls, consumed))
  }

  /** Under wall-clock time the monitor's first poll always emits an event,
      so the events before a download's completion cannot all be lost. */
  lemma {:induction false} MonitoredEmits(events: seq<ProgressEvent>, modelName: string, start: real,
                                          polls: seq<Poll>, consumed: nat)
    requires WallClock(polls) && |polls| > 0
    requires Monitored(events, modelName, start, polls, consumed)
    ensures |events| > 0 && events[0].Progress? && events[0].downloadedBytes == polls[0].size
  {
    assert 0 < consumed;
    assert events[0].downloadedBytes == polls[0].size;
    assert Reported(events[0], modelName, ExpectedSize(modelName));
  }

  /** The window after the first `n` polls, one slide per sample. */
  function Window(polls: seq<Poll>, n: nat, start: real): seq<real>
    requires n <= |polls|
  {
    if n == 0 then []
    else if Grew(polls, n - 1, start) then Slide(Window(polls, n - 1, start), Rate(polls, n - 1, start))
    else Window(polls, n - 1, start)
  }

  /** Sliding poll by poll keeps exactly the last ten samples taken. */
  lemma {:induction false} WindowIsRecent(polls: seq<Poll>, n: nat, start: real)
    requires n <= |polls|
    ensures Window(polls, n, start) == LastN(Samples(polls, n, start), WindowSize)
  {
    if n > 0 {
      WindowIsRecent(polls, n - 1, start);
      if Grew(polls, n - 1, start) {
        SlideKeepsRecent(Samples(polls, n - 1, start), Rate(polls, n - 1, start));
      }
    }
  }

  /** The monitor loop. Returns the events written as `PROGRESS:` lines, the
      final window of speed samples and the number of polls it consumed. */
  method MonitorDownload(modelName: string, start: real, polls: seq<Poll>)
    returns (events: seq<ProgressEvent>, window: seq<real>, consumed: nat)
    ensures consumed <= |polls|
    ensures forall j :: 0 <= j < consumed - 1 ==> !StopsAt(polls, j, start, ExpectedSize(modelName))
    ensures consumed < |polls| ==> 0 < consumed && StopsAt(polls, consumed - 1, start, ExpectedSize(modelName))
    ensures window == LastN(Samples(polls, consumed, start), WindowSize)
    ensures |events| <= consumed
    ensures forall e :: e in events ==> Reported(e, modelName, ExpectedSize(modelName))
    ensures WallClock(polls) ==> OnePerPoll(events, polls, consumed)
  {
    var expectedSize := ExpectedSize(modelName);
    var lastSize: nat := 0;
    var lastUpdateTime := start;
    var speedSamples: seq<real> := [];
    var lastProgressUpdate: real := 0.0;
    events := [];
    var i := 0;
    var stopped := false;
    while i < |polls| && !stopped
      invariant 0 <= i <= |polls|
      invariant lastSize == PrevSize(polls, i) && lastUpdateTime == PrevTime(polls, i, start)
      invariant stopped ==> 0 < i && StopsAt(polls, i - 1, start, expectedSize)
      invariant forall j :: 0 <= j < i - 1 ==> !StopsAt(polls, j, start, expectedSize)
      invariant !stopped ==> forall j :: 0 <= j < i ==> !StopsAt(polls, j, start, expectedSize)
      invariant speedSamples == Window(polls, i, start)
      invariant lastProgressUpdate <= 100.0
      invariant |events| <= i
      invariant forall e :: e in events ==> Reported(e, modelName, expectedSize)
      invariant WallClock(polls) ==> OnePerPoll(events, polls, i)
    {
      var currentSize := polls[i].size;
      var currentTime := polls[i].now;
      var timeDiff := currentTime - lastUpdateTime;

      var speedMbps: real := 0.0;
      if lastSize > 0 && timeDiff > 0.0 && currentSize > lastSize {
        speedMbps := Megabits(currentSize - lastSize, timeDiff);
        speedSamples := speedSamples + [speedMbps];
        if |speedSamples| > WindowSize {
          speedSamples := speedSamples[1..];
        }
        speedMbps := Average(speedSamples);
      }
      assert speedSamples == Window(polls, i + 1, start);

      var percentage := Percentage(currentSize, expectedSize);

      ghost var before := events;
      if currentTime - lastProgressUpdate > 0.5 || Abs(percentage - lastProgressUpdate) > 1.0 {
        var shown := if speedMbps > 0.0 then speedMbps else 0.0;
        events := events + [Progress(modelName, currentSize, expectedSize, percentage, shown)];
        lastProgressUpdate := percentage;
      }
      if WallClock(polls) {
        assert currentTime > 100.5;
        assert events == before + [events[i]] && events[i].downloadedBytes == polls[i].size;
        assert OnePerPoll(events, polls, i + 1);
      }

      // Either exit test ends the loop after this poll.
      stopped := ExitTest(currentSize, lastSize, currentTime, lastUpdateTime, expectedSize);
      lastSize := currentSize;
      lastUpdateTime := currentTime;
      i := i + 1;
    }
    window := speedSamples;
    consumed := i;
    WindowIsRecent(polls, consumed, start);
  }
}
