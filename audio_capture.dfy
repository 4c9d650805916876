/**
 * The capture hook's buffer, chunker and silence latch (src/hooks/useAudioCapture.js). Frames from the
 * audio worklet arrive through `Push`; every chunk interval the hook runs `CheckSilence` and then
 * `FlushChunk`. Energy is compared as a sum of squares: `sqrt(sum / n) < 0.01` exactly when
 * `sum < 0.0001 * n`.
 */
module AudioCapture {
  import opened Wrappers
  import opened Wav

  const SilenceDurationMs: int := 1500
  const ChunkIntervalMs: int := 3000
  const MinChunkSamples: nat := 1000
  /** `checkSilence` looks at this many of the most recent frames. */
  const RecentFrames: nat := 20

  /** The frames concatenated in arrival order (`flat.set(s, offset)` for each frame). */
  function Concat(frames: seq<seq<real>>): (r: seq<real>)
    ensures |r| == TotalLength(frames)
  {
    if frames == [] then [] else Concat(frames[..|frames| - 1]) + frames[|frames| - 1]
  }

  /** `samples.reduce((acc, s) => acc + s.length, 0)`. */
  function TotalLength(frames: seq<seq<real>>): nat {
    if frames == [] then 0 else TotalLength(frames[..|frames| - 1]) + |frames[|frames| - 1]|
  }

  lemma {:induction false} TotalLengthPrefix(frames: seq<seq<real>>, k: nat)
    requires k < |frames|
    ensures TotalLength(frames[..k]) + |frames[k]| <= TotalLength(frames)
    decreases |frames|
  {
    assert frames[..k + 1][..k] == frames[..k];
    if k + 1 < |frames| {
      var init := frames[..|frames| - 1];
      assert init[..k] == frames[..k] && init[k] == frames[k];
      TotalLengthPrefix(init, k);
    }
  }

  /** Concatenation distributes over appending frames, so the segment keeps the frames in order. */
  lemma {:induction false} ConcatAppend(a: seq<seq<real>>, b: seq<seq<real>>)
    ensures Concat(a + b) == Concat(a) + Concat(b)
    decreases |b|
  {
    if b == [] {
      assert a + b == a;
    } else {
      assert (a + b)[..|a + b| - 1] == a + b[..|b| - 1];
      ConcatAppend(a, b[..|b| - 1]);
    }
  }

  /** `sum += flat[i] * flat[i]` over the whole segment. */
  function SumSquares(xs: seq<real>): (r: real)
    ensures r >= 0.0
  {
    if xs == [] then 0.0 else SumSquares(xs[..|xs| - 1]) + xs[|xs| - 1] * xs[|xs| - 1]
  }

  /**
   * `Math.sqrt(sum / flat.length) < SILENCE_THRESHOLD`. An empty segment gives NaN, which compares false,
   * so it is never quiet.
   */
  predicate Quiet(xs: seq<real>) {
    |xs| > 0 && SumSquares(xs) < 0.0001 * (|xs| as real)
  }

  lemma {:induction false} SilenceIsQuiet(xs: seq<real>)
    requires |xs| > 0 && forall i :: 0 <= i < |xs| ==> xs[i] == 0.0
    ensures Quiet(xs)
  {
    ZeroSumSquares(xs);
  }

  lemma {:induction false} ZeroSumSquares(xs: seq<real>)
    requires forall i :: 0 <= i < |xs| ==> xs[i] == 0.0
    ensures SumSquares(xs) == 0.0
  {
    if xs != [] {
      ZeroSumSquares(xs[..|xs| - 1]);
    }
  }

  /** A segment of full-scale samples is loud. */
  lemma {:induction false} FullScaleIsLoud(xs: seq<real>)
    requires |xs| > 0 && forall i :: 0 <= i < |xs| ==> xs[i] == 1.0 || xs[i] == -1.0
    ensures !Quiet(xs)
  {
    FullScaleSumSquares(xs);
  }

  lemma {:induction false} FullScaleSumSquares(xs: seq<real>)
    requires forall i :: 0 <= i < |xs| ==> xs[i] == 1.0 || xs[i] == -1.0
    ensures SumSquares(xs) == |xs| as real
  {
    if xs != [] {
      FullScaleSumSquares(xs[..|xs| - 1]);
    }
  }

  /** `float32To16BitPCM` on a segment. */
  function PcmOf(flat: seq<real>): (r: seq<int16>)
    ensures |r| == |flat|
    ensures forall i :: 0 <= i < |flat| ==> r[i] == PcmSample(flat[i])
  {
    seq(|flat|, i requires 0 <= i < |flat| => PcmSample(flat[i]))
  }

  /** The WAV bytes `flushChunk` hands on for one drained buffer, or nothing when it returns early. */
  function ChunkOf(frames: seq<seq<real>>): (r: Option<seq<byte>>)
    ensures r.Some? <==> |Concat(frames)| >= MinChunkSamples && !Quiet(Concat(frames))
    ensures r.Some? ==> r.value == WavFile(PcmOf(Concat(frames)), SampleRate)
  {
    var flat := Concat(frames);
    if |flat| < MinChunkSamples then None
    else if Quiet(flat) then None
    else Some(WavFile(PcmOf(flat), SampleRate))
  }

  /** A chunk that is emitted holds at least 1000 samples: 44 header bytes and two bytes per sample. */
  lemma ChunkSize(frames: seq<seq<real>>)
    requires ChunkOf(frames).Some?
    ensures |ChunkOf(frames).value| == HeaderSize + 2 * TotalLength(frames)
    ensures |ChunkOf(frames).value| >= HeaderSize + 2 * MinChunkSamples
  {
  }

  /** A drain that is all silence never produces a chunk. */
  lemma SilentDrainGivesNoChunk(frames: seq<seq<real>>)
    requires forall i :: 0 <= i < |Concat(frames)| ==> Concat(frames)[i] == 0.0
    ensures ChunkOf(frames) == None
  {
    if |Concat(frames)| > 0 {
      SilenceIsQuiet(Concat(frames));
    }
  }

  /** The last `n` frames (`slice(-n)`). */
  function Recent(frames: seq<seq<real>>, n: nat): (r: seq<seq<real>>)
    ensures |r| == if |frames| < n then |frames| else n
    ensures r == frames[|frames| - |r|..]
  {
    if |frames| <= n then frames else frames[|frames| - n..]
  }

  /** The silence latch: when the current quiet run began, and whether it has already fired. */
  datatype Latch = Latch(start: Option<int>, fired: bool)

  /** One `checkSilence` tick on a non-empty buffer: the new latch and whether `onSilence` fires. */
  function SilenceStep(l: Latch, quiet: bool, now: int): (r: (Latch, bool))
    ensures r.1 <==> quiet && !l.fired && l.start.Some? && now - l.start.value >= SilenceDurationMs
    ensures r.1 ==> r.0 == Latch(None, true)
    ensures !quiet ==> r.0 == Latch(None, false)
    ensures quiet && l.fired ==> r.0 == l
    ensures quiet && !r.1 && !l.fired ==> r.0 == Latch(Some(if l.start.Some? then l.start.value else now), false)
  {
    if quiet then
      if l.fired then (l, false)
      else if l.start.None? then (Latch(Some(now), false), false)
      else if now - l.start.value >= SilenceDurationMs then (Latch(None, true), true)
      else (l, false)
    else (Latch(None, false), false)
  }

  /** Ticks during one unbroken quiet stretch: the final latch and how many times `onSilence` fired. */
  function QuietRun(l: Latch, times: seq<int>): (Latch, nat)
    decreases |times|
  {
    if times == [] then (l, 0)
    else
      var (next, fired) := SilenceStep(l, true, times[0]);
      var (last, count) := QuietRun(next, times[1..]);
      (last, count + if fired then 1 else 0)
  }

  /** The latch is edge-triggered: a quiet stretch fires at most once, and never once it has fired. */
  lemma {:induction false} QuietRunFiresAtMostOnce(l: Latch, times: seq<int>)
    ensures QuietRun(l, times).1 <= 1
    ensures l.fired ==> QuietRun(l, times).1 == 0 && QuietRun(l, times).0 == l
    ensures QuietRun(l, times).1 == 1 ==> QuietRun(l, times).0.fired
    decreases |times|
  {
    if times != [] {
      var next := SilenceStep(l, true, times[0]).0;
      QuietRunFiresAtMostOnce(next, times[1..]);
    }
  }

  /** The first quiet tick only records the start: `onSilence` needs a later tick 1500 ms on. */
  lemma FirstQuietTickNeverFires(fired: bool, now: int)
    ensures !SilenceStep(Latch(None, fired), true, now).1
  {
  }

  /** `flat.set` for each frame in turn, into a new array of the summed length. */
  method Concatenate(frames: seq<seq<real>>) returns (flat: array<real>)
    ensures flat[..] == Concat(frames)
  {
    flat := new real[TotalLength(frames)];
    var offset := 0;
    for k := 0 to |frames|
      invariant offset == TotalLength(frames[..k])
      invariant offset <= flat.Length
      invariant flat[..offset] == Concat(frames[..k])
    {
      var s := frames[k];
      TotalLengthPrefix(frames, k);
      for j := 0 to |s|
        invariant flat[..offset] == Concat(frames[..k])
        invariant forall m :: 0 <= m < j ==> flat[offset + m] == s[m]
      {
        flat[offset + j] := s[j];
      }
      assert flat[..offset + |s|] == flat[..offset] + s;
      assert frames[..k + 1][..k] == frames[..k];
      offset := offset + |s|;
    }
    assert frames[..|frames|] == frames;
  }

  /** The sum of squares of the samples, accumulated in order. */
  method SumOfSquares(flat: array<real>) returns (sum: real)
    ensures sum == SumSquares(flat[..])
  {
    sum := 0.0;
    for i := 0 to flat.Length
      invariant sum == SumSquares(flat[..i])
    {
      assert flat[..i + 1][..i] == flat[..i];
      sum := sum + flat[i] * flat[i];
    }
    assert flat[..flat.Length] == flat[..];
  }

  /** The state the capture hook keeps in refs between worklet messages and interval ticks. */
  class CaptureSession {
    var buffer: seq<seq<real>>
    var silenceStart: Option<int>
    var silenceFired: bool
    var listening: bool
    var lastChunkTime: int

    constructor ()
      ensures buffer == [] && silenceStart == None && !silenceFired && !listening && lastChunkTime == 0
    {
      buffer := [];
      silenceStart := None;
      silenceFired := false;
      listening := false;
      lastChunkTime := 0;
    }

    /** The worklet's `onmessage`: a non-empty frame is appended, an empty one ignored. */
    method Push(frame: seq<real>)
      modifies this`buffer
      ensures buffer == if |frame| > 0 then old(buffer) + [frame] else old(buffer)
    {
      if |frame| > 0 {
        buffer := buffer + [frame];
      }
    }

    /** The last line of a successful `start`. */
    method Started()
      modifies this`listening
      ensures listening
    {
      listening := true;
    }

    /**
     * `flushChunk`: an empty buffer is left alone; otherwise the buffer is swapped for an empty one, and
     * the drained frames become a WAV chunk unless there are too few samples or they are quiet.
     */
    method FlushChunk(now: int) returns (chunk: Option<seq<byte>>)
      modifies this`buffer, this`lastChunkTime
      ensures old(buffer) == [] ==> chunk == None && buffer == [] && lastChunkTime == old(lastChunkTime)
      ensures old(buffer) != [] ==> chunk == ChunkOf(old(buffer)) && buffer == []
      ensures lastChunkTime == if chunk.Some? then now else old(lastChunkTime)
    {
      if buffer == [] {
        return None;
      }
      var samples := buffer;
      buffer := [];
      var flat := Concatenate(samples);
      if flat.Length < MinChunkSamples {
        return None;
      }
      var sum := SumOfSquares(flat);
      if sum < 0.0001 * (flat.Length as real) {
        return None;
      }
      var pcm := Float32To16BitPCM(flat[..]);
      var wav := CreateWavBlob(pcm, SampleRate);
      assert pcm[..] == PcmOf(flat[..]);
      chunk := Some(wav[..]);
      lastChunkTime := now;
    }

    /** `checkSilence`: one step of the latch over the last 20 frames; an empty buffer changes nothing. */
    method CheckSilence(now: int) returns (fired: bool)
      modifies this`silenceStart, this`silenceFired
      ensures buffer == [] ==> !fired && silenceStart == old(silenceStart) && silenceFired == old(silenceFired)
      ensures buffer != [] ==>
        (Latch(silenceStart, silenceFired), fired)
        == SilenceStep(Latch(old(silenceStart), old(silenceFired)), Quiet(Concat(Recent(buffer, RecentFrames))), now)
    {
      if buffer == [] {
        return false;
      }
      var flat := Concatenate(Recent(buffer, RecentFrames));
      var sum := SumOfSquares(flat);
      fired := false;
      if flat.Length > 0 && sum < 0.0001 * (flat.Length as real) {
        if silenceFired {
          return;
        }
        if silenceStart.None? {
          silenceStart := Some(now);
        } else if now - silenceStart.value >= SilenceDurationMs {
          silenceStart := None;
          silenceFired := true;
          fired := true;
        }
      } else {
        silenceStart := None;
        silenceFired := false;
      }
    }

    /** `stop`: the buffer is emptied, the latch reset and listening turned off. */
    method Stop()
      modifies this`buffer, this`silenceStart, this`silenceFired, this`listening
      ensures buffer == [] && silenceStart == None && !silenceFired && !listening
    {
      buffer := [];
      silenceStart := None;
      silenceFired := false;
      listening := false;
    }
  }
}
