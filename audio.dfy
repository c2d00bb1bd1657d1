/**
 * The audio recorder (core/audio.py): a recording flag and a list of sample
 * blocks that `start` empties and the input callback appends to. The sound
 * device is replaced by the outcome of opening it, the WAV/base64 encoding by
 * a function parameter, and the float duration by exact arithmetic on sample
 * counts.
 */
module Audio {

  /** One block of 16-bit samples as the input callback receives it. */
  type Block = seq<int>

  /** How opening the input stream goes: the constructor raises (the stream
      field keeps its old value), `start()` raises (the new stream is kept), or
      it runs. */
  datatype StartOutcome = OpenFailed | StartFailed | Started

  /** Total number of samples in the blocks (`sum(f.shape[0] for f in frames)`). */
  function TotalSamples(frames: seq<Block>): (n: nat)
    ensures frames == [] ==> n == 0
  {
    if frames == [] then 0 else |frames[0]| + TotalSamples(frames[1..])
  }

  lemma {:induction false} TotalSamplesAppend(frames: seq<Block>, b: Block)
    ensures TotalSamples(frames + [b]) == TotalSamples(frames) + |b|
  {
    if frames != [] {
      assert (frames + [b])[1..] == frames[1..] + [b];
      TotalSamplesAppend(frames[1..], b);
    } else {
      assert frames + [b] == [b];
    }
  }

  /** `get_duration()` in seconds, as an exact ratio. */
  function Duration(frames: seq<Block>, sampleRate: nat): (d: real)
    requires sampleRate > 0
    ensures frames == [] ==> d == 0.0
    ensures d >= 0.0
  {
    (TotalSamples(frames) as real) / (sampleRate as real)
  }

  /** The controller's `get_duration() < 0.3` test in integers. */
  predicate TooShort(samples: nat, sampleRate: nat)
  {
    samples * 10 < 3 * sampleRate
  }

  lemma TooShortIsUnderThreeTenths(frames: seq<Block>, sampleRate: nat)
    requires sampleRate > 0
    ensures TooShort(TotalSamples(frames), sampleRate) <==> Duration(frames, sampleRate) < 0.3
  {
    var n, r := TotalSamples(frames) as real, sampleRate as real;
    RatioBelow(n, r);
    assert (TotalSamples(frames) * 10) as real == n * 10.0;
    assert (3 * sampleRate) as real == 3.0 * r;
  }

  lemma RatioBelow(n: real, r: real)
    requires r > 0.0
    ensures n / r < 0.3 <==> n * 10.0 < 3.0 * r
  {
    var d := n / r;
    assert d * r == n;
    if d < 0.3 {
      PositiveProduct(0.3 - d, r);
    } else {
      PositiveProduct(d - 0.3 + 1.0, r);
      assert (d - 0.3) * r == (d - 0.3 + 1.0) * r - r;
    }
  }

  lemma PositiveProduct(a: real, b: real)
    requires a > 0.0 && b > 0.0
    ensures a * b > 0.0
  {
  }

  /** The recorder; `streamOpen` is `_stream is not None`. */
  class AudioRecorder {
    const sampleRate: nat
    var frames: seq<Block>
    var recording: bool
    var streamOpen: bool

    constructor(sampleRate: nat)
      requires sampleRate > 0
      ensures this.sampleRate == sampleRate && frames == [] && !recording && !streamOpen
    {
      this.sampleRate := sampleRate;
      frames := [];
      recording := false;
      streamOpen := false;
    }

    /** `start()`: the frames are emptied before the stream is opened;
        `failed` stands for the `error_occurred` signal. */
    method Start(outcome: StartOutcome) returns (failed: bool)
      modifies this
      ensures frames == []
      ensures recording <==> outcome == Started
      ensures failed <==> outcome != Started
      ensures streamOpen == (if outcome == OpenFailed then old(streamOpen) else true)
    {
      frames := [];
      recording := true;
      if outcome == OpenFailed {
        recording := false;
        failed := true;
        return;
      }
      streamOpen := true;
      if outcome == StartFailed {
        recording := false;
        failed := true;
        return;
      }
      failed := false;
    }

    /** `stop()`: idempotent; close errors are swallowed. */
    method Stop()
      modifies this
      ensures !recording && !streamOpen && frames == old(frames)
    {
      recording := false;
      if streamOpen {
        streamOpen := false;
      }
    }

    /** `_callback(indata, ..., status)`: a non-empty status is reported and
        the block is still kept while recording. */
    method Callback(block: Block, statusSet: bool) returns (reported: bool)
      modifies this
      ensures reported == statusSet
      ensures frames == (if old(recording) then old(frames) + [block] else old(frames))
      ensures recording == old(recording) && streamOpen == old(streamOpen)
      ensures TotalSamples(frames) == TotalSamples(old(frames)) + (if old(recording) then |block| else 0)
    {
      reported := statusSet;
      if recording {
        TotalSamplesAppend(frames, block);
        frames := frames + [block];
      }
    }

    /** `get_audio_base64()`: "" when nothing was recorded, else the encoding. */
    method GetAudioBase64(encode: seq<Block> -> string) returns (encoded: string)
      ensures frames == [] ==> encoded == ""
      ensures frames != [] ==> encoded == encode(frames)
    {
      if frames == [] {
        return "";
      }
      encoded := encode(frames);
    }

    method GetDuration() returns (seconds: real)
      requires sampleRate > 0
      ensures seconds == Duration(frames, sampleRate)
      ensures frames == [] ==> seconds == 0.0
    {
      if frames == [] {
        return 0.0;
      }
      var total := 0;
      var i := 0;
      while i < |frames|
        invariant 0 <= i <= |frames|
        invariant total + TotalSamples(frames[i..]) == TotalSamples(frames)
      {
        assert frames[i..][1..] == frames[i + 1..];
        total := total + |frames[i]|;
        i := i + 1;
      }
      assert frames[i..] == [];
      seconds := (total as real) / (sampleRate as real);
    }
  }
}
