/** src/silence.cpp: the online silence detector, and the whole-history
    definition of silence it has to agree with. */
module Silence {
  import opened MachineInts

  // ---- The detector as a value ------------------------------------------------

  datatype Detector = Detector(threshold: uint32, timeoutMs: uint32, start: uint64, armed: bool, started: bool)

  datatype Sample = Sample(level: uint32, now: uint64)

  function Arm(d: Detector): Detector {
    d.(armed := true, started := false, start := 0)
  }

  /** One `feed`: the new detector and the returned flag. */
  function Feed(d: Detector, x: Sample): (Detector, bool) {
    if !d.armed then (d, false)
    else if x.level >= d.threshold then (d.(started := false, start := 0), false)
    else
      var d1 := if d.started then d else d.(started := true, start := x.now);
      if Sub64(x.now, d1.start) >= d.timeoutMs
      then (d1.(armed := false, started := false, start := 0), true)
      else (d1, false)
  }

  /** A detector just armed, and then fed all of `h`. */
  function Replay(threshold: uint32, timeoutMs: uint32, h: seq<Sample>): (d: Detector)
    ensures d.threshold == threshold && d.timeoutMs == timeoutMs
  {
    if h == [] then Detector(threshold, timeoutMs, 0, true, false)
    else Feed(Replay(threshold, timeoutMs, h[..|h| - 1]), h[|h| - 1]).0
  }

  // ---- Silence read off the whole history ---------------------------------------

  ghost predicate Ordered(h: seq<Sample>) {
    forall i, j :: 0 <= i <= j < |h| ==> h[i].now <= h[j].now
  }

  lemma OrderedSnoc(h: seq<Sample>, x: Sample)
    requires Ordered(h) && (h != [] ==> h[|h| - 1].now <= x.now)
    ensures Ordered(h + [x])
  {
  }

  /** `h[from..]` is the maximal trailing run of samples below the threshold. */
  ghost predicate TrailingRun(threshold: uint32, h: seq<Sample>, from: nat) {
    && from <= |h|
    && (forall i :: from <= i < |h| ==> h[i].level < threshold)
    && (from > 0 ==> h[from - 1].level >= threshold)
  }

  /** Where the trailing run starts; `|h|` when the last sample is loud. */
  function RunStart(threshold: uint32, h: seq<Sample>): (from: nat)
    ensures TrailingRun(threshold, h, from)
  {
    if h == [] || h[|h| - 1].level >= threshold then |h|
    else
      assert h == h[..|h| - 1] + [h[|h| - 1]];
      RunStart(threshold, h[..|h| - 1])
  }

  lemma {:induction false} TrailingRunUnique(threshold: uint32, h: seq<Sample>, from: nat)
    requires TrailingRun(threshold, h, from)
    ensures from == RunStart(threshold, h)
  {
    if h != [] && h[|h| - 1].level < threshold {
      TrailingRunUnique(threshold, h[..|h| - 1], from);
    }
  }

  /** The history ends in silence of at least `timeoutMs`. */
  predicate EndsSilent(threshold: uint32, timeoutMs: uint32, h: seq<Sample>) {
    var from := RunStart(threshold, h);
    from < |h| && h[|h| - 1].now - h[from].now >= timeoutMs
  }

  ghost predicate SilentBefore(threshold: uint32, timeoutMs: uint32, h: seq<Sample>) {
    exists k :: 0 <= k < |h| && EndsSilent(threshold, timeoutMs, h[..k])
  }

  /** It ends in silence and no shorter prefix did: the one moment at which to fire. */
  ghost predicate FirstSilent(threshold: uint32, timeoutMs: uint32, h: seq<Sample>) {
    EndsSilent(threshold, timeoutMs, h) && !SilentBefore(threshold, timeoutMs, h)
  }

  // ---- Refinement ------------------------------------------------------------

  /** The detector's three fields, in terms of the history alone. */
  ghost predicate Reflects(d: Detector, h: seq<Sample>) {
    && (d.armed <==> !SilentBefore(d.threshold, d.timeoutMs, h) && !EndsSilent(d.threshold, d.timeoutMs, h))
    && (d.armed ==>
          var from := RunStart(d.threshold, h);
          if d.started then from < |h| && h[from].now == d.start else from == |h|)
  }

  lemma SilentBeforeSnoc(threshold: uint32, timeoutMs: uint32, h: seq<Sample>, x: Sample)
    ensures SilentBefore(threshold, timeoutMs, h + [x])
       <==> SilentBefore(threshold, timeoutMs, h) || EndsSilent(threshold, timeoutMs, h)
  {
    var g := h + [x];
    assert forall k :: 0 <= k < |h| ==> g[..k] == h[..k];
    assert g[..|h|] == h;
    if SilentBefore(threshold, timeoutMs, h) {
      var k :| 0 <= k < |h| && EndsSilent(threshold, timeoutMs, h[..k]);
      assert EndsSilent(threshold, timeoutMs, g[..k]);
    }
  }

  /** One feed: the flag is exactly `FirstSilent`, and the fields keep reflecting the history. */
  lemma FeedReflects(d: Detector, h: seq<Sample>, x: Sample)
    requires Reflects(d, h) && Ordered(h + [x])
    ensures Reflects(Feed(d, x).0, h + [x])
    ensures Feed(d, x).1 <==> FirstSilent(d.threshold, d.timeoutMs, h + [x])
  {
    var g := h + [x];
    SilentBeforeSnoc(d.threshold, d.timeoutMs, h, x);
    assert g[..|g| - 1] == h && g[|g| - 1] == x;
    var from := RunStart(d.threshold, g);
    assert from < |g| ==> g[from].now <= g[|g| - 1].now;
  }

  lemma {:induction false} ReplayReflects(threshold: uint32, timeoutMs: uint32, h: seq<Sample>)
    requires Ordered(h)
    ensures Reflects(Replay(threshold, timeoutMs, h), h)
  {
    if h != [] {
      var p, x := h[..|h| - 1], h[|h| - 1];
      assert h == p + [x];
      ReplayReflects(threshold, timeoutMs, p);
      FeedReflects(Replay(threshold, timeoutMs, p), p, x);
    }
  }

  /** After `arm`, feeding samples with non-decreasing times returns true exactly at
      the first sample at which the trailing run of silence spans the timeout. */
  lemma FeedFiresExactlyOnFirstSilence(threshold: uint32, timeoutMs: uint32, h: seq<Sample>, x: Sample)
    requires Ordered(h + [x])
    ensures Feed(Replay(threshold, timeoutMs, h), x).1 <==> FirstSilent(threshold, timeoutMs, h + [x])
  {
    assert Ordered(h) by {
      assert forall i :: 0 <= i < |h| ==> (h + [x])[i] == h[i];
    }
    ReplayReflects(threshold, timeoutMs, h);
    FeedReflects(Replay(threshold, timeoutMs, h), h, x);
  }

  lemma ReplaySnoc(threshold: uint32, timeoutMs: uint32, h: seq<Sample>, x: Sample)
    ensures Replay(threshold, timeoutMs, h + [x]) == Feed(Replay(threshold, timeoutMs, h), x).0
  {
    assert (h + [x])[..|h|] == h;
  }

  /** ... so within one arming it returns true at most once. */
  lemma FeedFiresOnce(threshold: uint32, timeoutMs: uint32, h: seq<Sample>, i: nat, j: nat)
    requires Ordered(h) && i < j < |h|
    requires Feed(Replay(threshold, timeoutMs, h[..i]), h[i]).1
    ensures !Feed(Replay(threshold, timeoutMs, h[..j]), h[j]).1
  {
    assert h[..i] + [h[i]] == h[..i + 1];
    assert h[..j] + [h[j]] == h[..j + 1];
    FeedFiresExactlyOnFirstSilence(threshold, timeoutMs, h[..i], h[i]);
    FeedFiresExactlyOnFirstSilence(threshold, timeoutMs, h[..j], h[j]);
    assert h[..j + 1][..i + 1] == h[..i + 1];
  }

  // ---- The class ---------------------------------------------------------------

  class SilenceDetector {
    const threshold: uint32
    const timeoutMs: uint32
    var silenceStart: uint64
    var armed: bool
    var started: bool
    ghost var everArmed: bool
    ghost var history: seq<Sample>  // samples fed since the last `arm`

    ghost function Value(): Detector
      reads this
    {
      Detector(threshold, timeoutMs, silenceStart, armed, started)
    }

    ghost predicate Valid()
      reads this
    {
      if everArmed then Value() == Replay(threshold, timeoutMs, history) else !armed
    }

    constructor (threshold: uint32, timeoutMs: uint32)
      ensures Valid() && !armed && !everArmed
      ensures this.threshold == threshold && this.timeoutMs == timeoutMs
    {
      this.threshold, this.timeoutMs := threshold, timeoutMs;
      silenceStart, armed, started := 0, false, false;
      everArmed, history := false, [];
    }

    /** `arm` */
    method Rearm()
      requires Valid()
      modifies this
      ensures Valid() && everArmed && history == [] && Value() == Arm(old(Value()))
    {
      armed := true;
      started := false;
      silenceStart := 0;
      everArmed, history := true, [];
    }

    /** `feed`: true exactly at the first sample since `arm` that completes the silence,
        as long as time does not run backwards. */
    method FeedLevel(level: uint32, nowMs: uint64) returns (fired: bool)
      requires Valid()
      modifies this
      ensures Valid() && everArmed == old(everArmed)
      ensures history == old(history) + [Sample(level, nowMs)]
      ensures (Value(), fired) == Feed(old(Value()), Sample(level, nowMs))
      ensures Ordered(history) ==> (fired <==> everArmed && FirstSilent(threshold, timeoutMs, history))
    {
      ghost var d, h, x := Value(), history, Sample(level, nowMs);
      if !armed {
        fired := false;
      } else if level >= threshold {
        started := false;
        silenceStart := 0;
        fired := false;
      } else {
        if !started {
          started := true;
          silenceStart := nowMs;
        }
        if Sub64(nowMs, silenceStart) >= timeoutMs {
          armed := false;
          started := false;
          silenceStart := 0;
          fired := true;
        } else {
          fired := false;
        }
      }
      assert (Value(), fired) == Feed(d, x);
      assert (h + [x])[..|h|] == h;
      history := h + [x];
      if everArmed && Ordered(h + [x]) {
        FeedFiresExactlyOnFirstSilence(threshold, timeoutMs, h, x);
      }
    }

    /** `getCurrentSilenceMs`: the age of the trailing run, truncated to `unsigned`. */
    method GetCurrentSilenceMs(nowMs: uint64) returns (ms: uint32)
      requires Valid()
      ensures Ordered(history + [Sample(0, nowMs)]) ==>
                ms == if everArmed && armed && RunStart(threshold, history) < |history|
                      then Wrap32(nowMs - history[RunStart(threshold, history)].now) else 0
    {
      if !armed || !started {
        ms := 0;
      } else {
        ms := Wrap32(Sub64(nowMs, silenceStart));
      }
      ghost var g := history + [Sample(0, nowMs)];
      if everArmed && Ordered(g) {
        assert forall i :: 0 <= i < |history| ==> g[i] == history[i];
        ReplayReflects(threshold, timeoutMs, history);
        assert g[|g| - 1].now == nowMs;
      }
    }
  }
}
