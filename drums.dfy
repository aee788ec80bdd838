/**
 * The drum machine of App.tsx: the four voices, the 16-step grid, the
 * playhead arithmetic and tick interval, the choice between a custom sample
 * and synthesis, and `DrumSynth` with its lazily created audio context.
 */
module Drums {
  import opened Common

  datatype Instrument = Kick | Snare | HiHat | Perc

  /** `INSTRUMENTS`, in declaration order. */
  const Instruments: seq<Instrument> := [Kick, Snare, HiHat, Perc]

  /** Sixteenth-note steps in one bar. */
  const StepCount: nat := 16

  /** `sequencerData`: one row of cells per voice. */
  type Grid = map<Instrument, seq<bool>>

  /** Every voice has a row of exactly `StepCount` cells. */
  predicate IsGrid(g: Grid) {
    forall i: Instrument :: i in g && |g[i]| == StepCount
  }

  /** The initial `sequencerData`: every voice silent on every step. */
  function InitialGrid(): (g: Grid)
    ensures IsGrid(g)
    ensures forall i: Instrument, k :: 0 <= k < StepCount ==> !g[i][k]
  {
    var row := seq(StepCount, _ => false);
    AllInstrumentsListed();
    map i: Instrument | i in Instruments :: row
  }

  // ---------------------------------------------------------------------
  // Playhead and tempo
  // ---------------------------------------------------------------------

  /** The interval callback's updater `(prev + 1) % 16`. */
  function NextStep(prev: nat): (r: nat)
    ensures r < StepCount
    ensures prev < StepCount - 1 ==> r == prev + 1
    ensures prev == StepCount - 1 ==> r == 0
  {
    (prev + 1) % StepCount
  }

  /** The playhead after `ticks` interval callbacks. */
  function StepAfter(start: nat, ticks: nat): nat {
    if ticks == 0 then start else NextStep(StepAfter(start, ticks - 1))
  }

  lemma {:induction false} StepAfterIsModular(start: nat, ticks: nat)
    requires start < StepCount
    ensures StepAfter(start, ticks) == (start + ticks) % StepCount
  {
    if ticks > 0 {
      StepAfterIsModular(start, ticks - 1);
    }
  }

  /** The playheads shown during the first bar of ticks from `start`. */
  function BarFrom(start: nat): (steps: seq<nat>)
    ensures |steps| == StepCount
  {
    seq(StepCount, k requires 0 <= k => StepAfter(start, k + 1))
  }

  /** Two step counts less than a bar apart land on different steps. */
  lemma DistinctWithinBar(a: int, b: int)
    requires 0 <= a < b < a + StepCount
    ensures a % StepCount != b % StepCount
  {
    assert a == StepCount * (a / StepCount) + a % StepCount;
    assert b == StepCount * (b / StepCount) + b % StepCount;
  }

  /**
   * One bar of ticks visits every step exactly once and ends where it
   * began; the playhead never leaves [0, 16).
   */
  lemma FullBar(start: nat)
    requires start < StepCount
    ensures StepAfter(start, StepCount) == start
    ensures forall k :: 0 <= k < StepCount ==> BarFrom(start)[k] < StepCount
    ensures forall k1, k2 :: 0 <= k1 < k2 < StepCount ==> BarFrom(start)[k1] != BarFrom(start)[k2]
    ensures forall s: nat :: s < StepCount ==> s in BarFrom(start)
  {
    assert StepAfter(start, StepCount) == start by {
      StepAfterIsModular(start, StepCount);
    }
    forall k | 0 <= k < StepCount
      ensures BarFrom(start)[k] < StepCount
    {
      BarAt(start, k);
    }
    forall k1, k2 | 0 <= k1 < k2 < StepCount
      ensures BarFrom(start)[k1] != BarFrom(start)[k2]
    {
      BarAt(start, k1);
      BarAt(start, k2);
      DistinctWithinBar(start + k1 + 1, start + k2 + 1);
    }
    forall s: nat | s < StepCount
      ensures s in BarFrom(start)
    {
      BarCovers(start, s);
    }
  }

  lemma BarAt(start: nat, k: nat)
    requires start < StepCount && k < StepCount
    ensures BarFrom(start)[k] == (start + k + 1) % StepCount
  {
    StepAfterIsModular(start, k + 1);
  }

  /** Every step is reached within one bar. */
  lemma BarCovers(start: nat, s: nat)
    requires start < StepCount && s < StepCount
    ensures s in BarFrom(start)
  {
    var k := if s > start then s - start - 1 else s + StepCount - start - 1;
    BarAt(start, k);
    assert BarFrom(start)[k] == s;
  }

  /** `stepTime = (60 / bpm / 4) * 1000`: one sixteenth note, in milliseconds. */
  function StepIntervalMs(bpm: int): (ms: real)
    requires bpm > 0
    ensures ms > 0.0
    ensures ms * (bpm as real) == 15000.0
  {
    (60.0 / (bpm as real) / 4.0) * 1000.0
  }

  lemma StepIntervalAt120()
    ensures StepIntervalMs(120) == 125.0
  {
  }

  // ---------------------------------------------------------------------
  // Which voices sound on a step, and how
  // ---------------------------------------------------------------------

  /** A decoded audio buffer, known only by its identity. */
  datatype AudioBuffer = AudioBuffer(handle: nat)

  /** What one trigger plays: the custom buffer as is, or the voice's synthesis recipe. */
  datatype Sound = SamplePlayback(buffer: AudioBuffer) | Synthesised(voice: Instrument)

  /** `customSamples`: an optional custom buffer per voice. */
  type SampleBank = map<Instrument, Option<AudioBuffer>>

  predicate IsSampleBank(m: SampleBank) {
    forall i: Instrument :: i in m
  }

  /** The initial `customSamples`: no voice has a custom buffer. */
  const NoSamples: SampleBank := map[Kick := None, Snare := None, HiHat := None, Perc := None]

  lemma NoSamplesIsSampleBank()
    ensures IsSampleBank(NoSamples)
  {
    forall i: Instrument
      ensures i in NoSamples
    {
      assert i.Kick? || i.Snare? || i.HiHat? || i.Perc?;
    }
  }

  /** The branch `if (customBuffer) return this.playSample(customBuffer)` of `playKick` … `playPerc`. */
  function SoundFor(voice: Instrument, custom: Option<AudioBuffer>): (s: Sound)
    ensures s.SamplePlayback? <==> custom.Some?
    ensures custom.Some? ==> s.buffer == custom.value
    ensures custom.None? ==> s.voice == voice
  {
    match custom
    case Some(b) => SamplePlayback(b)
    case None => Synthesised(voice)
  }

  /** The position of a voice in `INSTRUMENTS`. */
  function Rank(i: Instrument): (r: nat)
    ensures r < |Instruments| && Instruments[r] == i
  {
    match i
    case Kick => 0
    case Snare => 1
    case HiHat => 2
    case Perc => 3
  }

  lemma AllInstrumentsListed()
    ensures forall i: Instrument :: i in Instruments
  {
    forall i: Instrument
      ensures i in Instruments
    {
      assert Instruments[Rank(i)] == i;
    }
  }

  /** One of the trigger effect's four `if`s: the voice when its cell at `step` is set. */
  function OneIf(g: Grid, step: nat, voice: Instrument): seq<Instrument>
    requires IsGrid(g) && step < StepCount
  {
    if g[voice][step] then [voice] else []
  }

  lemma FourIfsMembers(g: Grid, step: nat, i: Instrument)
    requires IsGrid(g) && step < StepCount
    ensures i in OneIf(g, step, Kick) + OneIf(g, step, Snare) + OneIf(g, step, HiHat) + OneIf(g, step, Perc) <==> g[i][step]
  {
    var k, sn, h, pe := OneIf(g, step, Kick), OneIf(g, step, Snare), OneIf(g, step, HiHat), OneIf(g, step, Perc);
    assert i in k + sn + h + pe <==> i in k || i in sn || i in h || i in pe;
  }

  /** The voices whose cell at `step` is set, in `INSTRUMENTS` order. */
  function ActiveVoices(g: Grid, step: nat): (vs: seq<Instrument>)
    requires IsGrid(g) && step < StepCount
    ensures forall i :: i in vs <==> g[i][step]
    ensures IsSubsequence(vs, Instruments)
  {
    var p := OneIf(g, step, Perc);
    var hp := OneIf(g, step, HiHat) + p;
    var shp := OneIf(g, step, Snare) + hp;
    assert IsSubsequence(p, [Perc]);
    assert IsSubsequence(hp, [HiHat, Perc]) by {
      if hp != p { assert hp[1..] == p; }
    }
    assert IsSubsequence(shp, [Snare, HiHat, Perc]) by {
      if shp != hp { assert shp[1..] == hp; }
    }
    var all := OneIf(g, step, Kick) + shp;
    assert Instruments[1..] == [Snare, HiHat, Perc];
    assert IsSubsequence(all, Instruments) by {
      if all != shp {
        assert all[1..] == shp;
      } else if shp != [] {
        assert shp[0] in shp;
      }
    }
    forall i
      ensures i in all <==> g[i][step]
    {
      FourIfsMembers(g, step, i);
    }
    all
  }

  /** One sound per voice, in order, each from that voice's own custom buffer or its recipe. */
  function Sounds(vs: seq<Instrument>, samples: SampleBank): (r: seq<Sound>)
    requires IsSampleBank(samples)
    ensures |r| == |vs|
  {
    if vs == [] then [] else [SoundFor(vs[0], samples[vs[0]])] + Sounds(vs[1..], samples)
  }

  lemma {:induction false} SoundsAt(vs: seq<Instrument>, samples: SampleBank)
    requires IsSampleBank(samples)
    ensures forall j :: 0 <= j < |vs| ==> Sounds(vs, samples)[j] == SoundFor(vs[j], samples[vs[j]])
  {
    if vs != [] {
      SoundsAt(vs[1..], samples);
    }
  }

  lemma {:induction false} SoundsAppend(a: seq<Instrument>, b: seq<Instrument>, samples: SampleBank)
    requires IsSampleBank(samples)
    ensures Sounds(a + b, samples) == Sounds(a, samples) + Sounds(b, samples)
  {
    if a == [] {
      assert a + b == b;
    } else {
      var head := [SoundFor(a[0], samples[a[0]])];
      assert (a + b)[0] == a[0] && (a + b)[1..] == a[1..] + b;
      calc {
        Sounds(a + b, samples);
        head + Sounds(a[1..] + b, samples);
        { SoundsAppend(a[1..], b, samples); }
        head + (Sounds(a[1..], samples) + Sounds(b, samples));
        (head + Sounds(a[1..], samples)) + Sounds(b, samples);
        Sounds(a, samples) + Sounds(b, samples);
      }
    }
  }

  /**
   * The sounds the trigger effect starts: nothing while stopped; while
   * playing, one per active voice, each with that voice's own custom buffer.
   */
  function Triggered(g: Grid, samples: SampleBank, step: nat, playing: bool): (r: seq<Sound>)
    requires IsGrid(g) && IsSampleBank(samples) && step < StepCount
    ensures !playing ==> r == []
    ensures playing ==> |r| == |ActiveVoices(g, step)|
    ensures playing ==> (r == [] <==> forall i: Instrument :: !g[i][step])
  {
    if !playing then [] else Sounds(ActiveVoices(g, step), samples)
  }

  /**
   * While playing, the sounds started are exactly one per active voice, in
   * `INSTRUMENTS` order, and a voice with a custom buffer plays that buffer.
   */
  lemma TriggeredMeaning(g: Grid, samples: SampleBank, step: nat)
    requires IsGrid(g) && IsSampleBank(samples) && step < StepCount
    ensures var vs := ActiveVoices(g, step);
      && |Triggered(g, samples, step, true)| == |vs|
      && (forall j :: 0 <= j < |vs| ==> Triggered(g, samples, step, true)[j] == SoundFor(vs[j], samples[vs[j]]))
      && (forall j :: 0 <= j < |vs| && samples[vs[j]].Some? ==>
            Triggered(g, samples, step, true)[j] == SamplePlayback(samples[vs[j]].value))
  {
    SoundsAt(ActiveVoices(g, step), samples);
  }

  /** What one of the trigger effect's `if`s plays. */
  function SoundIf(g: Grid, samples: SampleBank, step: nat, voice: Instrument): seq<Sound>
    requires IsGrid(g) && IsSampleBank(samples) && step < StepCount
  {
    if g[voice][step] then [SoundFor(voice, samples[voice])] else []
  }

  /** While playing, the triggered sounds are those of the four `if`s in turn. */
  lemma TriggeredUnrolled(g: Grid, samples: SampleBank, step: nat)
    requires IsGrid(g) && IsSampleBank(samples) && step < StepCount
    ensures Triggered(g, samples, step, true)
      == SoundIf(g, samples, step, Kick) + (SoundIf(g, samples, step, Snare)
       + (SoundIf(g, samples, step, HiHat) + SoundIf(g, samples, step, Perc)))
  {
    var k, sn, h, pe := OneIf(g, step, Kick), OneIf(g, step, Snare), OneIf(g, step, HiHat), OneIf(g, step, Perc);
    var a, b, c, d := SoundIf(g, samples, step, Kick), SoundIf(g, samples, step, Snare),
      SoundIf(g, samples, step, HiHat), SoundIf(g, samples, step, Perc);
    assert Triggered(g, samples, step, true) == Sounds(k + (sn + (h + pe)), samples) by {
      ActiveVoicesIsFourIfs(g, step);
    }
    assert Sounds(k + (sn + (h + pe)), samples)
        == Sounds(k, samples) + (Sounds(sn, samples) + (Sounds(h, samples) + Sounds(pe, samples))) by {
      SoundsAppend(h, pe, samples);
      SoundsAppend(sn, h + pe, samples);
      SoundsAppend(k, sn + (h + pe), samples);
    }
    assert Sounds(k, samples) + (Sounds(sn, samples) + (Sounds(h, samples) + Sounds(pe, samples)))
        == a + (b + (c + d)) by {
      SoundsOfOneIf(g, samples, step, Kick);
      SoundsOfOneIf(g, samples, step, Snare);
      SoundsOfOneIf(g, samples, step, HiHat);
      SoundsOfOneIf(g, samples, step, Perc);
    }
  }

  lemma ActiveVoicesIsFourIfs(g: Grid, step: nat)
    requires IsGrid(g) && step < StepCount
    ensures ActiveVoices(g, step) == OneIf(g, step, Kick) + (OneIf(g, step, Snare) + (OneIf(g, step, HiHat) + OneIf(g, step, Perc)))
  {
  }

  lemma SoundsOfOneIf(g: Grid, samples: SampleBank, step: nat, v: Instrument)
    requires IsGrid(g) && IsSampleBank(samples) && step < StepCount
    ensures Sounds(OneIf(g, step, v), samples) == SoundIf(g, samples, step, v)
  {
    if g[v][step] {
      assert Sounds([v], samples) == [SoundFor(v, samples[v])] + Sounds([], samples);
    }
  }

  // ---------------------------------------------------------------------
  // DrumSynth and its audio context
  // ---------------------------------------------------------------------

  /** The power states of a platform audio context. */
  datatype PowerState = Suspended | Running | Closed

  /** The platform's `AudioContext`, reduced to its power state. */
  class AudioContext {
    var state: PowerState

    constructor (initial: PowerState)
      ensures state == initial
    {
      state := initial;
    }

    /** `resume()` */
    method Resume()
      modifies this
      ensures state == Running
    {
      state := Running;
    }
  }

  /** `DrumSynth`: one lazily created audio context shared by every voice. */
  class DrumSynth {
    var ctx: AudioContext?

    constructor ()
      ensures ctx == null
    {
      ctx := null;
    }

    /**
     * `init`: create the context on first use only, then resume it if it is
     * suspended. `initial` is the power state the platform gives a new context.
     */
    method Init(initial: PowerState) returns (c: AudioContext)
      modifies this, ctx
      ensures ctx == c
      ensures old(ctx) != null ==> c == old(ctx)
      ensures old(ctx) == null ==> fresh(c)
      ensures c.state == (var before := if old(ctx) == null then initial else old(ctx.state);
                          if before == Suspended then Running else before)
    {
      if ctx == null {
        ctx := new AudioContext(initial);
      }
      c := ctx;
      if c.state == Suspended {
        c.Resume();
      }
    }

    /** `playSample`: play a buffer through the ready context. */
    method PlaySample(buffer: AudioBuffer, initial: PowerState) returns (s: Sound)
      modifies this, ctx
      ensures s == SamplePlayback(buffer)
      ensures ctx != null && ctx.state != Suspended
      ensures old(ctx) != null ==> ctx == old(ctx)
      ensures old(ctx) == null ==> fresh(ctx)
    {
      var c := Init(initial);
      s := SamplePlayback(buffer);
    }

    /**
     * `playKick`, `playSnare`, `playHiHat`, `playPerc`: a custom buffer is
     * handed to `playSample` and nothing is synthesised; without one the
     * voice's recipe is synthesised. Either way the context is ready.
     */
    method Play(voice: Instrument, custom: Option<AudioBuffer>, initial: PowerState) returns (s: Sound)
      modifies this, ctx
      ensures custom.Some? ==> s == SamplePlayback(custom.value)
      ensures custom.None? ==> s == Synthesised(voice)
      ensures ctx != null && ctx.state != Suspended
      ensures old(ctx) != null ==> ctx == old(ctx)
      ensures old(ctx) == null ==> fresh(ctx)
    {
      if custom.Some? {
        s := PlaySample(custom.value, initial);
        return;
      }
      var c := Init(initial);
      s := Synthesised(voice);
    }

    /** One `if (cell) drumSynth.playX(custom)` of the trigger effect. */
    method PlayIf(voice: Instrument, cell: bool, custom: Option<AudioBuffer>, initial: PowerState) returns (r: seq<Sound>)
      modifies this, ctx
      ensures r == (if cell then [SoundFor(voice, custom)] else [])
      ensures old(ctx) != null ==> ctx == old(ctx)
      ensures old(ctx) == null ==> ctx == null || fresh(ctx)
      ensures cell ==> ctx != null && ctx.state != Suspended
      ensures !cell ==> ctx == old(ctx) && (ctx != null ==> ctx.state == old(ctx.state))
    {
      r := [];
      if cell {
        var s := Play(voice, custom, initial);
        r := [s];
      }
    }

    /**
     * The body of the trigger effect while playing: the four `if`s in
     * `INSTRUMENTS` order, each voice with its own custom buffer.
     */
    method PlayStep(g: Grid, bank: SampleBank, step: nat, initial: PowerState) returns (r: seq<Sound>)
      requires IsGrid(g) && IsSampleBank(bank) && step < StepCount
      modifies this, ctx
      ensures r == Triggered(g, bank, step, true)
      ensures old(ctx) != null ==> ctx == old(ctx)
      ensures r != [] ==> ctx != null && ctx.state != Suspended
    {
      var k := PlayIf(Kick, g[Kick][step], bank[Kick], initial);
      var sn := PlayIf(Snare, g[Snare][step], bank[Snare], initial);
      var h := PlayIf(HiHat, g[HiHat][step], bank[HiHat], initial);
      var pe := PlayIf(Perc, g[Perc][step], bank[Perc], initial);
      r := k + (sn + (h + pe));
      TriggeredUnrolled(g, bank, step);
    }
  }
}
