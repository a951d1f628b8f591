/**
 * The tones the page synthesises, as data. Oscillators, gain envelopes and
 * the audio context itself are platform calls and are not modelled: a tone
 * that is played is only recorded.
 */
module Audio {

  /** Oscillator shapes the page asks for. */
  datatype Wave = Sine | Sawtooth | Triangle

  /** One synthesised note: frequency in Hz, duration in seconds, oscillator shape. */
  datatype Tone = Tone(freq: real, duration: real, wave: Wave)

  /** The four-note cycle of the ambient loop (C4, E4, G4, C5). */
  const AmbientNotes: seq<real> := [261.63, 329.63, 392.00, 523.25]

  /** Duration of one ambient note, in seconds. */
  const AmbientDuration: real := 1.5

  /** Delay between two ambient notes, in milliseconds; shorter than a note, so notes overlap. */
  const AmbientIntervalMs: nat := 400

  /** The short low tone played on a rejection. */
  const RejectTone: Tone := Tone(150.0, 0.3, Sawtooth)

  /** The ascending acceptance chime (C5, E5, G5, C6) and each note's delay in milliseconds. */
  const ChimeNotes: seq<real> := [523.25, 659.25, 783.99, 1046.50]
  const ChimeDelaysMs: seq<nat> := [0, 100, 200, 300]

  /** Duration of one chime note, in seconds. */
  const ChimeDuration: real := 2.0

  /** The note the ambient loop plays at cycle position `i`. */
  function AmbientTone(i: nat): (t: Tone)
    requires i < |AmbientNotes|
    ensures t.freq == AmbientNotes[i] && t.freq in AmbientNotes && t.duration == AmbientDuration && t.wave == Sine
  {
    Tone(AmbientNotes[i], AmbientDuration, Sine)
  }

  /** Advancing one position around the ambient cycle and then `k` more is advancing `k + 1`. */
  lemma CycleAdvance(i: nat, k: nat)
    requires i < |AmbientNotes|
    ensures ((i + 1) % |AmbientNotes| + k) % |AmbientNotes| == (i + 1 + k) % |AmbientNotes|
  {
    if i == 3 {
      assert (4 + k) % 4 == k % 4;
    }
  }

  /** Any whole number of turns around the ambient cycle comes back to the start. */
  lemma {:induction false} CycleReturns(i: nat, turns: nat)
    requires i < |AmbientNotes|
    ensures (i + |AmbientNotes| * turns) % |AmbientNotes| == i
  {
    if turns > 0 {
      CycleReturns(i, turns - 1);
      assert i + 4 * turns == (i + 4 * (turns - 1)) + 4;
    }
  }

  /** The four notes of the acceptance chime, in the order they sound. */
  function ChimeTones(): (ts: seq<Tone>)
    ensures |ts| == |ChimeNotes| == |ChimeDelaysMs|
    ensures forall i :: 0 <= i < |ts| ==>
      ts[i].freq == ChimeNotes[i] && ts[i].duration == ChimeDuration && ts[i].wave == Triangle
  {
    seq(|ChimeNotes|, i requires 0 <= i < |ChimeNotes| => Tone(ChimeNotes[i], ChimeDuration, Triangle))
  }

  /** Both note tables rise in pitch, and the chime notes are spaced 100 ms apart. */
  lemma TablesAscend()
    ensures forall i, j :: 0 <= i < j < |AmbientNotes| ==> AmbientNotes[i] < AmbientNotes[j]
    ensures forall i, j :: 0 <= i < j < |ChimeNotes| ==> ChimeNotes[i] < ChimeNotes[j]
    ensures forall i :: 0 <= i < |ChimeDelaysMs| ==> ChimeDelaysMs[i] == 100 * i
    ensures AmbientIntervalMs as real < AmbientDuration * 1000.0
  {
  }
}
