/**
 * The interaction state machine of the page: the rejection counter, the
 * one-way acceptance flag, the audio switch and the ambient loop. Each user
 * action and each firing of the ambient timer is one atomic step. The pure
 * step functions below are the specification; the class `App` holds the
 * same state in fields and its handlers are proved to perform those steps.
 */
module Interaction {
  import opened Audio
  import Display
  import Evasion

  /**
   * Everything the handlers read or write. `hasContext` says whether the
   * audio context has been created, `loopPending` whether an ambient-loop
   * timer is scheduled, and `played` records every tone the page has sounded.
   */
  datatype AppState = AppState(
    noCount: nat,
    yesPressed: bool,
    audioEnabled: bool,
    isPlaying: bool,
    hasContext: bool,
    noteIndex: nat,
    loopPending: bool,
    played: seq<Tone>)

  /** The state at page load. */
  const Initial: AppState := AppState(0, false, false, false, false, 0, false, [])

  /** The inputs that drive the machine: two buttons, the audio switch and the loop timer. */
  datatype Event = NoClicked | YesClicked | AudioToggled | LoopTimerFired

  /**
   * What holds in every reachable state: the two audio flags move together,
   * sound on means a context exists, a loop timer is pending exactly while
   * sound is on, and the note index points into the four-note cycle.
   */
  predicate Inv(s: AppState) {
    && s.audioEnabled == s.isPlaying
    && (s.audioEnabled ==> s.hasContext)
    && s.loopPending == s.audioEnabled
    && s.noteIndex < |AmbientNotes|
  }

  /**
   * When an event can occur. The reject button exists only in the question
   * view, which is replaced once the visitor accepts; the loop timer fires
   * only when one is scheduled. The accept button sits in the same view, so a
   * second accept is equally out of reach outside the exit animation; it is
   * admitted deliberately, as a harmless over-approximation, so that what a
   * repeated `handleYesClick` would do can be stated.
   */
  predicate Allowed(s: AppState, e: Event) {
    match e
    case NoClicked => !s.yesPressed
    case LoopTimerFired => s.loopPending
    case _ => true
  }

  /** `playNote`: sounds the tone only when audio is enabled and a context exists; touches nothing else. */
  function PlayNoteStep(s: AppState, tone: Tone): (t: AppState)
    ensures t.(played := s.played) == s
    ensures t.played != s.played <==> s.audioEnabled && s.hasContext
    ensures s.audioEnabled && s.hasContext ==> t.played == s.played + [tone]
  {
    if !s.audioEnabled || !s.hasContext then s else s.(played := s.played + [tone])
  }

  /** Several `playNote` calls in a row: all of the tones sound, or none does. */
  function PlayAllStep(s: AppState, tones: seq<Tone>): (t: AppState)
    ensures t.(played := s.played) == s
    ensures t.played == s.played + (if s.audioEnabled && s.hasContext then tones else [])
    decreases |tones|
  {
    if tones == [] then s else PlayAllStep(PlayNoteStep(s, tones[0]), tones[1..])
  }

  /**
   * One call of `playLoop`: while audio is enabled, playing and a context
   * exists, sound the current ambient note, advance the index around the
   * cycle and schedule the next call; otherwise stop scheduling.
   */
  function PlayLoopStep(s: AppState): (t: AppState)
    requires s.noteIndex < |AmbientNotes|
    ensures t.noteIndex < |AmbientNotes|
    ensures t.loopPending <==> s.audioEnabled && s.isPlaying && s.hasContext
    ensures t.loopPending ==>
      t.noteIndex == (s.noteIndex + 1) % |AmbientNotes| && t.played == s.played + [AmbientTone(s.noteIndex)]
    ensures !t.loopPending ==> t == s.(loopPending := false)
    ensures t.(played := s.played, noteIndex := s.noteIndex, loopPending := s.loopPending) == s
  {
    if s.audioEnabled && s.isPlaying && s.hasContext then
      var u := PlayNoteStep(s, AmbientTone(s.noteIndex));
      u.(noteIndex := (s.noteIndex + 1) % |AmbientNotes|, loopPending := true)
    else
      s.(loopPending := false)
  }

  /** `handleNoClick`: one more rejection, and the reject tone when audio is enabled. */
  function NoClickStep(s: AppState): (t: AppState)
    ensures t.noCount == s.noCount + 1
    ensures t.(noCount := s.noCount, played := s.played) == s
    ensures t.played == s.played + (if s.audioEnabled && s.hasContext then [RejectTone] else [])
  {
    var u := s.(noCount := s.noCount + 1);
    if s.audioEnabled then PlayNoteStep(u, RejectTone) else u
  }

  /** `handleYesClick`, state part: accept, and the chime when audio is enabled. */
  function YesClickStep(s: AppState): (t: AppState)
    ensures t.yesPressed
    ensures t.(yesPressed := s.yesPressed, played := s.played) == s
    ensures t.played == s.played + (if s.audioEnabled && s.hasContext then ChimeTones() else [])
  {
    var u := s.(yesPressed := true);
    if s.audioEnabled then PlayAllStep(u, ChimeTones()) else u
  }

  /**
   * `toggleAudio` together with the effect that re-runs when the two flags
   * change: flip both flags, create the context when switching on, cancel
   * the pending loop timer, restart the note index and, if now enabled and
   * playing, start the loop with one `playLoop` call.
   */
  function ToggleAudioStep(s: AppState): (t: AppState)
    ensures t.audioEnabled == !s.audioEnabled && t.isPlaying == !s.isPlaying
    ensures t.hasContext == (s.hasContext || !s.audioEnabled)
    ensures t.noCount == s.noCount && t.yesPressed == s.yesPressed
    ensures t.loopPending <==> t.audioEnabled && t.isPlaying
  {
    var enabled := !s.audioEnabled;
    var playing := !s.isPlaying;
    var u := s.(audioEnabled := enabled, isPlaying := playing,
                hasContext := s.hasContext || !s.audioEnabled,
                loopPending := false, noteIndex := 0);
    if playing && enabled then PlayLoopStep(u.(hasContext := true)) else u
  }

  /** One event of the machine; every step keeps the invariant. */
  function Step(s: AppState, e: Event): (t: AppState)
    requires Inv(s) && Allowed(s, e)
    ensures Inv(t)
    ensures t.noCount == s.noCount + (if e == NoClicked then 1 else 0)
    ensures t.yesPressed <==> s.yesPressed || e == YesClicked
    ensures s.hasContext ==> t.hasContext
    ensures s.played <= t.played
  {
    match e
    case NoClicked => NoClickStep(s)
    case YesClicked => YesClickStep(s)
    case AudioToggled => ToggleAudioStep(s)
    case LoopTimerFired => PlayLoopStep(s)
  }

  /** Whether every event of `es` can occur when its turn comes, starting from `s`. */
  predicate Admissible(s: AppState, es: seq<Event>)
    requires Inv(s)
    decreases |es|
  {
    es == [] || (Allowed(s, es[0]) && Admissible(Step(s, es[0]), es[1..]))
  }

  /**
   * The state after a sequence of events. The counter only grows, acceptance
   * and the audio context are never undone, and no tone is ever unplayed.
   */
  function Run(s: AppState, es: seq<Event>): (r: AppState)
    requires Inv(s) && Admissible(s, es)
    ensures Inv(r)
    ensures r.noCount >= s.noCount
    ensures s.yesPressed ==> r.yesPressed
    ensures s.hasContext ==> r.hasContext
    ensures s.played <= r.played
    decreases |es|
  {
    if es == [] then s else Run(Step(s, es[0]), es[1..])
  }

  /** The events `e, e, ..., e`, `n` times. */
  function Repeat(e: Event, n: nat): (es: seq<Event>)
    ensures |es| == n && forall i :: 0 <= i < n ==> es[i] == e
  {
    seq(n, _ => e)
  }

  /** The first `k` ambient notes starting at cycle position `i`. */
  function AmbientFrom(i: nat, k: nat): (ts: seq<Tone>)
    ensures |ts| == k
    ensures forall j :: 0 <= j < k ==> ts[j] == AmbientTone((i + j) % |AmbientNotes|)
  {
    seq(k, j => AmbientTone((i + j) % |AmbientNotes|))
  }

  lemma InitialInv()
    ensures Inv(Initial)
    ensures !Initial.yesPressed && Initial.noCount == 0 && Initial.played == []
  {
  }

  /** The counter equals the starting count plus the number of rejections in the run. */
  lemma {:induction false} RunCountsRejections(s: AppState, es: seq<Event>)
    requires Inv(s) && Admissible(s, es)
    ensures Run(s, es).noCount == s.noCount + multiset(es)[NoClicked]
    decreases |es|
  {
    if es != [] {
      RunCountsRejections(Step(s, es[0]), es[1..]);
      assert es == [es[0]] + es[1..];
      assert multiset(es) == multiset([es[0]]) + multiset(es[1..]);
    }
  }

  /**
   * `n` rejections in the question view are always possible; each adds one
   * to the counter and changes nothing else but the tones played.
   */
  lemma {:induction false} RepeatedRejections(s: AppState, n: nat)
    requires Inv(s) && !s.yesPressed
    ensures Admissible(s, Repeat(NoClicked, n))
    ensures Run(s, Repeat(NoClicked, n)).(played := s.played) == s.(noCount := s.noCount + n)
    ensures !s.audioEnabled ==> Run(s, Repeat(NoClicked, n)).played == s.played
    decreases n
  {
    if n > 0 {
      var t := Step(s, NoClicked);
      RepeatedRejections(t, n - 1);
      assert Repeat(NoClicked, n)[1..] == Repeat(NoClicked, n - 1);
    }
  }

  /** After `n` rejections from page load the counter is `n` and nothing else has changed. */
  lemma RejectionsFromInitial(n: nat)
    ensures Admissible(Initial, Repeat(NoClicked, n))
    ensures Run(Initial, Repeat(NoClicked, n)) == Initial.(noCount := n)
  {
    RepeatedRejections(Initial, n);
  }

  /**
   * Acceptance is terminal: once accepted, no run can reject again, undo the
   * acceptance or change the counter.
   */
  lemma {:induction false} AcceptIsTerminal(s: AppState, es: seq<Event>)
    requires Inv(s) && s.yesPressed && Admissible(s, es)
    ensures NoClicked !in es
    ensures Run(s, es).yesPressed && Run(s, es).noCount == s.noCount
    decreases |es|
  {
    if es != [] {
      AcceptIsTerminal(Step(s, es[0]), es[1..]);
      assert es == [es[0]] + es[1..];
    }
  }

  /** A second accept changes nothing but the tones played (the chime sounds again). */
  lemma YesClickIdempotent(s: AppState)
    ensures YesClickStep(YesClickStep(s)).(played := s.played) == YesClickStep(s).(played := s.played)
    ensures YesClickStep(YesClickStep(s)).noCount == s.noCount
  {
  }

  /** In a reachable state the reject tone and the chime sound exactly when audio is enabled. */
  lemma FeedbackTones(s: AppState)
    requires Inv(s)
    ensures NoClickStep(s).played == s.played + (if s.audioEnabled then [RejectTone] else [])
    ensures YesClickStep(s).played == s.played + (if s.audioEnabled then ChimeTones() else [])
  {
  }

  /**
   * Switching audio on starts the loop with the first note and schedules the
   * next one; switching it off cancels the pending timer and sounds nothing.
   */
  lemma ToggleStartsAndStops(s: AppState)
    requires Inv(s)
    ensures var t := ToggleAudioStep(s);
      !s.audioEnabled ==>
        t.audioEnabled && t.isPlaying && t.hasContext && t.loopPending && t.noteIndex == 1 &&
        t.played == s.played + [AmbientTone(0)]
    ensures var t := ToggleAudioStep(s);
      s.audioEnabled ==> !t.audioEnabled && !t.isPlaying && !t.loopPending && t.played == s.played
  {
  }

  /** Switching audio on and off again leaves no loop timer pending. */
  lemma ToggleTwiceLeavesNoTimer(s: AppState)
    requires Inv(s) && !s.audioEnabled
    ensures Admissible(s, [AudioToggled, AudioToggled])
    ensures var t := Run(s, [AudioToggled, AudioToggled]);
      !t.loopPending && !t.audioEnabled && !t.isPlaying && t.hasContext &&
      t.played == s.played + [AmbientTone(0)]
  {
    var t1 := Step(s, AudioToggled);
    ToggleStartsAndStops(s);
    ToggleStartsAndStops(t1);
    assert [AudioToggled, AudioToggled][1..] == [AudioToggled];
    assert Run(s, [AudioToggled, AudioToggled]) == Run(t1, [AudioToggled]);
    assert Run(t1, [AudioToggled]) == Step(t1, AudioToggled);
  }

  /** The notes from cycle position `i` are the note at `i` followed by those from the next position. */
  lemma AmbientFromUnfold(played: seq<Tone>, i: nat, k: nat)
    requires i < |AmbientNotes| && k > 0
    ensures played + AmbientFrom(i, k) ==
            (played + [AmbientTone(i)]) + AmbientFrom((i + 1) % |AmbientNotes|, k - 1)
  {
    var rest := AmbientFrom((i + 1) % |AmbientNotes|, k - 1);
    forall j | 0 <= j < k
      ensures AmbientFrom(i, k)[j] == ([AmbientTone(i)] + rest)[j]
    {
      if j > 0 {
        CycleAdvance(i, j - 1);
      }
    }
    assert AmbientFrom(i, k) == [AmbientTone(i)] + rest;
  }

  /** A run of the loop timer is one firing followed by the rest of the run. */
  lemma LoopTimerRunUnfold(s: AppState, k: nat)
    requires Inv(s) && s.audioEnabled && k > 0
    requires Admissible(s, Repeat(LoopTimerFired, k))
    ensures Inv(Step(s, LoopTimerFired)) && Admissible(Step(s, LoopTimerFired), Repeat(LoopTimerFired, k - 1))
    ensures Run(s, Repeat(LoopTimerFired, k)) == Run(Step(s, LoopTimerFired), Repeat(LoopTimerFired, k - 1))
  {
    var es := Repeat(LoopTimerFired, k);
    assert es[0] == LoopTimerFired && es[1..] == Repeat(LoopTimerFired, k - 1);
  }

  /**
   * While audio is on, `k` firings of the loop timer are always possible and
   * advance the note index by `k` around the cycle.
   */
  lemma {:induction false} AmbientLoopAdvances(s: AppState, k: nat)
    requires Inv(s) && s.audioEnabled
    ensures Admissible(s, Repeat(LoopTimerFired, k))
    ensures Run(s, Repeat(LoopTimerFired, k)).noteIndex == (s.noteIndex + k) % |AmbientNotes|
    decreases k
  {
    var es := Repeat(LoopTimerFired, k);
    if k > 0 {
      var t := Step(s, LoopTimerFired);
      AmbientLoopAdvances(t, k - 1);
      assert es[0] == LoopTimerFired && es[1..] == Repeat(LoopTimerFired, k - 1);
      assert Run(s, es) == Run(t, es[1..]);
      CycleAdvance(s.noteIndex, k - 1);
    }
  }

  /** Those `k` firings sound the next `k` notes of the cycle, in order. */
  lemma {:induction false} AmbientLoopPlays(s: AppState, k: nat)
    requires Inv(s) && s.audioEnabled
    ensures Admissible(s, Repeat(LoopTimerFired, k))
    ensures Run(s, Repeat(LoopTimerFired, k)).played == s.played + AmbientFrom(s.noteIndex, k)
    decreases k
  {
    AmbientLoopAdvances(s, k);
    if k > 0 {
      var t := PlayLoopStep(s);
      assert t == Step(s, LoopTimerFired);
      assert t.noteIndex == (s.noteIndex + 1) % |AmbientNotes|;
      assert t.played == s.played + [AmbientTone(s.noteIndex)];
      LoopTimerRunUnfold(s, k);
      AmbientLoopPlays(t, k - 1);
      AmbientFromUnfold(s.played, s.noteIndex, k);
    }
  }

  /** After any multiple of four timer firings the loop is back at the same note. */
  lemma AmbientLoopPeriod(s: AppState, turns: nat)
    requires Inv(s) && s.audioEnabled
    ensures Admissible(s, Repeat(LoopTimerFired, |AmbientNotes| * turns))
    ensures Run(s, Repeat(LoopTimerFired, |AmbientNotes| * turns)).noteIndex == s.noteIndex
  {
    AmbientLoopAdvances(s, |AmbientNotes| * turns);
    CycleReturns(s.noteIndex, turns);
  }

  /**
   * Along any run the accept button's font size and padding never shrink,
   * and the reject button shows its default text only while nothing has
   * been rejected.
   */
  lemma DisplayAlongRuns(s: AppState, es: seq<Event>)
    requires Inv(s) && Admissible(s, es)
    ensures Display.FontSize(s.noCount) <= Display.FontSize(Run(s, es).noCount)
    ensures Display.PaddingY(s.noCount) <= Display.PaddingY(Run(s, es).noCount)
    ensures Display.PaddingX(s.noCount) <= Display.PaddingX(Run(s, es).noCount)
    ensures NoClicked in es ==> Run(s, es).noCount > 0
  {
    RunCountsRejections(s, es);
    Display.FontSizeMonotone(s.noCount, Run(s, es).noCount);
    Display.PaddingMonotone(s.noCount, Run(s, es).noCount);
  }

  /**
   * Evasive mode never switches off: an evasive reject button stays evasive
   * along any run, and any rejection in the run makes it evasive.
   */
  lemma RunawayStaysOn(s: AppState, es: seq<Event>)
    requires Inv(s) && Admissible(s, es)
    ensures Evasion.IsRunaway(s.noCount) ==> Evasion.IsRunaway(Run(s, es).noCount)
    ensures NoClicked in es ==> Evasion.IsRunaway(Run(s, es).noCount)
  {
    DisplayAlongRuns(s, es);
  }

  /** The page's state held in place; each handler is one step of the machine above. */
  class App {
    var noCount: nat
    var yesPressed: bool
    var audioEnabled: bool
    var isPlaying: bool
    var hasContext: bool
    var noteIndex: nat
    var loopPending: bool
    var played: seq<Tone>

    function State(): AppState
      reads this
    {
      AppState(noCount, yesPressed, audioEnabled, isPlaying, hasContext, noteIndex, loopPending, played)
    }

    predicate Valid()
      reads this
    {
      Inv(State())
    }

    constructor ()
      ensures Valid() && State() == Initial
    {
      noCount, yesPressed, audioEnabled, isPlaying := 0, false, false, false;
      hasContext, noteIndex, loopPending, played := false, 0, false, [];
    }

    /** `initAudio`: create the context if there is none (resuming it is a platform call). */
    method InitAudio()
      modifies this
      ensures State() == old(State()).(hasContext := true)
    {
      if !hasContext {
        hasContext := true;
      }
    }

    /** `playNote`: returns at once unless audio is enabled and a context exists. */
    method PlayNote(tone: Tone)
      modifies this
      ensures State() == PlayNoteStep(old(State()), tone)
    {
      if !audioEnabled || !hasContext {
        return;
      }
      played := played + [tone];
    }

    /** `playLoop`, called by the effect and by each firing of the loop timer. */
    method PlayLoop()
      requires noteIndex < |AmbientNotes|
      modifies this
      ensures State() == PlayLoopStep(old(State()))
    {
      if audioEnabled && isPlaying && hasContext {
        PlayNote(AmbientTone(noteIndex));
        noteIndex := (noteIndex + 1) % |AmbientNotes|;
        loopPending := true;
      } else {
        loopPending := false;
      }
    }

    /** The loop timer fires. */
    method OnLoopTimer()
      requires Valid() && Allowed(State(), LoopTimerFired)
      modifies this
      ensures Valid() && State() == Step(old(State()), LoopTimerFired)
    {
      PlayLoop();
    }

    /** `handleNoClick`; the reject button is rendered only before acceptance. */
    method HandleNoClick()
      requires Valid() && Allowed(State(), NoClicked)
      modifies this
      ensures Valid() && State() == Step(old(State()), NoClicked)
      ensures noCount == old(noCount) + 1
    {
      noCount := noCount + 1;
      if audioEnabled {
        PlayNote(RejectTone);
      }
    }

    /** `handleYesClick`, state part: accept, then schedule the four chime notes. */
    method HandleYesClick()
      requires Valid()
      modifies this
      ensures Valid() && State() == Step(old(State()), YesClicked)
      ensures yesPressed && noCount == old(noCount)
    {
      yesPressed := true;
      if audioEnabled {
        var chime := ChimeTones();
        for i := 0 to |chime|
          invariant State().(played := old(played)) == old(State()).(yesPressed := true)
          invariant played == old(played) + chime[..i]
        {
          PlayNote(chime[i]);
        }
      }
    }

    /** `toggleAudio`, followed by the effect that reacts to the two flags changing. */
    method ToggleAudio()
      requires Valid()
      modifies this
      ensures Valid() && State() == Step(old(State()), AudioToggled)
      ensures audioEnabled == !old(audioEnabled) && isPlaying == !old(isPlaying)
    {
      var wasEnabled := audioEnabled;
      audioEnabled := !audioEnabled;
      isPlaying := !isPlaying;
      if !wasEnabled {
        InitAudio();
      }
      // The effect's cleanup cancels the pending timer; its new run starts at note 0.
      loopPending := false;
      noteIndex := 0;
      if isPlaying && audioEnabled {
        InitAudio();
        PlayLoop();
      }
    }
  }
}
