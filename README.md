# Valentine prompt: interaction state machine

A Dafny model of the logic inside the single-page "Will you be my Valentine?"
app (`src/App.jsx`). The page counts how often the visitor rejects (`noCount`)
and whether they have accepted (`yesPressed`, one-way). From the counter it
derives the reject button's text, which cycles through 15 phrases, and the
accept button's font size (capped) and padding (floored). After the first
rejection the reject button evades the pointer. It is fixed with its top-left
corner at (W/2 − 50, H/2 − 25) and jumps to a random translation within bounds
computed from the viewport, the button's size and a 20-pixel padding. An audio switch flips `audioEnabled` and `isPlaying` together.
While sound is on, an ambient loop plays a four-note cycle, one note per
timer firing. `playNote` does nothing unless audio is enabled and an audio
context exists.

Modules:

- `Display` (`display.dfy`): the derived display values, as pure functions of `noCount`.
- `Evasion` (`evasion.dfy`): the displacement bounds and the random placement as
  functions, plus the `NoButton` class, whose `MoveButton` updates its `position` field.
- `Audio` (`audio.dfy`): the note tables and tones, as data.
- `Interaction` (`interaction.dfy`): the state record `AppState`, one pure step
  function per handler, runs of events and the lemmas about them, plus the `App`
  class. `App` keeps the same state in fields, and each of its handlers is proved
  to perform the matching step.

Each handler is one atomic step. The random draw `Math.random()` becomes a
parameter in [0, 1). Viewport and button sizes are `real`s. A tone that is
"played" is appended to the `played` log. `hasContext` stands for "the audio
context exists". `loopPending` stands for "an ambient-loop timer is scheduled".

Behaviour of `src/App.jsx` worth knowing when reading the model:

- For a 1000×800 viewport and a 100×50 button, `moveButton` gives
  maxX = 500 − 50 − 20 = 430 and maxY = 400 − 25 − 20 = 355 (`Evasion.WorkedBounds`).
- `handleNoClick` only counts and plays a tone. The button moves only on
  pointer enter or touch (`NoButton.moveButton`).
- A repeated `handleYesClick` leaves the state unchanged but plays the chime
  again (`Interaction.YesClickIdempotent`).
- `handleNoClick` has no guard against a rejection after acceptance. The reject
  button is simply not rendered once `yesPressed` is true, so the model states
  this as the precondition `Allowed`.
- Once the first rejection makes the button evasive, it stays evasive
  (`Interaction.RunawayStaysOn`).
- The runaway button's resting corner is centred only for a 100×50 button, while
  the bounds use the measured size. A wider button can be pushed past the padding,
  and past the viewport edge (see "## Findings").
- The accept button's padding is not capped, although its font size is.
- The first rejection shows the second phrase ("Really sure?"). The first phrase
  appears only at the 15th rejection, because the index is `noCount % 15`
  (`Display.FirstCycle`).

## Model

| member | source | states |
|---|---|---|
| `Display.MessagesAreNotDefault` | src/App.jsx:6-22 | the table has 15 phrases and none of them is the default text "No" |
| `Display.RejectText` | src/App.jsx:218 | the text is "No" exactly when `noCount == 0`; otherwise it is a phrase of the table |
| `Display.RejectTextIndex` | src/App.jsx:218 | for a positive count the phrase is `messages[noCount % 15]`, and that index lies inside the table |
| `Display.MessageIndexPeriodic` | src/App.jsx:218 | adding any multiple of 15 to the counter leaves the phrase index unchanged |
| `Display.RejectTextPeriodic` | src/App.jsx:218 | for `n >= 1` and any `k`, `text(n + 15k) == text(n)` |
| `Display.FirstCycle` | src/App.jsx:218 | rejections 1..14 show phrases 1..14 in order; the 15th shows phrase 0 |
| `Display.YesButtonSize` | src/App.jsx:132 | the unclamped size is at least 24 and grows by exactly 15 per rejection |
| `Display.FontSize` | src/App.jsx:205 | the font size lies in [24, 120]; it is the unclamped size or the 120 cap, and never exceeds the unclamped size |
| `Display.FontSizeMonotone` | src/App.jsx:205 | the font size is non-decreasing in `noCount` |
| `Display.FontSizeCap` | src/App.jsx:205 | the cap is reached exactly from the 7th rejection on; before that each rejection adds 15 |
| `Display.PaddingY` | src/App.jsx:206 | vertical padding is at least 12 and at least a third of the unclamped size |
| `Display.PaddingX` | src/App.jsx:206 | horizontal padding is at least 24 and at least the unclamped size divided by 1.5 |
| `Display.PaddingAspect` | src/App.jsx:206 | horizontal padding is always twice the vertical padding |
| `Display.PaddingMonotone` | src/App.jsx:206 | both paddings grow strictly with the counter, and each equals its floor exactly when `noCount == 0` |
| `Evasion.IsRunaway` | src/App.jsx:250 | the button is evasive exactly when at least one rejection has happened |
| `Evasion.ButtonSize` | src/App.jsx:237-238 | the measured size is used when the button is laid out; otherwise the 100×50 fallback |
| `Evasion.MaxDisplacement` | src/App.jsx:241-242 | the largest translation is half the viewport less half the button and 20 px: a button centred in the viewport and translated that far has its far edge exactly 20 px inside the edge |
| `Evasion.Bounds` | src/App.jsx:236-242 | `maxX` and `maxY` come from the viewport width and height and the button's width and height (or the fallback) |
| `Evasion.Offset` | src/App.jsx:244-245 | for a draw in [0, 1), `abs(offset) <= abs(max)`; for `max >= 0` the offset lies in [-max, max] |
| `Evasion.OffsetCovers` | src/App.jsx:244-245 | for `max > 0`, every offset in [-max, max) is produced by some draw in [0, 1) |
| `Evasion.NextPosition` | src/App.jsx:232-247 | before the first rejection the position is unchanged; afterwards `abs(x) <= abs(maxX)` and `abs(y) <= abs(maxY)` |
| `Evasion.RestCorner` | src/App.jsx:256-259 | the runaway button's resting corner is the one that centres a 100×50 button |
| `Evasion.CentredCorner` | src/App.jsx:256-259 | the corner that puts the button's centre at the viewport's centre |
| `Evasion.RestCentredOnlyForFallback` | src/App.jsx:256-259 | the resting corner centres the button exactly when the button is 100×50 |
| `Evasion.Placed` | src/App.jsx:256-261 | the on-screen box is the resting corner moved by the translation, with the button's width and height |
| `Evasion.GapsAsWritten` | src/App.jsx:235-261 | as placed by the page, a moved w×h button keeps at least w/2 − 30 on the left, 70 − w/2 on the right, h/2 − 5 at the top and 45 − h/2 at the bottom |
| `Evasion.OverflowAsWritten` | src/App.jsx:235-261 | a 260×48 button in a 1000×800 viewport with draw 0.99 is translated by 343 and its right edge lands at 1053, past the viewport |
| `Evasion.PaddingBrokenAsWritten` | src/App.jsx:235-261 | every button wider than 100 that fits is pushed past the right-hand padding by some draw |
| `Evasion.MovedButtonInsideViewport` | src/App.jsx:235-247 | resting at the centred corner instead, a moved button that fits lies inside the viewport with 20 px to spare on every side, for every draw |
| `Evasion.WorkedBounds` | src/App.jsx:236-242 | a 1000×800 viewport with a 100×50 or unmeasured button gives `maxX = 430` and `maxY = 355` |
| `Evasion.NoButton.constructor` | src/App.jsx:229 | the button starts at offset (0, 0) |
| `Evasion.NoButton.MoveButton` | src/App.jsx:232-248 | `position` becomes `NextPosition` of the old position; it is unchanged while `noCount < 1` and otherwise within the bounds |
| `Audio.AmbientTone` | src/App.jsx:62-66 | the ambient note at a cycle position is a sine tone of 1.5 s at a frequency from the four-note table |
| `Audio.ChimeTones` | src/App.jsx:96-97 | the chime is four triangle tones of 2 s, at the chime table's frequencies, in order |
| `Audio.TablesAscend` | src/App.jsx:62-97 | both note tables rise in pitch; chime delays are `100*i` ms; the 400 ms loop interval is shorter than a 1.5 s note |
| `Audio.CycleAdvance` | src/App.jsx:67 | one step of `(i + 1) % 4` followed by `k` more steps is `k + 1` steps |
| `Audio.CycleReturns` | src/App.jsx:67 | any whole number of turns of four steps returns to the start |
| `Interaction.PlayNoteStep` | src/App.jsx:42-54 | a tone is added exactly when audio is enabled and a context exists; nothing else changes |
| `Interaction.PlayAllStep` | src/App.jsx:96-98 | a series of `playNote` calls adds all of the tones or none, and changes nothing else |
| `Interaction.PlayLoopStep` | src/App.jsx:64-70 | the loop reschedules exactly when enabled, playing and a context exists; it then plays `notes[i]` and sets `i` to `(i + 1) % 4`; otherwise it stops and changes nothing else |
| `Interaction.NoClickStep` | src/App.jsx:86-90 | `noCount` grows by one; the reject tone is added only with sound on; nothing else changes |
| `Interaction.YesClickStep` | src/App.jsx:92-99 | `yesPressed` becomes true; the four-note chime is added only with sound on; nothing else changes |
| `Interaction.ToggleAudioStep` | src/App.jsx:59-84 | both audio flags flip, a context exists after switching on, the counter and acceptance are untouched, and a loop timer is pending exactly when both flags are on |
| `Interaction.Step` | src/App.jsx:25-99 | every event keeps the invariant (`audioEnabled == isPlaying`, sound on implies a context, timer pending iff sound on, index in 0..3); only a reject adds to the counter; `yesPressed` becomes true exactly on accept and then stays true; played tones are only appended |
| `Interaction.Run` | src/App.jsx:25-99 | over any admissible run the invariant holds, the counter never decreases, and acceptance, the context and played tones are never undone |
| `Interaction.InitialInv` | src/App.jsx:25-30 | the page-load state satisfies the invariant, with zero rejections, not accepted and silent |
| `Interaction.RunCountsRejections` | src/App.jsx:86-90 | after a run, `noCount` equals the starting count plus the number of rejections in the run |
| `Interaction.RepeatedRejections` | src/App.jsx:86-90 | `n` rejections in the question view are always possible; they add `n` to the counter and change nothing else except tones, and no tones while sound is off |
| `Interaction.RejectionsFromInitial` | src/App.jsx:25-90 | after `n` rejections from page load the state is the initial one with `noCount == n` |
| `Interaction.AcceptIsTerminal` | src/App.jsx:169-219 | once accepted, no admissible run contains a rejection, `yesPressed` stays true and `noCount` stays unchanged |
| `Interaction.YesClickIdempotent` | src/App.jsx:92-99 | a second accept changes nothing but the tones played |
| `Interaction.FeedbackTones` | src/App.jsx:86-99 | in a reachable state the reject tone and the chime sound exactly when audio is enabled |
| `Interaction.ToggleStartsAndStops` | src/App.jsx:59-84 | switching on starts the loop with note 0, leaves index 1 and a pending timer; switching off cancels the timer and plays nothing |
| `Interaction.ToggleTwiceLeavesNoTimer` | src/App.jsx:72-84 | switching on and then off leaves no pending loop timer, and both flags are false again |
| `Interaction.AmbientLoopAdvances` | src/App.jsx:61-69 | with sound on, `k` timer firings are always possible and advance the note index to `(i + k) % 4` |
| `Interaction.AmbientLoopPlays` | src/App.jsx:61-69 | those `k` firings play exactly the next `k` notes of the cycle, in order |
| `Interaction.AmbientLoopPeriod` | src/App.jsx:62-67 | after any multiple of four firings the loop is back at the same note |
| `Interaction.DisplayAlongRuns` | src/App.jsx:132-218 | along any run the font size and both paddings never shrink, and any rejection ends the default "No" text |
| `Interaction.RunawayStaysOn` | src/App.jsx:250 | along any run an evasive button stays evasive, and any rejection makes it evasive |
| `Interaction.App.constructor` | src/App.jsx:25-30 | the fields start in the page-load state, which satisfies the invariant |
| `Interaction.App.InitAudio` | src/App.jsx:33-40 | afterwards a context exists; nothing else changes |
| `Interaction.App.PlayNote` | src/App.jsx:42-54 | performs `PlayNoteStep`: returns early unless audio is enabled and a context exists |
| `Interaction.App.PlayLoop` | src/App.jsx:64-70 | performs `PlayLoopStep` on the fields |
| `Interaction.App.OnLoopTimer` | src/App.jsx:68 | a pending timer fires: performs the loop step and keeps the invariant |
| `Interaction.App.HandleNoClick` | src/App.jsx:86-90 | performs the reject step (counter plus one) and keeps the invariant |
| `Interaction.App.HandleYesClick` | src/App.jsx:92-99 | sets `yesPressed`, plays the chime notes one by one in a loop, performs the accept step and keeps the invariant |
| `Interaction.App.ToggleAudio` | src/App.jsx:72-84 | flips both flags, runs the effect (cancel the timer, restart the index, start the loop when on), performs the toggle step and keeps the invariant |

## Findings

| source | as written | input that shows it | evidently intended | confidence | as-written member | corrected member |
|---|---|---|---|---|---|---|
| src/App.jsx:236-261 | the runaway button rests with its top-left corner at (W/2 − 50, H/2 − 25) whatever its size, while `maxX` and `maxY` keep the measured button 20 px inside only if it rests centred | viewport 1000×800, measured button 260×48, first draw 0.99: maxX = 350, translation 343, right edge at 450 + 260 + 343 = 1053 > 1000 | the button rests centred, at (W/2 − w/2, H/2 − h/2), so every draw keeps it 20 px inside the viewport | not executed | `Evasion.OverflowAsWritten` | `Evasion.MovedButtonInsideViewport` |

## Left out

- Rendering is not modelled: JSX, Tailwind classes, framer-motion animations and spring transitions, and the background hearts. These are presentation and library behaviour.
- The confetti bursts and their `requestAnimationFrame` / `Date.now()` frame loop are not modelled. They depend on wall-clock time and a foreign library.
- Web Audio synthesis is not modelled: oscillator and gain nodes, the gain ramp, and creating or resuming the context. These are platform calls. A played tone is only recorded in `played`, and the context is the flag `hasContext`. A context that the platform fails to create is outside the model.
- Timer delays are not modelled. The chime's 0/100/200/300 ms offsets and the 400 ms loop interval are recorded as data only. The chime notes are played at once, in order. So the model misses a chime note that sounds after audio was switched off within those 300 ms.
- React batching, stale closures and remounting are not modelled. Each handler, and `toggleAudio` together with the effect it triggers, is one atomic step. During the question view's exit animation the old buttons may still receive clicks. The model does not capture this.
- `Math.random` is not modelled. Each draw is a parameter in [0, 1).
- Window resizing between moves is not modelled. The viewport size is a parameter of each move.
- Pointer events are not modelled. `MoveButton` is what the pointer-enter and touch handlers call. They are attached only while the button is evasive (`Evasion.IsRunaway`).
- `Interaction.Step`: defined only on states that satisfy the invariant. Every state the page can reach does (`Interaction.Run`, `Interaction.InitialInv`).
