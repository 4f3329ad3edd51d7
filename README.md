# Valentine proposal: screen flow controller

This project models the controller in `script.js` and proves properties of it. The controller takes the page through its screens: 0 is the opening envelope, 1 the date scene, 2 the proposal with its heart-catching game, and 3 the celebration. It also runs the heart game, the music flag and the sound guard.

The state is the script's module-level variables:
- `currentScreen`, `musicEnabled`, `caughtHearts` and the constant `totalHearts = 5`.
- The `caught` class on each heart, modelled as an explicit set of heart ids.
- The `active` class on each screen, modelled as an array of flags.

The model adds a few things the script leaves implicit:
- A count of the click listeners that `setupProposal` has registered on each heart.
- An ordered queue of the callbacks scheduled with `setTimeout`.
- A log of the sound names that get past the guard in `playSound`.
- A log of the decoration batches that were regenerated (floating hearts, confetti, balloons).

The project has three files:
- `screen_flow.dfy` (module `ScreenFlow`): the state as a value, `State`, with one function per handler or timer callback. `Step` applies one input event.
- `screen_flow_properties.dfy` (module `ScreenFlowProperties`): the lemmas, plus `Run`, whose contract says the invariant `Inv` holds after any run of events.
- `controller.dfy` (module `Controller`): the class `ScreenController`. Its fields are the script's state. Each method does what the handler does, step by step, including the loop that clears all screens' `active` flags and the loop that takes the `caught` mark off every heart. Each method is proved to leave `Model()` equal to the matching `ScreenFlow` function applied to the old `Model()`, so the lemmas carry over to the object.

Three behaviours of `script.js` shape the model:
- `restartExperience` resets only `currentScreen` and `caughtHearts`. It leaves the hearts' `caught` marks alone; only entering screen 2 clears them. So the counter equals the size of the caught set whenever screen 2 is current, from its entry until the next restart. Restart zeroes the counter and keeps the marks, so in general the counter is only at most that size (`Inv`, `RestartEffect`).
- Restart cancels no timer, and the celebrateYes callback (script.js:172-174) and the showScreen(3) callback (script.js:245-247) check no state before they act. The other two timers do check: the start-up music timer plays only if music is on (script.js:29), and the envelope timer acts only if its elements exist (script.js:71); both act only on audio or styling, so they change no modelled state. A celebration at the head of the queue at restart is the first callback to fire afterwards (`RestartCelebrationFiresFirst`) and, when nothing else was queued, its follow-up jumps to screen 3 (`RestartKeepsQueuedCelebration`).
- The continue button and `catchHeart` do not check which screen is current. The model does not add such checks either.

## Model

The functions of `ScreenFlow` (`ShowScreen`, `CatchHeart`, `Restart`, ...) are the specifications of the controller's methods of the same name; the controller rows stand for them, and the lemma rows state their properties.

| member | source | states |
|---|---|---|
| `Controller.ScreenController.constructor` | script.js:11-34 | The start-up state: screen 0 active and the only active screen, music on, counter 0, no heart caught. The envelope timer and the background-music timer are queued, in that order. |
| `Controller.ScreenController.ShowScreen` | script.js:43-63 | Afterwards screen i is the current screen and the only active one. The entry action ran: the envelope timer for 0, the heart-game reset for 2, the celebration decorations for 3. |
| `Controller.ScreenController.SetupProposal` | script.js:128-153 | Sets the counter to 0, takes the caught mark off every one of the five hearts, registers one more listener per heart, and regenerates the floating hearts. |
| `Controller.ScreenController.StartCelebration` | script.js:251-276 | Regenerates the confetti and the balloons and changes nothing else. |
| `Controller.ScreenController.OpeningClick` | script.js:81-86 | Does what `ScreenFlow.OpeningClick` does and keeps the object invariant. |
| `Controller.ScreenController.ContinueClick` | script.js:89-94 | Does what `ScreenFlow.ContinueClick` does and keeps the object invariant. |
| `Controller.ScreenController.CatchHeart` | script.js:156-176 | Does what `ScreenFlow.CatchHeart` does and keeps the object invariant. |
| `Controller.ScreenController.HeartClick` | script.js:134-139 | Calls catchHeart once for each registered listener. The loop invariant ties the state after k calls to `CatchRepeated`. |
| `Controller.ScreenController.CelebrateYes` | script.js:240-248 | Plays the celebration sound if allowed and queues showing screen 3. |
| `Controller.ScreenController.FirePending` | script.js:172-174 | Removes the oldest queued timer and runs its callback. Does nothing when no timer is queued. The callbacks are those of the timers at script.js:28-34 (music start), 67-75 (envelope), 172-174 (celebrateYes) and 245-247 (showScreen 3). |
| `Controller.ScreenController.Restart` | script.js:362-381 | Does what `ScreenFlow.Restart` does and keeps the object invariant. |
| `Controller.ScreenController.ToggleMusic` | script.js:341-359 | Negates the music flag, then plays the tap sound if allowed. |
| `Controller.ScreenController.PlaySound` | script.js:322-338 | Appends the name to the sound log only when music is on and the name is a known key. |
| `Controller.ScreenController.Screenshot` | script.js:384-385 | Logs the tap sound when music is on and changes nothing else; the message it shows is presentation. |
| `Controller.ScreenController.Resize` | script.js:467-474 | Regenerates decorations on screens 2 and 3 only. |
| `Controller.ScreenController.ProgressPercent` | script.js:187-189 | The progress width is within 0..100 and equals caughtHearts * 100 / totalHearts exactly. |
| `ScreenFlowProperties.CaughtBound` | script.js:14 | There are exactly five hearts, so no caught set is larger than 5. A caught set of size 5 holds every heart. |
| `ScreenFlowProperties.CounterBounds` | script.js:187-189 | Under the invariant the counter is within 0..5 and the progress within 0..100. Progress is 100 exactly when all five hearts are caught. |
| `ScreenFlowProperties.CatchHeartCaughtIsNoOp` | script.js:157 | Catching a heart that is already caught changes nothing: counter, set, timers, sounds and every other field stay the same. |
| `ScreenFlowProperties.CatchHeartFresh` | script.js:159-175 | A fresh heart joins the set and the counter rises by exactly 1. At most the heart sound is logged. The celebration is queued exactly when the counter reaches 5. Nothing else changes. |
| `ScreenFlowProperties.CatchHeartIdempotent` | script.js:157-161 | Catching the same heart twice has the effect of catching it once. |
| `ScreenFlowProperties.CatchHeartPreservesInv` | script.js:156-176 | catchHeart keeps the invariant. It keeps the counter equal to the caught set's size when the two were equal. |
| `ScreenFlowProperties.CatchRepeatedIsOnce` | script.js:139-157 | Any number k ≥ 1 of catchHeart calls for one heart has the effect of one call, so listeners registered by repeated entries to screen 2 never count a heart twice. |
| `ScreenFlowProperties.HeartClickIsCatch` | script.js:139 | Once at least one listener is registered, a click on a heart is exactly one catchHeart. |
| `ScreenFlowProperties.ClickSeqIsCatchSeq` | script.js:139 | A sequence of heart clicks equals the same sequence of single catchHeart calls. |
| `ScreenFlowProperties.CatchSeqCounter` | script.js:157-161 | After any sequence of catches, starting from a matching counter, the caught set has grown by exactly the hearts clicked. The counter still equals its size, and screen, music, listeners and decorations are unchanged. |
| `ScreenFlowProperties.CatchSeqPending` | script.js:170-175 | A sequence of catches queues the celebration once if it completes the set from an incomplete one, and never otherwise. |
| `ScreenFlowProperties.CatchSeqSounds` | script.js:164 | A sequence of catches logs one heart sound per newly caught heart while music is on, and no sound when it is off. |
| `ScreenFlowProperties.CatchSeqEffect` | script.js:156-176 | Combines the three lemmas above into the full effect of any sequence of catches. |
| `ScreenFlowProperties.ShowScreenEffect` | script.js:43-63 | showScreen(i) keeps the invariant and makes i current. Entering 2 sets the counter to 0, empties the caught set, adds a listener and regenerates floating hearts. Entering 3 regenerates confetti and balloons. Other screens leave the game state and decorations alone. Only screen 0 queues a timer. |
| `ScreenFlowProperties.OpeningClickGuard` | script.js:81-86 | From screen 0 the click goes to screen 1 and logs the select sound if allowed. On any other screen the click changes nothing. The result is screen 1 exactly when the click came on screen 0 or 1. |
| `ScreenFlowProperties.ContinueClickEntersProposal` | script.js:90-93 | Continue always reaches screen 2 with a fresh heart game and no new timer. |
| `ScreenFlowProperties.HeartGameCelebratesOnce` | script.js:128-175 | Enter screen 2, then click hearts in any order with any duplicates. The counter equals the number of distinct hearts clicked (at most 5). Exactly one celebration is queued if all five were clicked, and none otherwise. |
| `ScreenFlowProperties.CelebrateYesFires` | script.js:240-248 | Whatever is queued behind it, firing the celebration timer keeps the invariant, logs the celebration sound if music is on and queues screen 3 behind the rest of the queue. Nothing else changes, the current screen included. |
| `ScreenFlowProperties.CelebrationShowsFinalScreen` | script.js:240-248 | When the celebration is the only queued timer: firing it and then its follow-up makes screen 3 current with the confetti and balloons regenerated, the celebration sound logged if allowed, and an empty queue. |
| `ScreenFlowProperties.HeartGameEndsCelebrating` | script.js:170-175 | With no timer outstanding: after entering screen 2 and catching every heart, two timer firings land on the celebration screen. |
| `ScreenFlowProperties.RestartEffect` | script.js:362-381 | Restart always ends on screen 0 with counter 0 and the music flag unchanged. It keeps the invariant, leaves the caught marks, queues the envelope timer and logs the select sound if allowed. |
| `ScreenFlowProperties.RestartCelebrationFiresFirst` | script.js:362-381 | Whatever else is queued behind it, a celebration at the head of the queue survives restart, ahead of the envelope timer restart queues. It is the first callback to fire afterwards: the page stays on screen 0 with the counter at 0 and the marks kept, the select and celebration sounds are logged when music is on, and its screen-3 follow-up is queued behind the envelope timer. |
| `ScreenFlowProperties.RestartKeepsQueuedCelebration` | script.js:362-381 | When the celebration is the only queued timer: restart queues the envelope timer behind it, and the three callbacks then fire in order, the celebration, the envelope and its screen-3 follow-up, which brings up screen 3. |
| `ScreenFlowProperties.ToggleMusicTwice` | script.js:341-359 | toggleMusic negates the flag, and toggling twice restores it. Over the two toggles exactly one tap sound is logged and nothing else changes. |
| `ScreenFlowProperties.PlaySoundGuard` | script.js:322-338 | playSound logs the name exactly when music is on and the name is one of the five keys. It never changes anything else. |
| `ScreenFlowProperties.ScreenshotEffect` | script.js:384-385 | The screenshot button logs the tap sound exactly when music is on and changes nothing else. |
| `ScreenFlowProperties.ResizeEffect` | script.js:467-474 | The resize handler changes only the decorations. It changes them exactly when the current screen is 2 or 3. |
| `ScreenFlowProperties.StepPreservesInv` | script.js:79-125 | Every handler and timer callback keeps the invariant. |
| `ScreenFlowProperties.Run` | script.js:79-125 | The invariant holds after any sequence of events. |
| `ScreenFlowProperties.InitialIsValid` | script.js:11-34 | The start-up state satisfies the invariant, is on screen 0 with music on, and has the envelope and music timers queued. |
| `ScreenFlowProperties.ReachableStates` | script.js:362-381 | In every state reachable from start-up the counter is at most 5, equals the number of caught hearts whenever screen 2 is current, and the progress is within 0..100. Restart from there reaches screen 0 with counter 0 and keeps the music flag. |

`Inv` (in `ScreenFlow`) says:
- there are at least four screens and the current screen exists;
- the counter is at most the size of the caught set;
- screen 2 is current only once its listeners exist, and while it is current the counter equals the size of the caught set;
- every queued screen change names an existing screen.

## Left out

- DOM styling, the CSS injected at load time, the envelope transforms and the inline styles of the decorations. These are presentation only.
- The random content, sizes, positions and counts of the floating hearts and confetti and the balloon layout. The model records only which batch was regenerated.
- Audio playback itself: `new Audio`, `play`, `pause`, volumes, URLs and rejected playback. The start-up music timer and `startCelebration`'s own celebration music act only on audio, so they change no modelled state. The sound log lists only the names accepted by `playSound`.
- Timer durations (500, 800 and 1000 ms). Timers are a first-in first-out queue without time, so callbacks with different delays fire in the order they were queued.
- Mobile user-agent detection, the hover sound on `.cute-button` elements, their generic tap sound, and the touch scaling on hearts. Which elements carry `.cute-button` is decided by the page markup, and markup is not part of this model.
- The simulated screenshot message and the timer that removes it (script.js:387-408). They are presentation only; the tap sound the screenshot button plays is modelled.
- How event listeners are registered. The model keeps only the number of heart click listeners, because that number decides how often one click runs catchHeart.
- `ScreenController.ShowScreen`: requires an existing screen index. In the script an out-of-range index clears every screen's `active` class and then throws; every call site passes 0 to 3.
- `ScreenController.PlaySound`: an unknown name is modelled as rejected. In the script, names inherited from `Object.prototype` (such as `toString`) would also pass the table lookup. Every call site passes one of the five keys.
- The page markup is assumed to hold exactly `totalHearts` hearts, none of them marked caught at load time. It is also assumed to hold every other element the script uses without a null check: the background audio element (script.js:22), the opening screen (script.js:81) and the `<i>` icon inside the music toggle (script.js:343-353). Without that icon `toggleMusic` would throw after flipping the flag and before playing the tap sound, and without the other two the start-up handler would throw. The decoration containers `.floating-hearts`, `.confetti-area` and `.floating-balloons` are assumed present too: the script regenerates a batch only when its container exists (script.js:196, 257, 289), while the decoration log records every batch.
