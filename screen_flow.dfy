/**
 * The screen flow controller of the valentine-proposal page (script.js) as a
 * pure state machine: one value `State` holding the module-level game state,
 * and one function per event handler or timer callback, mapping the state
 * before the handler runs to the state after it.
 *
 * Timers (`setTimeout`) become an ordered queue `pending` of actions still to
 * run; audio playback becomes a log `sounds` of the sound names passed the
 * guard in `playSound`; regenerated decorations (floating hearts, confetti,
 * balloons) become a log `decorations`.
 */
module ScreenFlow {

  /** Number of hearts in the catching game (`totalHearts`). */
  const TotalHearts: nat := 5

  /** The fewest screens the page has: opening, date, proposal, celebration. */
  const MinScreens: nat := 4

  const OpeningScreen: nat := 0
  const DateScreen: nat := 1
  const ProposalScreen: nat := 2
  const CelebrationScreen: nat := 3

  /** One of the hearts to catch on the proposal screen. */
  type HeartId = h: nat | h < TotalHearts

  /** Every heart of the game. */
  const AllHearts: set<HeartId> := {0, 1, 2, 3, 4}

  /** The keys of the sound table in `playSound`. */
  const KnownSounds: set<string> := {"tap", "hover", "select", "heart", "celebration"}

  /** A callback scheduled with `setTimeout` and not yet run. */
  datatype Action =
    | EnvelopeTimer             // animateEnvelope's delayed transform (DOM only)
    | MusicStartTimer           // the start-up background music (audio only)
    | CelebrateYesTimer         // catchHeart's delayed celebrateYes()
    | ShowScreenTimer(index: nat) // celebrateYes's delayed showScreen(index)

  /** A batch of decorative elements regenerated on screen. */
  datatype Decoration = FloatingHearts | Confetti | Balloons

  datatype State = State(
    screenCount: nat,        // number of `.screen` elements
    currentScreen: nat,
    musicEnabled: bool,
    caughtHearts: nat,
    caught: set<HeartId>,    // hearts carrying the `caught` class
    listeners: nat,          // click listeners registered on each heart
    pending: seq<Action>,
    sounds: seq<string>,
    decorations: seq<Decoration>)

  /** Every scheduled screen change names an existing screen. */
  predicate PendingValid(s: State)
  {
    forall a :: a in s.pending && a.ShowScreenTimer? ==> a.index < s.screenCount
  }

  /** What every reachable state satisfies. */
  predicate Inv(s: State)
  {
    && s.screenCount >= MinScreens
    && s.currentScreen < s.screenCount
    && s.caughtHearts <= |s.caught|
    && (s.currentScreen == ProposalScreen ==> s.listeners >= 1)
    && (s.currentScreen == ProposalScreen ==> s.caughtHearts == |s.caught|)
    && PendingValid(s)
  }

  /** The width of the progress bar in percent (`updateHeartCounter`). */
  function Progress(s: State): int
  {
    s.caughtHearts * 100 / TotalHearts
  }

  /** `playSound(name)`: nothing when music is off or the name is unknown. */
  function PlaySound(s: State, name: string): State
  {
    if !s.musicEnabled then s
    else if name in KnownSounds then s.(sounds := s.sounds + [name])
    else s
  }

  /** `setupProposal`: reset the counter, clear every caught mark, register
      one more click listener on each heart, regenerate floating hearts. */
  function SetupProposal(s: State): State
  {
    s.(caughtHearts := 0, caught := {}, listeners := s.listeners + 1,
       decorations := s.decorations + [FloatingHearts])
  }

  /** `startCelebration`: regenerate confetti and balloons. */
  function StartCelebration(s: State): State
  {
    s.(decorations := s.decorations + [Confetti, Balloons])
  }

  /** `showScreen(i)`: make screen i the current one and run its entry action. */
  function ShowScreen(s: State, i: nat): State
    requires i < s.screenCount
  {
    var t := s.(currentScreen := i);
    if i == OpeningScreen then t.(pending := t.pending + [EnvelopeTimer])
    else if i == ProposalScreen then SetupProposal(t)
    else if i == CelebrationScreen then StartCelebration(t)
    else t
  }

  /** The state after the `DOMContentLoaded` handler of a page with n screens. */
  function Initial(n: nat): State
    requires n >= MinScreens
  {
    var s := ShowScreen(State(n, OpeningScreen, true, 0, {}, 0, [], [], []), OpeningScreen);
    s.(pending := s.pending + [MusicStartTimer])
  }

  /** A click on the opening screen: only acts while it is the current one. */
  function OpeningClick(s: State): State
    requires s.screenCount >= MinScreens
  {
    if s.currentScreen == OpeningScreen then PlaySound(ShowScreen(s, DateScreen), "select")
    else s
  }

  /** The continue button: go to the proposal screen. */
  function ContinueClick(s: State): State
    requires s.screenCount >= MinScreens
  {
    PlaySound(ShowScreen(s, ProposalScreen), "select")
  }

  /** `catchHeart(h)`: a heart already caught is ignored. */
  function CatchHeart(s: State, h: HeartId): State
  {
    if h in s.caught then s
    else
      var t := PlaySound(s.(caught := s.caught + {h}, caughtHearts := s.caughtHearts + 1), "heart");
      if t.caughtHearts >= TotalHearts then t.(pending := t.pending + [CelebrateYesTimer])
      else t
  }

  /** catchHeart(h) run k times in a row. */
  function CatchRepeated(s: State, h: HeartId, k: nat): State
  {
    if k == 0 then s else CatchHeart(CatchRepeated(s, h, k - 1), h)
  }

  /** A click on heart h: every listener registered by `setupProposal` calls
      catchHeart(h) in turn. */
  function HeartClick(s: State, h: HeartId): State
  {
    CatchRepeated(s, h, s.listeners)
  }

  /** `celebrateYes`: play the celebration sound and schedule screen 3. */
  function CelebrateYes(s: State): State
  {
    var t := PlaySound(s, "celebration");
    t.(pending := t.pending + [ShowScreenTimer(CelebrationScreen)])
  }

  /** Run the oldest scheduled callback, if there is one. */
  function FirePending(s: State): State
    requires PendingValid(s)
  {
    if s.pending == [] then s
    else
      var a := s.pending[0];
      var t := s.(pending := s.pending[1..]);
      match a
      case EnvelopeTimer => t
      case MusicStartTimer => t
      case CelebrateYesTimer => CelebrateYes(t)
      case ShowScreenTimer(i) => ShowScreen(t, i)
  }

  /** `restartExperience`. */
  function Restart(s: State): State
    requires s.screenCount >= MinScreens
  {
    var t := s.(currentScreen := OpeningScreen, caughtHearts := 0);
    PlaySound(ShowScreen(t, OpeningScreen), "select")
  }

  /** `toggleMusic`: flip the flag, then play the tap sound. */
  function ToggleMusic(s: State): State
  {
    PlaySound(s.(musicEnabled := !s.musicEnabled), "tap")
  }

  /** `takeScreenshot`: plays the tap sound; the message it shows is
      presentation only. */
  function Screenshot(s: State): State
  {
    PlaySound(s, "tap")
  }

  /** The window resize handler. */
  function Resize(s: State): State
  {
    if s.currentScreen == ProposalScreen then s.(decorations := s.decorations + [FloatingHearts])
    else if s.currentScreen == CelebrationScreen then s.(decorations := s.decorations + [Confetti])
    else s
  }

  /** The inputs the page reacts to. */
  datatype Event =
    | OpeningClicked
    | ContinueClicked
    | HeartClicked(heart: HeartId)
    | SimpleYesClicked
    | TimerFired
    | RestartClicked
    | MusicToggled
    | ScreenshotClicked
    | WindowResized

  function Step(s: State, e: Event): State
    requires Inv(s)
  {
    match e
    case OpeningClicked => OpeningClick(s)
    case ContinueClicked => ContinueClick(s)
    case HeartClicked(h) => HeartClick(s, h)
    case SimpleYesClicked => CelebrateYes(s)
    case TimerFired => FirePending(s)
    case RestartClicked => Restart(s)
    case MusicToggled => ToggleMusic(s)
    case ScreenshotClicked => Screenshot(s)
    case WindowResized => Resize(s)
  }

  /** catchHeart applied to the hearts of hs in order. */
  function CatchSeq(s: State, hs: seq<HeartId>): State
    decreases |hs|
  {
    if hs == [] then s else CatchSeq(CatchHeart(s, hs[0]), hs[1..])
  }

  /** Clicks on the hearts of hs in order. */
  function ClickSeq(s: State, hs: seq<HeartId>): State
    decreases |hs|
  {
    if hs == [] then s else ClickSeq(HeartClick(s, hs[0]), hs[1..])
  }

  function HeartsOf(hs: seq<HeartId>): set<HeartId>
  {
    set h | h in hs
  }
}
