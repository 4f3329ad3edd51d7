/**
 * What the screen flow controller guarantees: the bounds of the heart
 * counter, the per-heart guard of catchHeart, one celebration per round of
 * the heart game, the guarded screen transitions, restart, the music flag,
 * and an invariant kept along every run of events.
 */
module ScreenFlowProperties {
  import opened ScreenFlow

  // ---------------------------------------------------------------------------
  // Sets of hearts and repeated sounds

  /** A subset of a set of hearts is no larger, and equal when it is as large. */
  lemma SubsetSize(a: set<HeartId>, b: set<HeartId>)
    requires a <= b
    ensures |a| <= |b|
    ensures |a| == |b| ==> a == b
  {
    assert b == a + (b - a);
    if |a| == |b| {
      assert |b - a| == 0;
    }
  }

  /** There are exactly TotalHearts hearts, so no set of hearts is larger. */
  lemma CaughtBound(c: set<HeartId>)
    ensures |AllHearts| == TotalHearts
    ensures |c| <= TotalHearts
    ensures |c| == TotalHearts <==> c == AllHearts
  {
    assert c <= AllHearts by {
      forall h | h in c ensures h in AllHearts {
        assert h == 0 || h == 1 || h == 2 || h == 3 || h == 4;
      }
    }
    SubsetSize(c, AllHearts);
  }

  function Repeat(x: string, n: nat): (r: seq<string>)
    ensures |r| == n
    ensures forall k :: 0 <= k < n ==> r[k] == x
  {
    seq(n, _ => x)
  }

  lemma RepeatCons(x: string, n: nat)
    ensures [x] + Repeat(x, n) == Repeat(x, n + 1)
  {
  }

  // ---------------------------------------------------------------------------
  // The heart counter

  /** In every state of the invariant the counter is within 0..TotalHearts and
      the progress bar within 0..100, full exactly when all hearts are caught. */
  lemma CounterBounds(s: State)
    requires Inv(s)
    ensures 0 <= s.caughtHearts <= TotalHearts
    ensures 0 <= Progress(s) <= 100
    ensures Progress(s) * TotalHearts == s.caughtHearts * 100
    ensures Progress(s) == 100 <==> s.caughtHearts == TotalHearts
  {
    CaughtBound(s.caught);
  }

  /** A heart already caught is ignored: nothing at all changes. */
  lemma CatchHeartCaughtIsNoOp(s: State, h: HeartId)
    requires h in s.caught
    ensures CatchHeart(s, h) == s
  {
  }

  /** A fresh heart joins the caught set, the counter goes up by one, at most
      the heart sound is logged, and the celebration is scheduled exactly when
      the counter reaches TotalHearts; nothing else changes. */
  lemma CatchHeartFresh(s: State, h: HeartId)
    requires h !in s.caught
    ensures var t := CatchHeart(s, h);
      && t.caught == s.caught + {h}
      && t.caughtHearts == s.caughtHearts + 1
      && t.sounds == s.sounds + (if s.musicEnabled then ["heart"] else [])
      && t.pending == s.pending + (if s.caughtHearts + 1 >= TotalHearts then [CelebrateYesTimer] else [])
      && t.(caught := s.caught, caughtHearts := s.caughtHearts, sounds := s.sounds, pending := s.pending) == s
  {
  }

  /** Catching the same heart twice is catching it once. */
  lemma CatchHeartIdempotent(s: State, h: HeartId)
    ensures CatchHeart(CatchHeart(s, h), h) == CatchHeart(s, h)
  {
  }

  /** catchHeart keeps the invariant and keeps counter and caught set equal
      when they were equal. */
  lemma CatchHeartPreservesInv(s: State, h: HeartId)
    requires Inv(s)
    ensures Inv(CatchHeart(s, h))
    ensures s.caughtHearts == |s.caught| ==> CatchHeart(s, h).caughtHearts == |CatchHeart(s, h).caught|
  {
  }

  /** However many listeners call catchHeart for one click, the effect is that
      of one call: the per-heart guard absorbs the duplicates. */
  lemma {:induction false} CatchRepeatedIsOnce(s: State, h: HeartId, k: nat)
    requires k >= 1
    ensures CatchRepeated(s, h, k) == CatchHeart(s, h)
    decreases k
  {
    if k > 1 {
      CatchRepeatedIsOnce(s, h, k - 1);
      CatchHeartIdempotent(s, h);
    }
  }

  /** A click on a heart of a proposal screen that has been set up acts like
      one call of catchHeart. */
  lemma HeartClickIsCatch(s: State, h: HeartId)
    requires s.listeners >= 1
    ensures HeartClick(s, h) == CatchHeart(s, h)
  {
    CatchRepeatedIsOnce(s, h, s.listeners);
  }

  lemma {:induction false} ClickSeqIsCatchSeq(s: State, hs: seq<HeartId>)
    requires s.listeners >= 1
    ensures ClickSeq(s, hs) == CatchSeq(s, hs)
    decreases |hs|
  {
    if hs != [] {
      HeartClickIsCatch(s, hs[0]);
      ClickSeqIsCatchSeq(CatchHeart(s, hs[0]), hs[1..]);
    }
  }

  /** The fields the heart game does not touch are equal in s and t. */
  predicate SameOutsideGame(s: State, t: State)
  {
    && t.screenCount == s.screenCount
    && t.currentScreen == s.currentScreen
    && t.musicEnabled == s.musicEnabled
    && t.listeners == s.listeners
    && t.decorations == s.decorations
  }

  lemma HeartsOfCons(hs: seq<HeartId>)
    requires hs != []
    ensures HeartsOf(hs) == {hs[0]} + HeartsOf(hs[1..])
  {
  }

  /** The caught set grows by the hearts of hs, the counter keeps matching
      it, and the fields outside the game are untouched. */
  lemma {:induction false} CatchSeqCounter(s: State, hs: seq<HeartId>)
    requires s.caughtHearts == |s.caught|
    ensures var t := CatchSeq(s, hs);
      && t.caught == s.caught + HeartsOf(hs)
      && t.caughtHearts == |t.caught|
      && SameOutsideGame(s, t)
    decreases |hs|
  {
    if hs == [] {
      assert HeartsOf(hs) == {};
    } else {
      HeartsOfCons(hs);
      CatchSeqCounter(CatchHeart(s, hs[0]), hs[1..]);
    }
  }

  /** The celebration is scheduled once if the run completes the set of
      hearts starting from an incomplete one, and never otherwise. */
  lemma {:induction false} CatchSeqPending(s: State, hs: seq<HeartId>)
    requires s.caughtHearts == |s.caught|
    ensures var t := CatchSeq(s, hs);
      t.pending == s.pending +
        (if s.caughtHearts < TotalHearts && t.caughtHearts == TotalHearts then [CelebrateYesTimer] else [])
    decreases |hs|
  {
    if hs != [] {
      var h := hs[0];
      var s1 := CatchHeart(s, h);
      var t := CatchSeq(s1, hs[1..]);
      CatchSeqPending(s1, hs[1..]);
      CatchSeqCounter(s1, hs[1..]);
      if h !in s.caught {
        CatchHeartFresh(s, h);
        CaughtBound(s1.caught);
        CaughtBound(t.caught);
        SubsetSize(s1.caught, t.caught);
      }
    }
  }

  /** One heart sound is logged per newly caught heart while music is on. */
  lemma {:induction false} CatchSeqSounds(s: State, hs: seq<HeartId>)
    requires s.caughtHearts == |s.caught|
    ensures var t := CatchSeq(s, hs);
      && t.caughtHearts >= s.caughtHearts
      && t.sounds == s.sounds + (if s.musicEnabled then Repeat("heart", t.caughtHearts - s.caughtHearts) else [])
    decreases |hs|
  {
    if hs != [] {
      var h := hs[0];
      var s1 := CatchHeart(s, h);
      var t := CatchSeq(s1, hs[1..]);
      CatchSeqSounds(s1, hs[1..]);
      if h !in s.caught {
        CatchHeartFresh(s, h);
        if s.musicEnabled {
          RepeatCons("heart", t.caughtHearts - s1.caughtHearts);
          assert t.sounds == s.sounds + ["heart"] + Repeat("heart", t.caughtHearts - s1.caughtHearts);
        }
      }
    }
  }

  /** Catching the hearts of hs in any order, with any duplicates, starting
      from a counter that matches the caught set: the caught set grows by the
      hearts of hs, the counter keeps matching it, one heart sound is logged
      per newly caught heart, and the celebration is scheduled once if this
      run completes the set and never otherwise. Nothing else changes. */
  lemma CatchSeqEffect(s: State, hs: seq<HeartId>)
    requires s.caughtHearts == |s.caught|
    ensures var t := CatchSeq(s, hs);
      && t.caught == s.caught + HeartsOf(hs)
      && t.caughtHearts == |t.caught|
      && t.caughtHearts >= s.caughtHearts
      && t.sounds == s.sounds + (if s.musicEnabled then Repeat("heart", t.caughtHearts - s.caughtHearts) else [])
      && t.pending == s.pending +
           (if s.caughtHearts < TotalHearts && t.caughtHearts == TotalHearts then [CelebrateYesTimer] else [])
      && SameOutsideGame(s, t)
  {
    CatchSeqCounter(s, hs);
    CatchSeqPending(s, hs);
    CatchSeqSounds(s, hs);
  }

  // ---------------------------------------------------------------------------
  // Screen transitions

  /** showScreen(i) makes i the current screen, keeps the invariant, and runs
      the entry action for i: the envelope timer for 0, the reset of the heart
      game for 2, the celebration decorations for 3. */
  lemma ShowScreenEffect(s: State, i: nat)
    requires Inv(s) && i < s.screenCount
    ensures var t := ShowScreen(s, i);
      && Inv(t)
      && t.currentScreen == i
      && t.musicEnabled == s.musicEnabled && t.sounds == s.sounds
      && t.pending == s.pending + (if i == OpeningScreen then [EnvelopeTimer] else [])
      && (i == ProposalScreen ==> t.caughtHearts == 0 && t.caught == {} && t.listeners == s.listeners + 1)
      && (i != ProposalScreen ==> t.caughtHearts == s.caughtHearts && t.caught == s.caught && t.listeners == s.listeners)
      && t.decorations == s.decorations +
           (if i == ProposalScreen then [FloatingHearts]
            else if i == CelebrationScreen then [Confetti, Balloons] else [])
  {
  }

  /** The opening-screen click moves to screen 1 exactly when screen 0 is the
      current one, and changes nothing on any other screen. */
  lemma OpeningClickGuard(s: State)
    requires Inv(s)
    ensures var t := OpeningClick(s);
      && (s.currentScreen == OpeningScreen ==>
            t.currentScreen == DateScreen
            && t.sounds == s.sounds + (if s.musicEnabled then ["select"] else []))
      && (s.currentScreen != OpeningScreen ==> t == s)
      && (t.currentScreen == DateScreen <==> s.currentScreen in {OpeningScreen, DateScreen})
  {
  }

  /** The continue button always reaches the proposal screen with a fresh
      heart game. */
  lemma ContinueClickEntersProposal(s: State)
    requires Inv(s)
    ensures var t := ContinueClick(s);
      && Inv(t)
      && t.currentScreen == ProposalScreen
      && t.caughtHearts == 0 && t.caught == {}
      && t.pending == s.pending
      && t.sounds == s.sounds + (if s.musicEnabled then ["select"] else [])
  {
  }

  /** One round of the heart game, from the moment the proposal screen is
      entered: whatever the order of the catches and however often a heart is
      caught again, the counter equals the number of distinct hearts caught and
      the celebration is scheduled once if every heart was caught, else never. */
  lemma HeartGameCelebratesOnce(s: State, hs: seq<HeartId>)
    requires Inv(s)
    ensures var t := ClickSeq(ShowScreen(s, ProposalScreen), hs);
      && t.caught == HeartsOf(hs)
      && t.caughtHearts == |HeartsOf(hs)| <= TotalHearts
      && t.currentScreen == ProposalScreen
      && t.pending == s.pending + (if HeartsOf(hs) == AllHearts then [CelebrateYesTimer] else [])
  {
    var e := ShowScreen(s, ProposalScreen);
    ClickSeqIsCatchSeq(e, hs);
    CatchSeqEffect(e, hs);
    CaughtBound(HeartsOf(hs));
  }

  /** Whatever else is queued behind it, the celebration timer, fired, plays
      the celebration sound when music is on and queues screen 3 behind the
      rest; the current screen does not change yet. */
  lemma CelebrateYesFires(s: State, rest: seq<Action>)
    requires Inv(s) && s.pending == [CelebrateYesTimer] + rest
    ensures var t := FirePending(s);
      && Inv(t)
      && t.pending == rest + [ShowScreenTimer(CelebrationScreen)]
      && t.sounds == s.sounds + (if s.musicEnabled then ["celebration"] else [])
      && t.(pending := s.pending, sounds := s.sounds) == s
  {
    assert s.pending[1..] == rest;
  }

  /** Fired, the scheduled celebration plays its sound and schedules screen 3;
      fired in turn, that makes the celebration screen the current one. */
  lemma CelebrationShowsFinalScreen(s: State)
    requires Inv(s) && s.pending == [CelebrateYesTimer]
    ensures var t := FirePending(FirePending(s));
      && Inv(t)
      && t.currentScreen == CelebrationScreen
      && t.pending == []
      && t.sounds == s.sounds + (if s.musicEnabled then ["celebration"] else [])
      && t.decorations == s.decorations + [Confetti, Balloons]
  {
  }

  /** With no timer outstanding, entering the proposal screen, catching every
      heart in some order and letting the two timers fire ends on the
      celebration screen. */
  lemma HeartGameEndsCelebrating(s: State, hs: seq<HeartId>)
    requires Inv(s) && s.pending == [] && HeartsOf(hs) == AllHearts
    ensures var t := ClickSeq(ShowScreen(s, ProposalScreen), hs);
      && PendingValid(t) && PendingValid(FirePending(t))
      && FirePending(FirePending(t)).currentScreen == CelebrationScreen
  {
    var e := ShowScreen(s, ProposalScreen);
    HeartGameCelebratesOnce(s, hs);
    ShowScreenEffect(s, ProposalScreen);
    ClickSeqIsCatchSeq(e, hs);
    var t := ClickSeq(e, hs);
    assert Inv(t) by {
      CatchSeqEffect(e, hs);
    }
    CelebrationShowsFinalScreen(t);
  }

  // ---------------------------------------------------------------------------
  // Restart, music, resize

  /** restartExperience always ends on screen 0 with the counter at 0 and the
      music flag untouched; the caught marks are left as they were. */
  lemma RestartEffect(s: State)
    requires Inv(s)
    ensures var t := Restart(s);
      && Inv(t)
      && t.currentScreen == OpeningScreen
      && t.caughtHearts == 0
      && t.musicEnabled == s.musicEnabled
      && t.caught == s.caught
      && t.pending == s.pending + [EnvelopeTimer]
      && t.sounds == s.sounds + (if s.musicEnabled then ["select"] else [])
  {
  }

  /** Restart cancels no timer: a celebration still queued when the user
      restarts fires afterwards and, with its own follow-up, moves the page
      from the opening screen to the celebration screen. */
  lemma RestartKeepsQueuedCelebration(s: State)
    requires Inv(s) && s.pending == [CelebrateYesTimer]
    ensures var r := Restart(s);
      && r.currentScreen == OpeningScreen
      && r.pending == [CelebrateYesTimer, EnvelopeTimer]
      && FirePending(FirePending(FirePending(r))).currentScreen == CelebrationScreen
  {
  }

  /** Whatever else is queued behind it, a celebration at the head of the
      queue when the user restarts is the first callback to fire afterwards;
      its screen-3 follow-up is queued behind the envelope timer restart adds. */
  lemma RestartCelebrationFiresFirst(s: State, rest: seq<Action>)
    requires Inv(s) && s.pending == [CelebrateYesTimer] + rest
    ensures var r := Restart(s);
      && r.currentScreen == OpeningScreen
      && r.pending == [CelebrateYesTimer] + rest + [EnvelopeTimer]
      && PendingValid(r)
      && var f := FirePending(r);
        && f.currentScreen == OpeningScreen
        && f.pending == rest + [EnvelopeTimer, ShowScreenTimer(CelebrationScreen)]
        && f.caughtHearts == 0
        && f.caught == s.caught
        && f.musicEnabled == s.musicEnabled
        && f.sounds == s.sounds + (if s.musicEnabled then ["select", "celebration"] else [])
  {
    RestartEffect(s);
    assert Restart(s).pending[1..] == rest + [EnvelopeTimer];
  }

  /** toggleMusic negates the flag, so two toggles restore it; of the two tap
      sounds exactly one is logged, the one played while music is on. */
  lemma ToggleMusicTwice(s: State)
    ensures ToggleMusic(s).musicEnabled == !s.musicEnabled
    ensures var t := ToggleMusic(ToggleMusic(s));
      && t.musicEnabled == s.musicEnabled
      && t.sounds == s.sounds + ["tap"]
      && t.(sounds := s.sounds) == s
  {
  }

  /** playSound logs the name exactly when music is on and the name is a key
      of the sound table; nothing else ever changes. */
  lemma PlaySoundGuard(s: State, name: string)
    ensures var t := PlaySound(s, name);
      && (s.musicEnabled && name in KnownSounds ==> t.sounds == s.sounds + [name])
      && (!s.musicEnabled || name !in KnownSounds ==> t == s)
      && t.(sounds := s.sounds) == s
  {
  }

  /** The screenshot button logs the tap sound when music is on and changes
      nothing else. */
  lemma ScreenshotEffect(s: State)
    ensures var t := Screenshot(s);
      && t.sounds == s.sounds + (if s.musicEnabled then ["tap"] else [])
      && t.(sounds := s.sounds) == s
  {
  }

  /** The resize handler regenerates decorations on screens 2 and 3 only and
      changes no other state. */
  lemma ResizeEffect(s: State)
    ensures var t := Resize(s);
      && t.(decorations := s.decorations) == s
      && (t.decorations != s.decorations <==> s.currentScreen in {ProposalScreen, CelebrationScreen})
  {
  }

  // ---------------------------------------------------------------------------
  // Runs of events

  lemma StepPreservesInv(s: State, e: Event)
    requires Inv(s)
    ensures Inv(Step(s, e))
  {
    match e
    case HeartClicked(h) =>
      if s.listeners >= 1 {
        HeartClickIsCatch(s, h);
        CatchHeartPreservesInv(s, h);
      }
    case _ =>
  }

  /** The state after a run of events; the invariant holds all along. */
  function Run(s: State, es: seq<Event>): (t: State)
    requires Inv(s)
    ensures Inv(t)
    decreases |es|
  {
    if es == [] then s
    else
      StepPreservesInv(s, es[0]);
      Run(Step(s, es[0]), es[1..])
  }

  lemma InitialIsValid(n: nat)
    requires n >= MinScreens
    ensures Inv(Initial(n))
    ensures Initial(n).currentScreen == OpeningScreen && Initial(n).musicEnabled
    ensures Initial(n).pending == [EnvelopeTimer, MusicStartTimer]
  {
  }

  /** From every state reachable from start-up, the counter is bounded and
      restart returns to the opening screen with a zero counter. */
  lemma ReachableStates(n: nat, es: seq<Event>)
    requires n >= MinScreens
    ensures var s := Run(Initial(n), es);
      && s.caughtHearts <= TotalHearts
      && (s.currentScreen == ProposalScreen ==> s.caughtHearts == |s.caught|)
      && 0 <= Progress(s) <= 100
      && Restart(s).currentScreen == OpeningScreen
      && Restart(s).caughtHearts == 0
      && Restart(s).musicEnabled == s.musicEnabled
  {
    InitialIsValid(n);
    var s := Run(Initial(n), es);
    CounterBounds(s);
  }
}
