/**
 * The module-level state of script.js as one object. Its fields are the
 * page's global variables, the per-heart `caught` marks, the screens'
 * `active` flags, the registered heart listeners, the timer queue and the
 * logs of sounds and decorations. Every handler is a method, proved to move
 * the object exactly as the matching function of ScreenFlow moves a State.
 */
module Controller {
  import opened ScreenFlow
  import opened ScreenFlowProperties

  class ScreenController {
    var currentScreen: nat
    var musicEnabled: bool
    var caughtHearts: nat
    var caught: set<HeartId>
    var listeners: nat
    var pending: seq<Action>
    var sounds: seq<string>
    var decorations: seq<Decoration>
    /** One flag per `.screen` element: whether it has the `active` class. */
    const active: array<bool>

    /** The abstract state the fields stand for. */
    function Model(): State
      reads this
    {
      State(active.Length, currentScreen, musicEnabled, caughtHearts, caught,
            listeners, pending, sounds, decorations)
    }

    /** Screen i is the only one with the `active` class. */
    ghost predicate OnlyActive(i: nat)
      reads this, active
    {
      forall j :: 0 <= j < active.Length ==> active[j] == (j == i)
    }

    ghost predicate Valid()
      reads this, active
    {
      Inv(Model()) && OnlyActive(currentScreen)
    }

    /** The `DOMContentLoaded` handler, on a page with screenCount screens. */
    constructor (screenCount: nat)
      requires screenCount >= MinScreens
      ensures Valid() && fresh(active)
      ensures Model() == Initial(screenCount)
    {
      active := new bool[screenCount];
      currentScreen, musicEnabled, caughtHearts, caught := OpeningScreen, true, 0, {};
      listeners, pending, sounds, decorations := 0, [], [], [];
      new;
      ShowScreen(OpeningScreen);
      pending := pending + [MusicStartTimer];
    }

    /** `showScreen(i)`: clear every screen's flag, set screen i's, then run
        the entry action of screen i. */
    method ShowScreen(i: nat)
      requires Inv(Model()) && i < active.Length
      modifies this, active
      ensures Valid() && OnlyActive(i)
      ensures Model() == ScreenFlow.ShowScreen(old(Model()), i)
    {
      for j := 0 to active.Length
        invariant forall k :: 0 <= k < j ==> !active[k]
        modifies active
      {
        active[j] := false;
      }
      active[i] := true;
      currentScreen := i;
      if i == OpeningScreen {
        pending := pending + [EnvelopeTimer];
      } else if i == ProposalScreen {
        SetupProposal();
      } else if i == CelebrationScreen {
        StartCelebration();
      }
      ShowScreenEffect(old(Model()), i);
    }

    /** `setupProposal`: zero the counter, take the caught mark off every
        heart, add one click listener per heart, regenerate floating hearts. */
    method SetupProposal()
      modifies this
      ensures Model() == ScreenFlow.SetupProposal(old(Model()))
    {
      caughtHearts := 0;
      for h := 0 to TotalHearts
        invariant forall x: HeartId :: x in caught <==> x in old(caught) && x >= h
        invariant Model() == old(Model()).(caught := caught, caughtHearts := 0)
      {
        var heart: HeartId := h;
        caught := caught - {heart};
      }
      assert caught == {} by {
        forall x: HeartId ensures x !in caught { }
      }
      listeners := listeners + 1;
      decorations := decorations + [FloatingHearts];
    }

    /** `startCelebration`: regenerate confetti and balloons. */
    method StartCelebration()
      modifies this
      ensures Model() == ScreenFlow.StartCelebration(old(Model()))
    {
      decorations := decorations + [Confetti, Balloons];
    }

    /** The click handler of the opening screen. */
    method OpeningClick()
      requires Valid()
      modifies this, active
      ensures Valid()
      ensures Model() == ScreenFlow.OpeningClick(old(Model()))
    {
      if currentScreen == OpeningScreen {
        ShowScreen(DateScreen);
        PlaySound("select");
      }
    }

    /** The click handler of the continue button. */
    method ContinueClick()
      requires Valid()
      modifies this, active
      ensures Valid()
      ensures Model() == ScreenFlow.ContinueClick(old(Model()))
    {
      ShowScreen(ProposalScreen);
      PlaySound("select");
    }

    /** `catchHeart(h)`. */
    method CatchHeart(h: HeartId)
      requires Valid()
      modifies this
      ensures Valid()
      ensures Model() == ScreenFlow.CatchHeart(old(Model()), h)
    {
      CatchHeartPreservesInv(Model(), h);
      if h in caught {
        return;
      }
      caught := caught + {h};
      caughtHearts := caughtHearts + 1;
      PlaySound("heart");
      if caughtHearts >= TotalHearts {
        pending := pending + [CelebrateYesTimer];
      }
    }

    /** A click on heart h: each of the listeners registered so far calls
        catchHeart(h) in turn. */
    method HeartClick(h: HeartId)
      requires Valid()
      modifies this
      ensures Valid()
      ensures Model() == ScreenFlow.HeartClick(old(Model()), h)
    {
      var n := listeners;
      var k := 0;
      while k < n
        invariant 0 <= k <= n == listeners
        invariant Valid()
        invariant Model() == CatchRepeated(old(Model()), h, k)
      {
        CatchHeart(h);
        k := k + 1;
      }
    }

    /** `celebrateYes`, also the handler of the simple yes button. */
    method CelebrateYes()
      requires Valid()
      modifies this
      ensures Valid()
      ensures Model() == ScreenFlow.CelebrateYes(old(Model()))
    {
      PlaySound("celebration");
      pending := pending + [ShowScreenTimer(CelebrationScreen)];
    }

    /** The oldest scheduled timer fires. */
    method FirePending()
      requires Valid()
      modifies this, active
      ensures Valid()
      ensures Model() == ScreenFlow.FirePending(old(Model()))
    {
      if pending == [] {
        return;
      }
      var a := pending[0];
      assert a in pending;
      pending := pending[1..];
      match a
      case EnvelopeTimer =>
      case MusicStartTimer =>
      case CelebrateYesTimer =>
        CelebrateYes();
      case ShowScreenTimer(i) =>
        ShowScreen(i);
    }

    /** `restartExperience`. */
    method Restart()
      requires Valid()
      modifies this, active
      ensures Valid()
      ensures Model() == ScreenFlow.Restart(old(Model()))
    {
      currentScreen := OpeningScreen;
      caughtHearts := 0;
      ShowScreen(OpeningScreen);
      PlaySound("select");
    }

    /** `toggleMusic`. */
    method ToggleMusic()
      requires Valid()
      modifies this
      ensures Valid()
      ensures Model() == ScreenFlow.ToggleMusic(old(Model()))
    {
      musicEnabled := !musicEnabled;
      PlaySound("tap");
    }

    /** `playSound(name)`. */
    method PlaySound(name: string)
      modifies this
      ensures Model() == ScreenFlow.PlaySound(old(Model()), name)
    {
      if !musicEnabled {
        return;
      }
      if name in KnownSounds {
        sounds := sounds + [name];
      }
    }

    /** `takeScreenshot`, without the message it shows. */
    method Screenshot()
      requires Valid()
      modifies this
      ensures Valid()
      ensures Model() == ScreenFlow.Screenshot(old(Model()))
    {
      PlaySound("tap");
    }

    /** The window resize handler. */
    method Resize()
      requires Valid()
      modifies this
      ensures Valid()
      ensures Model() == ScreenFlow.Resize(old(Model()))
    {
      if currentScreen == ProposalScreen {
        decorations := decorations + [FloatingHearts];
      }
      if currentScreen == CelebrationScreen {
        decorations := decorations + [Confetti];
      }
    }

    /** The progress bar width `updateHeartCounter` sets, in percent. */
    method ProgressPercent() returns (p: int)
      requires Valid()
      ensures 0 <= p <= 100
      ensures p * TotalHearts == caughtHearts * 100
    {
      CounterBounds(Model());
      p := caughtHearts * 100 / TotalHearts;
    }
  }
}
