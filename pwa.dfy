// The PWA manager: the install prompt it captures and the installed flag,
// driven by browser events and by installApp; and the swipe gesture, whose
// touch listeners record the start and end points and classify the swipe.
// The DOM button, the update banner and service-worker registration are
// outside the model.

module Pwa {
  import opened Common

  /** A captured beforeinstallprompt event. */
  datatype Prompt = Prompt(platforms: seq<string>)

  /** How `prompt()` and `userChoice` settle: the user's outcome, or a
      rejection caught by installApp. */
  datatype Choice = Accepted | Dismissed | Failed

  datatype InstallState = InstallState(deferredPrompt: Option<Prompt>, isInstalled: bool)

  /** What the manager hears: the browser's two events, the standalone check
      at start-up, and a call of installApp with the way the prompt settles. */
  datatype InstallEvent =
    | BeforeInstallPrompt(prompt: Prompt)
    | AppInstalled
    | StandaloneCheck(standalone: bool)
    | InstallApp(choice: Choice)

  /** The state after one event: the installed flag is set by appinstalled
      or a matching standalone check and never cleared; a new prompt
      replaces the captured one, and an accepted installApp with a prompt
      uses it up. */
  function Step(s: InstallState, e: InstallEvent): (r: InstallState)
    ensures r.isInstalled <==> s.isInstalled || e == AppInstalled || e == StandaloneCheck(true)
    ensures e.BeforeInstallPrompt? ==> r.deferredPrompt == Some(e.prompt)
    ensures e == InstallApp(Accepted) ==> r.deferredPrompt == None
    ensures !e.BeforeInstallPrompt? && e != InstallApp(Accepted) ==> r.deferredPrompt == s.deferredPrompt
  {
    match e
    case BeforeInstallPrompt(p) => s.(deferredPrompt := Some(p))
    case AppInstalled => s.(isInstalled := true)
    case StandaloneCheck(standalone) => if standalone then s.(isInstalled := true) else s
    case InstallApp(choice) => if s.deferredPrompt.Some? && choice == Accepted then s.(deferredPrompt := None) else s
  }

  /** What installApp resolves to. */
  function InstallResult(s: InstallState, choice: Choice): (installed: bool)
    ensures installed ==> s.deferredPrompt.Some?
    ensures installed <==> s.deferredPrompt.Some? && choice == Accepted
  {
    if s.deferredPrompt.None? then false else choice == Accepted
  }

  /** installApp: no prompt means false and no change; an accepted prompt
      is used up; a dismissed or failed one stays captured. It never sets the
      installed flag. */
  lemma InstallAppLaws(s: InstallState, choice: Choice)
    ensures s.deferredPrompt.None? ==> Step(s, InstallApp(choice)) == s && !InstallResult(s, choice)
    ensures InstallResult(s, choice) ==> Step(s, InstallApp(choice)).deferredPrompt.None?
    ensures s.deferredPrompt.Some? && choice != Accepted ==> Step(s, InstallApp(choice)) == s
    ensures Step(s, InstallApp(choice)).isInstalled == s.isInstalled
  {
  }

  /** The installed flag changes only on appinstalled or a standalone check,
      and then only from false to true; the prompt changes only on
      beforeinstallprompt or an accepted installApp. */
  lemma {:induction false} StepChanges(s: InstallState, e: InstallEvent)
    ensures Step(s, e).isInstalled != s.isInstalled ==>
              !s.isInstalled && (e == AppInstalled || e == StandaloneCheck(true))
    ensures Step(s, e).deferredPrompt != s.deferredPrompt ==>
              e.BeforeInstallPrompt? || (e == InstallApp(Accepted) && Step(s, e).deferredPrompt.None?)
  {
    match e
    case BeforeInstallPrompt(p) =>
    case AppInstalled =>
    case StandaloneCheck(standalone) =>
    case InstallApp(choice) =>
  }

  /** An event that sets the installed flag. */
  predicate Installs(e: InstallEvent)
  {
    e == AppInstalled || e == StandaloneCheck(true)
  }

  /** The state after a run of events: installed exactly when it was
      installed before or some event of the run installs it. So once
      installed, always installed, and nothing but the browser's two
      signals installs. */
  function Run(s: InstallState, events: seq<InstallEvent>): (r: InstallState)
    ensures r.isInstalled <==> s.isInstalled || exists i :: 0 <= i < |events| && Installs(events[i])
    decreases |events|
  {
    if events == [] then s
    else
      var r := Run(Step(s, events[0]), events[1..]);
      assert forall i :: 1 <= i < |events| ==> events[1..][i - 1] == events[i];
      r
  }

  /** Running one list of events after another is running both. */
  lemma {:induction false} RunAppend(s: InstallState, a: seq<InstallEvent>, b: seq<InstallEvent>)
    ensures Run(s, a + b) == Run(Run(s, a), b)
    decreases |a|
  {
    if a != [] {
      assert (a + b)[0] == a[0] && (a + b)[1..] == a[1..] + b;
      RunAppend(Step(s, a[0]), a[1..], b);
    } else {
      assert a + b == b;
    }
  }

  /** PWAManager. */
  class PWAManager {
    var deferredPrompt: Option<Prompt>
    var isInstalled: bool

    function State(): InstallState
      reads this
    {
      InstallState(deferredPrompt, isInstalled)
    }

    /** `new PWAManager()`: no prompt yet; installed when running
        standalone. */
    constructor (standalone: bool)
      ensures State() == Step(InstallState(None, false), StandaloneCheck(standalone))
    {
      deferredPrompt := None;
      isInstalled := false;
      new;
      CheckInstallStatus(standalone);
    }

    /** The beforeinstallprompt listener: the event is kept for later. */
    method OnBeforeInstallPrompt(e: Prompt)
      modifies this
      ensures State() == Step(old(State()), BeforeInstallPrompt(e))
    {
      deferredPrompt := Some(e);
    }

    /** The appinstalled listener. */
    method OnAppInstalled()
      modifies this
      ensures State() == Step(old(State()), AppInstalled)
    {
      isInstalled := true;
    }

    /** checkInstallStatus: `standalone` is whether the display-mode media
        query matches. */
    method CheckInstallStatus(standalone: bool)
      modifies this
      ensures State() == Step(old(State()), StandaloneCheck(standalone))
    {
      if standalone {
        isInstalled := true;
      }
    }

    /** installApp, with `choice` how the prompt and the user's choice
        settle. */
    method InstallApp(choice: Choice) returns (installed: bool)
      modifies this
      ensures installed == InstallResult(old(State()), choice)
      ensures State() == Step(old(State()), InstallEvent.InstallApp(choice))
    {
      if deferredPrompt.None? {
        return false;
      }
      if choice == Accepted {
        deferredPrompt := None;
        return true;
      }
      installed := false;
    }

    /** isAppInstalled. */
    function IsAppInstalled(): bool
      reads this
    {
      isInstalled
    }

    /** canInstall. */
    function CanInstall(): (r: bool)
      reads this
      ensures r <==> State().deferredPrompt.Some?
    {
      deferredPrompt != None
    }
  }

  // ---------------------------------------------------------------------
  // Swipe gestures

  datatype Direction = Left | Right | Up | Down

  /** Which of the four callbacks were passed. */
  datatype Handlers = Handlers(onLeft: bool, onRight: bool, onUp: bool, onDown: bool)
  {
    predicate Has(d: Direction)
    {
      match d
      case Left => onLeft
      case Right => onRight
      case Up => onUp
      case Down => onDown
    }
  }

  const MinSwipeDistance: real := 50.0

  function RealAbs(x: real): real { if x < 0.0 then -x else x }

  /** handleSwipe: the callback fired for a displacement, if any. */
  function HandleSwipe(dx: real, dy: real, h: Handlers): (r: Option<Direction>)
    ensures r.Some? ==> h.Has(r.value)
    ensures r == Some(Right) <==> RealAbs(dx) > RealAbs(dy) && dx > MinSwipeDistance && h.onRight
    ensures r == Some(Left) <==> RealAbs(dx) > RealAbs(dy) && dx < -MinSwipeDistance && h.onLeft
    ensures r == Some(Down) <==> RealAbs(dx) <= RealAbs(dy) && dy > MinSwipeDistance && h.onDown
    ensures r == Some(Up) <==> RealAbs(dx) <= RealAbs(dy) && dy < -MinSwipeDistance && h.onUp
  {
    if RealAbs(dx) > RealAbs(dy) then
      if RealAbs(dx) > MinSwipeDistance then
        if dx > 0.0 && h.onRight then Some(Right)
        else if dx < 0.0 && h.onLeft then Some(Left)
        else None
      else None
    else if RealAbs(dy) > MinSwipeDistance then
      if dy > 0.0 && h.onDown then Some(Down)
      else if dy < 0.0 && h.onUp then Some(Up)
      else None
    else None
  }

  /** A tie goes to the vertical branch, and a dominant displacement of at
      most 50 fires nothing. */
  lemma {:induction false} SwipeThresholds(dx: real, dy: real, h: Handlers)
    ensures RealAbs(dx) == RealAbs(dy) ==> HandleSwipe(dx, dy, h) != Some(Left) && HandleSwipe(dx, dy, h) != Some(Right)
    ensures (if RealAbs(dx) > RealAbs(dy) then RealAbs(dx) else RealAbs(dy)) <= MinSwipeDistance ==>
              HandleSwipe(dx, dy, h).None?
  {
    if RealAbs(dx) > RealAbs(dy) {
      assert HandleSwipe(dx, dy, h) == Some(Right) || HandleSwipe(dx, dy, h) == Some(Left) || HandleSwipe(dx, dy, h).None?;
    }
  }

  /** The listeners of addSwipeGesture on one element: the points of the
      last touchstart and touchend, and the callbacks fired so far. */
  class SwipeGesture {
    const handlers: Handlers
    var startX: real
    var startY: real
    var endX: real
    var endY: real
    var fired: seq<Direction>

    constructor (handlers: Handlers)
      ensures this.handlers == handlers
      ensures startX == 0.0 && startY == 0.0 && endX == 0.0 && endY == 0.0 && fired == []
    {
      this.handlers := handlers;
      startX, startY, endX, endY := 0.0, 0.0, 0.0, 0.0;
      fired := [];
    }

    /** touchstart at the first touch point. */
    method TouchStart(x: real, y: real)
      modifies this
      ensures startX == x && startY == y
      ensures endX == old(endX) && endY == old(endY) && fired == old(fired)
    {
      startX, startY := x, y;
    }

    /** touchend at the first changed touch, then handleSwipe: at most one
        callback fires. */
    method TouchEnd(x: real, y: real)
      modifies this
      ensures endX == x && endY == y && startX == old(startX) && startY == old(startY)
      ensures var d := HandleSwipe(x - old(startX), y - old(startY), handlers);
              fired == old(fired) + (if d.Some? then [d.value] else [])
    {
      endX, endY := x, y;
      var d := HandleSwipe(endX - startX, endY - startY, handlers);
      if d.Some? {
        fired := fired + [d.value];
      }
    }
  }
}
