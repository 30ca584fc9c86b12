/** The guard flags of the animated 3D logo (src/components/Logo3D.tsx). The
    phase arrives from the parent as a string; three ref flags and the live gsap
    timelines decide when each one-shot animation starts and when each completion
    callback fires. Positions, scales and easing are not modelled; the logo's
    idle rotation about y is. */
module Logo3D {

  const SplashPhase: string := "splash"
  const TransitioningPhase: string := "transitioning"
  const CompletedPhase: string := "completed"

  /** The two callbacks the component invokes on its parent. */
  datatype Callback = InitialAnimationComplete | TransitionComplete

  /** Ref flags, live timelines, the logo's y rotation and every callback fired so far. */
  datatype LogoState = LogoState(
    animating: bool,
    completedFirst: bool,
    completedSecond: bool,
    splashLive: bool,
    transitionLive: bool,
    rotationY: real,
    fired: seq<Callback>)

  /** What React and gsap can deliver to the component. `attached` below says
      whether `logoRef.current` is bound. */
  datatype LogoEvent =
    | MountReset                       // the scene/camera effect
    | SplashEffect(phase: string)      // phase-1 effect (re)run, after cleanup
    | SplashTimelineDone               // onComplete of the phase-1 timeline
    | TransitionEffect(phase: string)  // phase-2 effect (re)run, after cleanup
    | TransitionTimelineDone           // onComplete of the phase-2 timeline
    | FrameTick(phase: string, delta: real)  // one useFrame callback

  function Unmounted(): LogoState
  {
    LogoState(false, false, false, false, false, 0.0, [])
  }

  predicate SplashMayStart(attached: bool, phase: string, completedFirst: bool)
  {
    attached && phase == SplashPhase && !completedFirst
  }

  predicate TransitionMayStart(attached: bool, phase: string, completedFirst: bool, completedSecond: bool)
  {
    attached && phase == TransitioningPhase && !completedSecond && completedFirst
  }

  predicate ResnapRuns(attached: bool, phase: string, completedSecond: bool)
  {
    attached && phase == CompletedPhase && completedSecond
  }

  /** Idle rotation per frame: none while a one-shot animation runs. */
  function IdleRotationStep(attached: bool, animating: bool, phase: string, delta: real): (r: real)
    ensures (!attached || animating) ==> r == 0.0
    ensures attached && !animating && phase == CompletedPhase ==> r == 1.2 * delta
    ensures attached && !animating && phase != CompletedPhase ==> r == 0.3 * delta
  {
    if attached && !animating then
      if phase == CompletedPhase then delta * 1.2 else delta * 0.3
    else 0.0
  }

  function Step(s: LogoState, e: LogoEvent, attached: bool): LogoState
  {
    match e
    case MountReset =>
      s.(animating := false, completedFirst := false, completedSecond := false,
         rotationY := if attached then 0.0 else s.rotationY)
    case SplashEffect(phase) =>
      var cleaned := s.(splashLive := false);
      if SplashMayStart(attached, phase, s.completedFirst)
      then cleaned.(animating := true, splashLive := true)
      else cleaned
    case SplashTimelineDone =>
      if s.splashLive
      then s.(completedFirst := true, animating := false, splashLive := false,
              fired := s.fired + [InitialAnimationComplete])
      else s
    case TransitionEffect(phase) =>
      var cleaned := s.(transitionLive := false);
      if TransitionMayStart(attached, phase, s.completedFirst, s.completedSecond)
      then cleaned.(animating := true, transitionLive := true)
      else cleaned
    case TransitionTimelineDone =>
      if s.transitionLive
      then s.(completedSecond := true, animating := false, transitionLive := false,
              fired := s.fired + [TransitionComplete])
      else s
    case FrameTick(phase, delta) =>
      s.(rotationY := s.rotationY + IdleRotationStep(attached, s.animating, phase, delta))
  }

  function Run(s: LogoState, es: seq<LogoEvent>, attached: bool): LogoState
    decreases |es|
  {
    if es == [] then s else Run(Step(s, es[0], attached), es[1..], attached)
  }

  /** Every transition callback comes after some initial-animation callback. */
  ghost predicate CallbacksOrdered(fired: seq<Callback>)
  {
    forall j :: 0 <= j < |fired| && fired[j] == TransitionComplete ==> InitialAnimationComplete in fired[..j]
  }

  ghost predicate Inv(s: LogoState)
  {
    && (s.splashLive ==> !s.completedFirst)
    && (s.transitionLive ==> !s.completedSecond && InitialAnimationComplete in s.fired)
    && (s.completedFirst ==> InitialAnimationComplete in s.fired)
    && (s.completedSecond ==> TransitionComplete in s.fired)
    && CallbacksOrdered(s.fired)
  }

  lemma OrderedExtend(fired: seq<Callback>, c: Callback)
    requires CallbacksOrdered(fired)
    requires c == TransitionComplete ==> InitialAnimationComplete in fired
    ensures CallbacksOrdered(fired + [c])
  {
    var f := fired + [c];
    forall j | 0 <= j < |f| && f[j] == TransitionComplete
      ensures InitialAnimationComplete in f[..j]
    {
      if j < |fired| {
        assert f[..j] == fired[..j];
      } else {
        assert f[..j] == fired;
      }
    }
  }

  lemma StepKeepsInv(s: LogoState, e: LogoEvent, attached: bool)
    requires Inv(s)
    ensures Inv(Step(s, e, attached))
    ensures Step(s, e, attached).fired[..|s.fired|] == s.fired
  {
    match e
    case SplashTimelineDone =>
      if s.splashLive { OrderedExtend(s.fired, InitialAnimationComplete); }
    case TransitionTimelineDone =>
      if s.transitionLive { OrderedExtend(s.fired, TransitionComplete); }
    case _ =>
  }

  /** The mount effect clears the three flags, whatever their values were. */
  lemma MountResetsFlags(s: LogoState, attached: bool)
    ensures var t := Step(s, MountReset, attached);
      !t.animating && !t.completedFirst && !t.completedSecond && t.fired == s.fired
  {
  }

  /** The splash spin starts exactly when its guard holds, and then marks the logo animating;
      its completion sets the first flag, clears `animating` and fires the first callback. */
  lemma SplashGuard(s: LogoState, phase: string, attached: bool)
    ensures Step(s, SplashEffect(phase), attached).splashLive <==> SplashMayStart(attached, phase, s.completedFirst)
    ensures SplashMayStart(attached, phase, s.completedFirst) ==> Step(s, SplashEffect(phase), attached).animating
    ensures !SplashMayStart(attached, phase, s.completedFirst) ==>
              Step(s, SplashEffect(phase), attached) == s.(splashLive := false)
    ensures s.splashLive ==>
              (Step(s, SplashTimelineDone, attached)
               == s.(completedFirst := true, animating := false, splashLive := false,
                     fired := s.fired + [InitialAnimationComplete]))
  {
  }

  /** The move to the header starts exactly when its guard holds; its completion
      sets the second flag and fires the transition callback. */
  lemma TransitionGuard(s: LogoState, phase: string, attached: bool)
    ensures Step(s, TransitionEffect(phase), attached).transitionLive
            <==> TransitionMayStart(attached, phase, s.completedFirst, s.completedSecond)
    ensures TransitionMayStart(attached, phase, s.completedFirst, s.completedSecond) ==>
              s.completedFirst && Step(s, TransitionEffect(phase), attached).animating
    ensures s.transitionLive ==>
              (Step(s, TransitionTimelineDone, attached)
               == s.(completedSecond := true, animating := false, transitionLive := false,
                     fired := s.fired + [TransitionComplete]))
  {
  }

  /** The invariant holds along every run, and callbacks are only ever appended. */
  lemma {:induction false} RunKeepsInv(s: LogoState, es: seq<LogoEvent>, attached: bool)
    requires Inv(s)
    ensures Inv(Run(s, es, attached))
    ensures |Run(s, es, attached).fired| >= |s.fired|
    ensures Run(s, es, attached).fired[..|s.fired|] == s.fired
    decreases |es|
  {
    if es != [] {
      var s' := Step(s, es[0], attached);
      StepKeepsInv(s, es[0], attached);
      RunKeepsInv(s', es[1..], attached);
      assert Run(s, es, attached) == Run(s', es[1..], attached);
      var f := Run(s, es, attached).fired;
      assert f[..|s.fired|] == f[..|s'.fired|][..|s.fired|];
    }
  }

  /** From mount on, `onTransitionComplete` never fires before `onInitialAnimationComplete`
      has fired, whatever order React and gsap deliver events in. */
  lemma TransitionNeverFirst(es: seq<LogoEvent>, attached: bool)
    ensures CallbacksOrdered(Run(Unmounted(), es, attached).fired)
  {
    RunKeepsInv(Unmounted(), es, attached);
  }

  /** From mount on, the header re-snap on resize runs only once `onTransitionComplete`
      (and so `onInitialAnimationComplete` before it) has been reported. */
  lemma ResnapOnlyAfterTransition(es: seq<LogoEvent>, attached: bool, phase: string)
    ensures var s := Run(Unmounted(), es, attached);
      ResnapRuns(attached, phase, s.completedSecond) ==>
        TransitionComplete in s.fired && InitialAnimationComplete in s.fired
  {
    RunKeepsInv(Unmounted(), es, attached);
    var s := Run(Unmounted(), es, attached);
    if s.completedSecond {
      var j :| 0 <= j < |s.fired| && s.fired[j] == TransitionComplete;
      assert InitialAnimationComplete in s.fired[..j];
    }
  }

  function Count(fired: seq<Callback>, c: Callback): nat
  {
    if fired == [] then 0
    else (if fired[|fired| - 1] == c then 1 else 0) + Count(fired[..|fired| - 1], c)
  }

  /** The budget of completions still allowed before the next reset never grows
      on a step that is not a reset. */
  function Budget(s: LogoState, c: Callback): nat
  {
    Count(s.fired, c) + (if (if c == InitialAnimationComplete then s.completedFirst else s.completedSecond) then 0 else 1)
  }

  lemma StepBudget(s: LogoState, e: LogoEvent, attached: bool)
    requires Inv(s) && e != MountReset
    ensures Budget(Step(s, e, attached), InitialAnimationComplete) <= Budget(s, InitialAnimationComplete)
    ensures Budget(Step(s, e, attached), TransitionComplete) <= Budget(s, TransitionComplete)
    ensures s.completedFirst ==> Step(s, e, attached).completedFirst
    ensures s.completedSecond ==> Step(s, e, attached).completedSecond
  {
    var s' := Step(s, e, attached);
    if s'.fired != s.fired {
      assert s'.fired[..|s'.fired| - 1] == s.fired;
    }
  }

  /** Between two mount resets each completion callback fires at most once, and
      not at all once its phase is already completed. */
  lemma {:induction false} OncePerMount(s: LogoState, es: seq<LogoEvent>, attached: bool)
    requires Inv(s)
    requires forall k :: 0 <= k < |es| ==> es[k] != MountReset
    ensures Count(Run(s, es, attached).fired, InitialAnimationComplete)
            <= Count(s.fired, InitialAnimationComplete) + (if s.completedFirst then 0 else 1)
    ensures Count(Run(s, es, attached).fired, TransitionComplete)
            <= Count(s.fired, TransitionComplete) + (if s.completedSecond then 0 else 1)
    decreases |es|
  {
    BudgetAlongRun(s, es, attached);
  }

  lemma {:induction false} BudgetAlongRun(s: LogoState, es: seq<LogoEvent>, attached: bool)
    requires Inv(s)
    requires forall k :: 0 <= k < |es| ==> es[k] != MountReset
    ensures Budget(Run(s, es, attached), InitialAnimationComplete) <= Budget(s, InitialAnimationComplete)
    ensures Budget(Run(s, es, attached), TransitionComplete) <= Budget(s, TransitionComplete)
    decreases |es|
  {
    if es != [] {
      var s' := Step(s, es[0], attached);
      StepKeepsInv(s, es[0], attached);
      StepBudget(s, es[0], attached);
      BudgetAlongRun(s', es[1..], attached);
      assert Run(s, es, attached) == Run(s', es[1..], attached);
    }
  }

  /** One mounted logo. */
  class LogoScene {
    const attached: bool
    var animating: bool
    var completedFirst: bool
    var completedSecond: bool
    var splashLive: bool
    var transitionLive: bool
    var rotationY: real
    var fired: seq<Callback>

    function State(): LogoState
      reads this
    {
      LogoState(animating, completedFirst, completedSecond, splashLive, transitionLive, rotationY, fired)
    }

    ghost predicate Valid()
      reads this
    {
      Inv(State())
    }

    /** `useRef(false)` for each flag; nothing has run yet. */
    constructor (attached: bool)
      ensures this.attached == attached && State() == Unmounted() && Valid()
    {
      this.attached := attached;
      animating, completedFirst, completedSecond := false, false, false;
      splashLive, transitionLive := false, false;
      rotationY := 0.0;
      fired := [];
    }

    /** The scene/camera effect: flags reset, rotation reset when the logo is bound. */
    method MountEffect()
      requires Valid()
      modifies this
      ensures Valid() && State() == Step(old(State()), MountReset, attached)
    {
      StepKeepsInv(State(), MountReset, attached);
      animating := false;
      completedFirst := false;
      completedSecond := false;
      if attached {
        rotationY := 0.0;
      }
    }

    /** Phase-1 effect: the previous run's timeline is killed, then the spin starts
        only in phase "splash" before the first phase has completed. */
    method SplashEffectRun(phase: string)
      requires Valid()
      modifies this
      ensures Valid() && State() == Step(old(State()), SplashEffect(phase), attached)
    {
      StepKeepsInv(State(), SplashEffect(phase), attached);
      splashLive := false;
      if !attached || phase != SplashPhase || completedFirst {
        return;
      }
      animating := true;
      splashLive := true;
    }

    method SplashComplete()
      requires Valid()
      modifies this
      ensures Valid() && State() == Step(old(State()), SplashTimelineDone, attached)
    {
      StepKeepsInv(State(), SplashTimelineDone, attached);
      if splashLive {
        completedFirst := true;
        animating := false;
        splashLive := false;
        fired := fired + [InitialAnimationComplete];
      }
    }

    /** Phase-2 effect: starts only in "transitioning", after phase 1 and before phase 2 completed. */
    method TransitionEffectRun(phase: string)
      requires Valid()
      modifies this
      ensures Valid() && State() == Step(old(State()), TransitionEffect(phase), attached)
    {
      StepKeepsInv(State(), TransitionEffect(phase), attached);
      transitionLive := false;
      if !attached || phase != TransitioningPhase || completedSecond || !completedFirst {
        return;
      }
      animating := true;
      transitionLive := true;
    }

    method TransitionTimelineComplete()
      requires Valid()
      modifies this
      ensures Valid() && State() == Step(old(State()), TransitionTimelineDone, attached)
    {
      StepKeepsInv(State(), TransitionTimelineDone, attached);
      if transitionLive {
        completedSecond := true;
        animating := false;
        transitionLive := false;
        fired := fired + [TransitionComplete];
      }
    }

    /** The resize effect: the header re-snap runs only in "completed" after phase 2. */
    method ResizeEffect(phase: string) returns (resnapped: bool)
      requires Valid()
      ensures resnapped == ResnapRuns(attached, phase, completedSecond)
      ensures resnapped ==> phase == CompletedPhase && TransitionComplete in fired
    {
      resnapped := attached && phase == CompletedPhase && completedSecond;
    }

    method Frame(phase: string, delta: real)
      requires Valid()
      modifies this
      ensures Valid() && State() == Step(old(State()), FrameTick(phase, delta), attached)
    {
      StepKeepsInv(State(), FrameTick(phase, delta), attached);
      if attached && !animating {
        if phase == CompletedPhase {
          rotationY := rotationY + delta * 1.2;
        } else {
          rotationY := rotationY + delta * 0.3;
        }
      }
    }
  }
}
