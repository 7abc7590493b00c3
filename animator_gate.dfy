/** The engine's animator gating, as a state machine over its two flags.

    `activity_running_` says whether the application is in the foreground and
    `have_surface_` whether an output surface exists. The animator itself is
    reduced to whether it was last started or stopped. Each event yields the
    new gate and the calls it issued, in order. */
module AnimatorGate {
  import opened Basics

  /** The ordered side effects of the gating code: animator calls and the GPU
      continuation posted to the GPU thread. */
  datatype Effect = PostGpuContinuation | AnimatorStart | AnimatorStop | AnimatorRequestFrame

  datatype Gate = Gate(activityRunning: bool, haveSurface: bool, animatorRunning: bool)

  datatype Step = Step(gate: Gate, effects: seq<Effect>)

  /** Both flags are false when the engine is constructed. */
  const Initial := Gate(false, false, false)

  const Paused := "AppLifecycleState.paused"
  const Suspending := "AppLifecycleState.suspending"
  const Resumed := "AppLifecycleState.resumed"
  const Inactive := "AppLifecycleState.inactive"

  /** The animator runs exactly when both flags are set. */
  predicate Consistent(g: Gate) {
    g.animatorRunning <==> g.activityRunning && g.haveSurface
  }

  /** `StartAnimatorIfPossible`: start the animator when both flags are set. */
  function StartAnimatorIfPossible(g: Gate): (s: Step)
    ensures s.gate.activityRunning == g.activityRunning && s.gate.haveSurface == g.haveSurface
    ensures s.gate.animatorRunning == (g.animatorRunning || (g.activityRunning && g.haveSurface))
    ensures AnimatorStart in s.effects <==> g.activityRunning && g.haveSurface
    ensures forall e :: e in s.effects ==> e == AnimatorStart
  {
    if g.activityRunning && g.haveSurface then Step(g.(animatorRunning := true), [AnimatorStart])
    else Step(g, [])
  }

  /** `StopAnimator`: stop the animator unconditionally. */
  function StopAnimator(g: Gate): (s: Step)
    ensures s.gate.activityRunning == g.activityRunning && s.gate.haveSurface == g.haveSurface
    ensures !s.gate.animatorRunning
    ensures AnimatorStop in s.effects && forall e :: e in s.effects ==> e == AnimatorStop
  {
    Step(g.(animatorRunning := false), [AnimatorStop])
  }

  /** `OnOutputSurfaceCreated`: post the GPU continuation, record the surface,
      start the animator if the activity runs, and request a frame when a
      runtime exists. */
  function OnOutputSurfaceCreated(g: Gate, hasRuntime: bool): (s: Step)
    requires Consistent(g)
    ensures s.gate.haveSurface && s.gate.activityRunning == g.activityRunning
    ensures Consistent(s.gate)
    ensures |s.effects| > 0 && s.effects[0] == PostGpuContinuation
    ensures AnimatorStart in s.effects <==> g.activityRunning
    ensures AnimatorStop !in s.effects
    ensures AnimatorRequestFrame in s.effects <==> hasRuntime
  {
    var started := StartAnimatorIfPossible(g.(haveSurface := true));
    Step(started.gate,
         [PostGpuContinuation] + started.effects + (if hasRuntime then [AnimatorRequestFrame] else []))
  }

  /** `OnOutputSurfaceDestroyed`: drop the surface, stop the animator, then
      post the GPU continuation. */
  function OnOutputSurfaceDestroyed(g: Gate): (s: Step)
    ensures !s.gate.haveSurface && !s.gate.animatorRunning && s.gate.activityRunning == g.activityRunning
    ensures Consistent(s.gate)
    ensures AnimatorStop in s.effects && AnimatorStart !in s.effects
    ensures |s.effects| > 0 && s.effects[|s.effects| - 1] == PostGpuContinuation
    ensures AnimatorStop in s.effects[..|s.effects| - 1]
  {
    var stopped := StopAnimator(g.(haveSurface := false));
    Step(stopped.gate, stopped.effects + [PostGpuContinuation])
  }

  /** What a lifecycle state string does to the activity flag. */
  datatype LifecycleAction = Pause | Resume | Ignore

  function ClassifyLifecycle(state: string): (a: LifecycleAction)
    ensures a == Pause <==> state == Paused || state == Suspending
    ensures a == Resume <==> state == Resumed
    ensures state == Inactive ==> a == Ignore
  {
    if state == Paused || state == Suspending then Pause
    else if state == Resumed then Resume
    else Ignore
  }

  /** `HandleLifecyclePlatformMessage` on the gate: paused and suspending clear
      the activity flag and stop the animator; resumed sets it and starts the
      animator if a surface exists; every other string changes nothing. */
  function HandleLifecycle(g: Gate, state: string): (s: Step)
    requires Consistent(g)
    ensures s.gate.haveSurface == g.haveSurface
    ensures Consistent(s.gate)
    ensures (state == Paused || state == Suspending) ==>
              !s.gate.activityRunning && !s.gate.animatorRunning && s.effects == [AnimatorStop]
    ensures state == Resumed ==>
              s.gate.activityRunning && (AnimatorStart in s.effects <==> g.haveSurface) && AnimatorStop !in s.effects
    ensures ClassifyLifecycle(state) == Ignore ==> s == Step(g, [])
  {
    match ClassifyLifecycle(state)
    case Pause => StopAnimator(g.(activityRunning := false))
    case Resume => StartAnimatorIfPossible(g.(activityRunning := true))
    case Ignore => Step(g, [])
  }

  /** The events that reach the gate. */
  datatype Event =
    | SurfaceCreated(hasRuntime: bool)
    | SurfaceDestroyed
    | LifecycleMessage(state: string)

  /** One event. Its contract is the gating discipline: the animator is
      started only with both flags set, and every event that clears a flag
      stops it. */
  function Apply(g: Gate, e: Event): (s: Step)
    requires Consistent(g)
    ensures Consistent(s.gate)
    ensures AnimatorStart in s.effects ==> s.gate.activityRunning && s.gate.haveSurface
    ensures ((g.activityRunning && !s.gate.activityRunning) || (g.haveSurface && !s.gate.haveSurface))
              ==> AnimatorStop in s.effects
  {
    match e
    case SurfaceCreated(hasRuntime) => OnOutputSurfaceCreated(g, hasRuntime)
    case SurfaceDestroyed => OnOutputSurfaceDestroyed(g)
    case LifecycleMessage(state) => HandleLifecycle(g, state)
  }

  /** A run of events from a consistent gate: each event is applied to the
      gate the earlier ones left, and the calls are kept in order. Consistency
      holds after any run. */
  function Run(g: Gate, events: seq<Event>): (s: Step)
    requires Consistent(g)
    ensures Consistent(s.gate)
    decreases |events|
  {
    if events == [] then Step(g, [])
    else
      var before := Run(g, events[..|events| - 1]);
      var last := Apply(before.gate, events[|events| - 1]);
      Step(last.gate, before.effects + last.effects)
  }

  /** The activity flag the most recent decisive lifecycle message left, if any. */
  function LastActivity(events: seq<Event>): Option<bool> {
    if events == [] then None
    else
      var e := events[|events| - 1];
      if e.LifecycleMessage? && ClassifyLifecycle(e.state) != Ignore then Some(ClassifyLifecycle(e.state) == Resume)
      else LastActivity(events[..|events| - 1])
  }

  /** Whether the most recent surface event, if any, created the surface. */
  function LastSurface(events: seq<Event>): Option<bool> {
    if events == [] then None
    else
      var e := events[|events| - 1];
      if e.SurfaceCreated? then Some(true)
      else if e.SurfaceDestroyed? then Some(false)
      else LastSurface(events[..|events| - 1])
  }

  /** From construction on, the animator runs exactly when the most recent
      decisive lifecycle message was "resumed" and the most recent surface
      event created a surface. */
  lemma {:induction false} RunFromInitial(events: seq<Event>)
    ensures var g := Run(Initial, events).gate;
      && g.activityRunning == (LastActivity(events) == Some(true))
      && g.haveSurface == (LastSurface(events) == Some(true))
      && (g.animatorRunning <==> g.activityRunning && g.haveSurface)
  {
    if events != [] {
      RunFromInitial(events[..|events| - 1]);
    }
  }
}
