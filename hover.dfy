/**
 * The hover (altitude-hold) loop: module-level state updated by a handler for
 * published position events, armed by `start` and cleared by `end`.
 *
 * `helpers.positionDifference`, `helpers.positionSum` and
 * `drone.currentPosition` are not defined in this model; the handler receives
 * the first two as function parameters and the value of the third as an
 * argument, and every property is stated in terms of them.
 */
module Hover {
  import opened Wrappers
  import opened Geometry

  /** `integral`: the number 0 until the first PID step replaces it with a helper's sum. */
  datatype Integral = Zero | Accumulated(sum: Vec3)

  /** The position `drone.currentPosition()` returns; only its throttle is touched. */
  datatype DronePosition = DronePosition(roll: real, pitch: real, yaw: real, throttle: real)

  /** The five module-level variables. */
  datatype HoverState = HoverState(
    shouldControlQuad: bool,
    desiredPosition: Option<Vec3>,
    integral: Integral,
    lastError: Vec3,
    lastQuadPosition: Vec3)

  /** The gains, constants of src/hover.js, all zero. */
  const P: real := 0.0
  const I: real := 0.0
  const D: real := 0.0

  /** The state at module load, and again after every reset. */
  const Initial: HoverState := HoverState(false, None, Zero, Origin, Origin)

  /** The three PID terms one armed, anchored event computes. */
  datatype PidTerms = PidTerms(proportional: Vec3, integral: Vec3, derivative: Vec3)

  /** The state after one position event carrying `data`. */
  function Next(s: HoverState, data: Vec3, difference: (Vec3, Vec3) -> Vec3, sum: (Integral, Vec3) -> Vec3): (r: HoverState)
    ensures r.shouldControlQuad == s.shouldControlQuad && r.lastQuadPosition == s.lastQuadPosition
    ensures s.desiredPosition.Some? ==> r.desiredPosition == s.desiredPosition
    ensures r.desiredPosition.Some?
      <==> s.desiredPosition.Some? || (s.shouldControlQuad && s.desiredPosition.None?)
  {
    if !s.shouldControlQuad then s
    else if s.desiredPosition.None? then s.(desiredPosition := Some(data))
    else
      var error := difference(s.desiredPosition.value, data);
      s.(integral := Accumulated(sum(s.integral, s.lastError)), lastError := error)
  }

  /**
   * The PID terms the same event computes, or None when the handler returns
   * early. The proportional term is the error `Next` stores as `lastError`, and
   * the integral term is the sum `Next` stores as `integral`.
   */
  function Terms(s: HoverState, data: Vec3, difference: (Vec3, Vec3) -> Vec3, sum: (Integral, Vec3) -> Vec3): (r: Option<PidTerms>)
    ensures r.Some? <==> s.shouldControlQuad && s.desiredPosition.Some?
    ensures r.Some? ==>
      var next := Next(s, data, difference, sum);
      && r.value.proportional == next.lastError
      && next.integral == Accumulated(r.value.integral)
      && r.value.derivative == difference(next.lastError, s.lastError)
  {
    if !s.shouldControlQuad || s.desiredPosition.None? then None
    else
      var error := difference(s.desiredPosition.value, data);
      Some(PidTerms(error, sum(s.integral, s.lastError), difference(error, s.lastError)))
  }

  /** The throttle correction `P·proportional.y + I·integral.y + D·derivative.y`; with the gains all zero it vanishes. */
  function Correction(t: PidTerms): (r: real)
    ensures r == 0.0
  {
    P * t.proportional.y + I * t.integral.y + D * t.derivative.y
  }

  /** The state after a series of position events, in order. */
  function Run(s: HoverState, events: seq<Vec3>, difference: (Vec3, Vec3) -> Vec3, sum: (Integral, Vec3) -> Vec3): HoverState
    decreases |events|
  {
    if events == [] then s else Run(Next(s, events[0], difference, sum), events[1..], difference, sum)
  }

  /** `startHover`: only the flag changes. */
  function Started(s: HoverState): HoverState
  {
    s.(shouldControlQuad := true)
  }

  class HoverLoop {
    var shouldControlQuad: bool
    var desiredPosition: Option<Vec3>
    var integral: Integral
    var lastError: Vec3
    var lastQuadPosition: Vec3

    function State(): HoverState
      reads this
    {
      HoverState(shouldControlQuad, desiredPosition, integral, lastError, lastQuadPosition)
    }

    /** Module load. */
    constructor ()
      ensures State() == Initial
    {
      shouldControlQuad := false;
      desiredPosition := None;
      integral := Zero;
      lastError := Origin;
      lastQuadPosition := Origin;
    }

    /**
     * The position-event handler. It returns the corrected position it computes
     * from `current` (the value of `drone.currentPosition()`); that position is
     * sent nowhere, since the call that would actuate it is disabled.
     */
    method OnPosition(data: Vec3, difference: (Vec3, Vec3) -> Vec3, sum: (Integral, Vec3) -> Vec3, current: DronePosition)
      returns (newPosition: Option<DronePosition>)
      modifies this
      ensures State() == Next(old(State()), data, difference, sum)
      ensures newPosition ==
        match Terms(old(State()), data, difference, sum)
        case None => None
        case Some(t) => Some(current.(throttle := current.throttle + Correction(t)))
    {
      if !shouldControlQuad {
        return None;
      }
      if desiredPosition.None? {
        desiredPosition := Some(data);
        return None;
      }
      var error := difference(desiredPosition.value, data);
      var proportional := error;
      var derivative := difference(error, lastError);
      var integralSum := sum(integral, lastError);
      integral := Accumulated(integralSum);
      lastError := error;
      var throttle := P * proportional.y + I * integralSum.y + D * derivative.y;
      newPosition := Some(current.(throttle := current.throttle + throttle));
    }

    /** `startHover`. */
    method Start()
      modifies this
      ensures State() == Started(old(State()))
    {
      shouldControlQuad := true;
    }

    /** `resetParams`. */
    method ResetParams()
      modifies this
      ensures State() == Initial
    {
      shouldControlQuad := false;
      lastQuadPosition := Origin;
      desiredPosition := None;
      integral := Zero;
      lastError := Origin;
    }

    /** `endHover`: a reset; from any state, and so also when repeated, it ends in `Initial`. */
    method End()
      modifies this
      ensures State() == Initial
    {
      ResetParams();
    }
  }

  // ---------------------------------------------------------------------------
  // Properties of the loop

  /** An event while unarmed changes nothing and computes nothing. */
  lemma UnarmedEventIgnored(s: HoverState, data: Vec3, difference: (Vec3, Vec3) -> Vec3, sum: (Integral, Vec3) -> Vec3)
    requires !s.shouldControlQuad
    ensures Next(s, data, difference, sum) == s
    ensures Terms(s, data, difference, sum).None?
  {
  }

  /** The first armed event only records its data as the anchor. */
  lemma FirstArmedEventAnchors(s: HoverState, data: Vec3, difference: (Vec3, Vec3) -> Vec3, sum: (Integral, Vec3) -> Vec3)
    requires s.shouldControlQuad && s.desiredPosition.None?
    ensures Next(s, data, difference, sum) == s.(desiredPosition := Some(data))
    ensures Terms(s, data, difference, sum).None?
  {
  }

  /**
   * A later armed event: the error is measured against the anchor, and both the
   * derivative and the new integral use the error of the PREVIOUS event.
   */
  lemma AnchoredEventUsesPreviousError(s: HoverState, data: Vec3, difference: (Vec3, Vec3) -> Vec3, sum: (Integral, Vec3) -> Vec3)
    requires s.shouldControlQuad && s.desiredPosition.Some?
    ensures var error := difference(s.desiredPosition.value, data);
      && Next(s, data, difference, sum).lastError == error
      && Next(s, data, difference, sum).integral == Accumulated(sum(s.integral, s.lastError))
      && Terms(s, data, difference, sum) == Some(PidTerms(error, sum(s.integral, s.lastError), difference(error, s.lastError)))
  {
  }

  lemma {:induction false} RunSnoc(s: HoverState, events: seq<Vec3>, data: Vec3, difference: (Vec3, Vec3) -> Vec3, sum: (Integral, Vec3) -> Vec3)
    ensures Run(s, events + [data], difference, sum) == Next(Run(s, events, difference, sum), data, difference, sum)
    decreases |events|
  {
    if events == [] {
      assert [data][1..] == [];
    } else {
      assert (events + [data])[1..] == events[1..] + [data];
      RunSnoc(Next(s, events[0], difference, sum), events[1..], data, difference, sum);
    }
  }

  /** While unarmed, any series of events leaves the whole state as it was. */
  lemma {:induction false} UnarmedRunIgnored(s: HoverState, events: seq<Vec3>, difference: (Vec3, Vec3) -> Vec3, sum: (Integral, Vec3) -> Vec3)
    requires !s.shouldControlQuad
    ensures Run(s, events, difference, sum) == s
    decreases |events|
  {
    if events != [] {
      UnarmedRunIgnored(Next(s, events[0], difference, sum), events[1..], difference, sum);
    }
  }

  /** Once anchored, no series of events moves the anchor (only a reset does). */
  lemma {:induction false} AnchorIsStable(s: HoverState, events: seq<Vec3>, difference: (Vec3, Vec3) -> Vec3, sum: (Integral, Vec3) -> Vec3)
    requires s.desiredPosition.Some?
    ensures Run(s, events, difference, sum).desiredPosition == s.desiredPosition
    ensures Run(s, events, difference, sum).shouldControlQuad == s.shouldControlQuad
    decreases |events|
  {
    if events != [] {
      AnchorIsStable(Next(s, events[0], difference, sum), events[1..], difference, sum);
    }
  }

  /**
   * After `end` then `start`, the first event becomes the anchor for good, and
   * the error held afterwards is the anchor's difference from the latest event.
   */
  lemma {:induction false} RestartAnchorsFirstEvent(events: seq<Vec3>, difference: (Vec3, Vec3) -> Vec3, sum: (Integral, Vec3) -> Vec3)
    requires events != []
    ensures Run(Started(Initial), events, difference, sum).desiredPosition == Some(events[0])
    ensures |events| >= 2 ==>
      Run(Started(Initial), events, difference, sum).lastError == difference(events[0], events[|events| - 1])
  {
    var anchored := Next(Started(Initial), events[0], difference, sum);
    assert anchored.desiredPosition == Some(events[0]);
    AnchorIsStable(anchored, events[1..], difference, sum);
    if |events| >= 2 {
      var init := events[..|events| - 1];
      assert events == init + [events[|events| - 1]];
      RunSnoc(Started(Initial), init, events[|events| - 1], difference, sum);
      AnchorIsStable(anchored, init[1..], difference, sum);
    }
  }

  /** The integral after one more event is the previous integral summed with the previous error. */
  lemma IntegralLagsOneEvent(s: HoverState, events: seq<Vec3>, data: Vec3, difference: (Vec3, Vec3) -> Vec3, sum: (Integral, Vec3) -> Vec3)
    requires s.shouldControlQuad && s.desiredPosition.Some?
    ensures var before := Run(s, events, difference, sum);
      Run(s, events + [data], difference, sum).integral == Accumulated(sum(before.integral, before.lastError))
  {
    RunSnoc(s, events, data, difference, sum);
    AnchorIsStable(s, events, difference, sum);
  }
}
