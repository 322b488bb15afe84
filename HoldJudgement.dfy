/** Judgement of a hold note
    (osu.Game.Rulesets.Soyokaze/Objects/Drawables/DrawableHold.cs).

    The drawable keeps the start of the open press span (`holdStartTime`,
    where the source uses `double.MinValue` for "not held") and the time
    held so far (`holdDuration`). The framework's `Judged` flag and applied
    result become the fields `judged` and `result`, and the clock
    `Time.Current` becomes the parameter `now`. The nested tap circle's own
    judgement is not modelled; its outcome enters as an optional fraction. */
module HoldJudgement {
  import opened Wrappers
  import opened SoyokazeBeatmapConverter

  /** The grades a hold can get, lowest first. */
  datatype HitResult = Miss | Meh | Ok | Good | Great | Perfect

  function Rank(g: HitResult): nat {
    match g
    case Miss => 0
    case Meh => 1
    case Ok => 2
    case Good => 3
    case Great => 4
    case Perfect => 5
  }

  /** The score fraction a grade above `Miss` must strictly exceed. */
  function Threshold(g: HitResult): real
    requires g != Miss
  {
    match g
    case Meh => 0.5
    case Ok => 0.6
    case Good => 0.7
    case Great => 0.8
    case Perfect => 0.9
  }

  /** The grade ladder: a hold reaches grade `g` exactly when its score
      fraction strictly exceeds `g`'s threshold. */
  function GradeFor(scoreFraction: real): (r: HitResult)
    ensures forall g :: g != Miss ==> (Rank(r) >= Rank(g) <==> scoreFraction > Threshold(g))
  {
    if scoreFraction > 0.9 then Perfect
    else if scoreFraction > 0.8 then Great
    else if scoreFraction > 0.7 then Good
    else if scoreFraction > 0.6 then Ok
    else if scoreFraction > 0.5 then Meh
    else Miss
  }

  /** A higher score fraction never gets a lower grade. */
  lemma GradeMonotone(a: real, b: real)
    requires a <= b
    ensures Rank(GradeFor(a)) <= Rank(GradeFor(b))
  {
  }

  /** Boundary values fall to the lower grade; a full hold with a perfect
      tap is `Perfect` and nothing at all is `Miss`. */
  lemma GradeBoundaries()
    ensures GradeFor(0.9) == Great && GradeFor(0.5) == Miss
    ensures GradeFor(ScoreFraction(1.0, 1.0, Some(1.0))) == Perfect
    ensures GradeFor(ScoreFraction(0.0, 1.0, None)) == Miss
  {
  }

  /** The blend of the hold fraction with the nested circle's fraction, which
      counts as 0 when the circle has no result. The hold fraction is not
      clamped. */
  function ScoreFraction(holdDuration: real, duration: real, tapFraction: Option<real>): (r: real)
    requires duration > 0.0
    // with both parts in range, so is the blend
    ensures 0.0 <= holdDuration <= duration && 0.0 <= tapFraction.GetOr(0.0) <= 1.0 ==> 0.0 <= r <= 1.0
    // without a nested result, only holding for longer than the whole
    // duration lifts the blend above the `Meh` threshold
    ensures tapFraction.None? ==> (r > 0.5 <==> holdDuration > duration)
  {
    var holdFraction := holdDuration / duration;
    assert holdFraction * duration == holdDuration;
    (tapFraction.GetOr(0.0) + holdFraction) / 2.0
  }

  /** A hit object this drawable can judge: a hold of positive length. */
  predicate IsHold(h: SoyokazeHitObject) {
    h.kind.Hold? && h.kind.duration > 0.0
  }

  function EndTime(h: SoyokazeHitObject): real
    requires h.kind.Hold?
  {
    h.startTime + h.kind.duration
  }

  /** The run-time state of one hold drawable. */
  datatype HoldState = HoldState(
    holdStartTime: Option<real>,
    holdDuration: real,
    judged: bool,
    result: Option<HitResult>)

  /** The judged flag and the result go together: in the framework, an
      object is judged exactly when a result has been applied to it. */
  predicate Latched(s: HoldState) {
    s.judged <==> s.result.Some?
  }

  /** A fresh drawable: nothing held, nothing judged. */
  const INITIAL: HoldState := HoldState(None, 0.0, false, None)

  /** The state after an input, and whether the input was taken. */
  datatype Response = Response(state: HoldState, accepted: bool)

  /** The time an open span has lasted at `now`; 0 when nothing is held. */
  function OpenSpan(s: HoldState, now: real): real {
    match s.holdStartTime
    case Some(t0) => now - t0
    case None => 0.0
  }

  /** `OnApply`: back to "not held" with nothing held so far. */
  function AppliedState(s: HoldState): (r: HoldState)
    ensures r.holdStartTime.None? && r.holdDuration == 0.0
    ensures r.judged == s.judged && r.result == s.result
  {
    s.(holdStartTime := None, holdDuration := 0.0)
  }

  /** `Hit`: taken only while unjudged and for the bound button; a taken press
      starts the span at `now`, replacing any span already open. */
  function HitState(s: HoldState, button: int, action: int, now: real): (r: Response)
    ensures r.accepted <==> !s.judged && action == button
    ensures !r.accepted ==> r.state == s
    ensures r.accepted ==> r.state.holdStartTime == Some(now)
    ensures r.state.holdDuration == s.holdDuration && r.state.judged == s.judged && r.state.result == s.result
  {
    if s.judged then Response(s, false)
    else if action != button then Response(s, false)
    else Response(s.(holdStartTime := Some(now)), true)
  }

  /** `Release`: taken only while unjudged and for the bound button, also
      when nothing is held; a taken release adds the open span, if any, to
      the time held and closes it. */
  function ReleaseState(s: HoldState, button: int, action: int, now: real): (r: Response)
    ensures r.accepted <==> !s.judged && action == button
    ensures !r.accepted ==> r.state == s
    ensures r.accepted ==> r.state.holdStartTime.None?
    ensures r.accepted ==> r.state.holdDuration == s.holdDuration + OpenSpan(s, now)
    ensures r.accepted && s.holdStartTime.None? ==> r.state == s
    ensures r.state.judged == s.judged && r.state.result == s.result
  {
    if s.judged then Response(s, false)
    else if action != button then Response(s, false)
    else if s.holdStartTime.Some? then
      Response(s.(holdDuration := s.holdDuration + (now - s.holdStartTime.value), holdStartTime := None), true)
    else Response(s, true)
  }

  /** `CheckForResult`: before the end time, or when triggered by the user,
      nothing happens; otherwise the open span is closed at `now` (not at the
      end time) and the grade of the blended fraction is latched. */
  function CheckState(s: HoldState, hold: SoyokazeHitObject, userTriggered: bool, now: real, tapFraction: Option<real>): (r: HoldState)
    requires IsHold(hold) && !s.judged
    ensures userTriggered || now < EndTime(hold) ==> r == s
    ensures !(userTriggered || now < EndTime(hold)) ==>
      && r.judged
      && r.holdStartTime.None?
      && r.holdDuration == s.holdDuration + OpenSpan(s, now)
      && r.result == Some(GradeFor(ScoreFraction(r.holdDuration, hold.kind.duration, tapFraction)))
  {
    if userTriggered || now < EndTime(hold) then s
    else
      var released := ReleaseState(s, hold.button, hold.button, now).state;
      var scoreFraction := ScoreFraction(released.holdDuration, hold.kind.duration, tapFraction);
      released.(judged := true, result := Some(GradeFor(scoreFraction)))
  }

  /** What reaches a hold drawable during play: a press or a release of an
      action, or a frame in which the framework asks it for a result. The
      framework asks only while the object is unjudged. */
  datatype InputEvent =
    | Press(action: int, at: real)
    | Unpress(action: int, at: real)
    | Frame(at: real, userTriggered: bool, tapFraction: Option<real>)

  function TimeOf(e: InputEvent): real {
    match e
    case Press(_, t) => t
    case Unpress(_, t) => t
    case Frame(t, _, _) => t
  }

  function Step(s: HoldState, hold: SoyokazeHitObject, e: InputEvent): HoldState
    requires IsHold(hold)
  {
    match e
    case Press(action, t) => HitState(s, hold.button, action, t).state
    case Unpress(action, t) => ReleaseState(s, hold.button, action, t).state
    case Frame(t, userTriggered, tapFraction) =>
      if s.judged then s else CheckState(s, hold, userTriggered, t, tapFraction)
  }

  function Run(s: HoldState, hold: SoyokazeHitObject, events: seq<InputEvent>): HoldState
    requires IsHold(hold)
    decreases |events|
  {
    if |events| == 0 then s else Run(Step(s, hold, events[0]), hold, events[1..])
  }

  /** Every input and every frame keeps the judged flag and the result
      together. */
  lemma StepKeepsLatched(s: HoldState, hold: SoyokazeHitObject, e: InputEvent)
    requires IsHold(hold) && Latched(s)
    ensures Latched(Step(s, hold, e))
  {
  }

  /** So does every sequence of them: the grade is set exactly when the hold
      becomes judged. */
  lemma {:induction false} RunKeepsLatched(s: HoldState, hold: SoyokazeHitObject, events: seq<InputEvent>)
    requires IsHold(hold) && Latched(s)
    ensures Latched(Run(s, hold, events))
    decreases |events|
  {
    if |events| > 0 {
      StepKeepsLatched(s, hold, events[0]);
      RunKeepsLatched(Step(s, hold, events[0]), hold, events[1..]);
    }
  }

  /** Event times never go backwards and none is before `clock`. */
  predicate Chronological(events: seq<InputEvent>, clock: real)
    decreases |events|
  {
    |events| == 0 || (clock <= TimeOf(events[0]) && Chronological(events[1..], TimeOf(events[0])))
  }

  /** Once judged, a hold ignores every further input and frame. */
  lemma {:induction false} JudgedIsFinal(s: HoldState, hold: SoyokazeHitObject, events: seq<InputEvent>)
    requires IsHold(hold) && s.judged
    ensures Run(s, hold, events) == s
    decreases |events|
  {
    if |events| > 0 {
      JudgedIsFinal(s, hold, events[1..]);
    }
  }

  /** One press-release span of the bound button. */
  datatype Span = Span(pressAt: real, releaseAt: real)

  function PressReleaseEvents(button: int, spans: seq<Span>): (events: seq<InputEvent>)
    decreases |spans|
  {
    if |spans| == 0 then []
    else [Press(button, spans[0].pressAt), Unpress(button, spans[0].releaseAt)]
         + PressReleaseEvents(button, spans[1..])
  }

  function TotalHeld(spans: seq<Span>): real
    decreases |spans|
  {
    if |spans| == 0 then 0.0 else (spans[0].releaseAt - spans[0].pressAt) + TotalHeld(spans[1..])
  }

  /** Repeated press-release cycles of the bound button add up: each
      contributes its release time minus its press time. */
  lemma {:induction false} PressReleaseCyclesSum(s: HoldState, hold: SoyokazeHitObject, spans: seq<Span>)
    requires IsHold(hold) && !s.judged && s.holdStartTime.None?
    ensures Run(s, hold, PressReleaseEvents(hold.button, spans)) == s.(holdDuration := s.holdDuration + TotalHeld(spans))
    decreases |spans|
  {
    if |spans| > 0 {
      var events := PressReleaseEvents(hold.button, spans);
      var pressed := Step(s, hold, events[0]);
      var released := Step(pressed, hold, events[1]);
      assert events[1..][1..] == PressReleaseEvents(hold.button, spans[1..]);
      assert released == s.(holdDuration := s.holdDuration + (spans[0].releaseAt - spans[0].pressAt));
      PressReleaseCyclesSum(released, hold, spans[1..]);
    }
  }

  /** With a clock that never goes backwards, the time held never decreases. */
  lemma {:induction false} HoldDurationMonotone(s: HoldState, hold: SoyokazeHitObject, events: seq<InputEvent>, clock: real)
    requires IsHold(hold)
    requires s.holdStartTime.Some? ==> s.holdStartTime.value <= clock
    requires Chronological(events, clock)
    ensures Run(s, hold, events).holdDuration >= s.holdDuration
    decreases |events|
  {
    if |events| > 0 {
      var next := Step(s, hold, events[0]);
      assert next.holdDuration >= s.holdDuration;
      HoldDurationMonotone(next, hold, events[1..], TimeOf(events[0]));
    }
  }

  /** A second press during an open span restarts it: the time between the
      two presses is lost. */
  lemma RepressRestartsSpan(s: HoldState, hold: SoyokazeHitObject, t0: real, t1: real, t2: real)
    requires IsHold(hold) && !s.judged
    ensures Run(s, hold, [Press(hold.button, t0), Press(hold.button, t1), Unpress(hold.button, t2)])
      == s.(holdStartTime := None, holdDuration := s.holdDuration + (t2 - t1))
  {
    var events := [Press(hold.button, t0), Press(hold.button, t1), Unpress(hold.button, t2)];
    var s1 := Step(s, hold, events[0]);
    var s2 := Step(s1, hold, events[1]);
    var s3 := Step(s2, hold, events[2]);
    assert events[1..][1..] == [events[2]] && events[1..][1..][1..] == [];
    assert Run(s2, hold, [events[2]]) == s3;
    assert Run(s, hold, events) == Run(s1, hold, events[1..]) == Run(s2, hold, [events[2]]);
  }

  /** A press that is never released is folded in by the first frame at or
      after the end time, up to that frame's time, and the hold is graded. */
  lemma ForcedReleaseAtFrameTime(hold: SoyokazeHitObject, t0: real, now: real, tapFraction: Option<real>)
    requires IsHold(hold) && now >= EndTime(hold)
    ensures var r := Run(INITIAL, hold, [Press(hold.button, t0), Frame(now, false, tapFraction)]);
      && r.judged
      && r.holdDuration == now - t0
      && r.result == Some(GradeFor(ScoreFraction(now - t0, hold.kind.duration, tapFraction)))
  {
    var events := [Press(hold.button, t0), Frame(now, false, tapFraction)];
    var pressed := Step(INITIAL, hold, events[0]);
    assert pressed.holdStartTime == Some(t0) && !pressed.judged;
    assert events[1..][1..] == [];
    assert Run(pressed, hold, [events[1]]) == Step(pressed, hold, events[1]);
    assert Run(INITIAL, hold, events) == Run(pressed, hold, [events[1]]);
  }

  /** The hold fraction is not bounded by 1: a press from the start time
      that is still open when a frame arrives after the end time counts
      more than the whole duration. */
  lemma HoldFractionExceedsOne(hold: SoyokazeHitObject, t0: real, now: real)
    requires IsHold(hold) && t0 <= hold.startTime && now > EndTime(hold)
    ensures Run(INITIAL, hold, [Press(hold.button, t0), Frame(now, false, None)]).holdDuration / hold.kind.duration > 1.0
  {
    ForcedReleaseAtFrameTime(hold, t0, now, None);
    QuotientAboveOne(now - t0, hold.kind.duration);
  }

  lemma QuotientAboveOne(x: real, d: real)
    requires 0.0 < d < x
    ensures x / d > 1.0
  {
    assert x / d * d == x;
  }

  /** The drawable of one hold note. */
  class DrawableHold {
    const hitObject: SoyokazeHitObject
    var holdStartTime: Option<real>
    var holdDuration: real
    var judged: bool
    var result: Option<HitResult>

    function State(): HoldState
      reads this
    {
      HoldState(holdStartTime, holdDuration, judged, result)
    }

    /** The drawable judges a hold, and its judged flag and result agree. */
    predicate Valid()
      reads this
    {
      IsHold(hitObject) && Latched(State())
    }

    constructor (hold: SoyokazeHitObject)
      requires IsHold(hold)
      ensures Valid()
      ensures hitObject == hold && State() == INITIAL
    {
      hitObject := hold;
      holdStartTime := None;
      holdDuration := 0.0;
      judged := false;
      result := None;
    }

    method OnApply()
      requires Valid()
      modifies this
      ensures Valid()
      ensures State() == AppliedState(old(State()))
    {
      holdStartTime := None;
      holdDuration := 0.0;
    }

    method Hit(action: int, now: real) returns (accepted: bool)
      requires Valid()
      modifies this
      ensures Valid()
      ensures Response(State(), accepted) == HitState(old(State()), hitObject.button, action, now)
    {
      if judged {
        return false;
      }
      var validAction := hitObject.button;
      if action != validAction {
        return false;
      }
      holdStartTime := Some(now);
      return true;
    }

    method Release(action: int, now: real) returns (accepted: bool)
      requires Valid()
      modifies this
      ensures Valid()
      ensures Response(State(), accepted) == ReleaseState(old(State()), hitObject.button, action, now)
    {
      if judged {
        return false;
      }
      var validAction := hitObject.button;
      if action != validAction {
        return false;
      }
      if holdStartTime.Some? {
        holdDuration := holdDuration + (now - holdStartTime.value);
        holdStartTime := None;
      }
      return true;
    }

    method CheckForResult(userTriggered: bool, now: real, tapFraction: Option<real>)
      requires Valid() && !judged
      modifies this
      ensures Valid()
      ensures State() == CheckState(old(State()), hitObject, userTriggered, now, tapFraction)
    {
      if userTriggered || now < EndTime(hitObject) {
        return;
      }
      var _ := Release(hitObject.button, now);
      var holdFraction := holdDuration / hitObject.kind.duration;
      var holdCircleFraction := 0.0;
      if tapFraction.Some? {
        holdCircleFraction := tapFraction.value;
      }
      var scoreFraction := (holdCircleFraction + holdFraction) / 2.0;
      var grade: HitResult;
      if scoreFraction > 0.9 {
        grade := Perfect;
      } else if scoreFraction > 0.8 {
        grade := Great;
      } else if scoreFraction > 0.7 {
        grade := Good;
      } else if scoreFraction > 0.6 {
        grade := Ok;
      } else if scoreFraction > 0.5 {
        grade := Meh;
      } else {
        grade := Miss;
      }
      judged := true;
      result := Some(grade);
    }
  }
}
