/**
 * Steps and experiments of the lab-protocol timer (backend/models.py).
 *
 * Timestamps are whole seconds (`int`), durations are `nat` seconds. Every
 * call of `datetime.now()` in the source becomes a parameter, and so does
 * every `uuid.uuid4()` identifier.
 */
module Models {
  import opened Options

  datatype StepStatus = PENDING | READY | RUNNING | PAUSED | COMPLETED | SKIPPED | ERROR

  datatype StepType = FIXED_DURATION | TASK | FIXED_START | AUTOMATED_TASK

  /** The `.value` string of each step type. */
  function StepTypeValue(t: StepType): string
  {
    match t
    case FIXED_DURATION => "fixed_duration"
    case TASK => "task"
    case FIXED_START => "fixed_start"
    case AUTOMATED_TASK => "automated_task"
  }

  /** The resource a TASK step needs when none is given. */
  const UserAttention: string := "user_attention"

  /** The observable fields of a Step (notes and metadata are opaque to the timer and left out). */
  datatype StepState = StepState(
    id: string,
    name: string,
    duration: nat,
    stepType: StepType,
    dependencies: seq<string>,
    resourceNeeded: Option<string>,
    scheduledStart: Option<int>,
    scheduledEnd: Option<int>,
    actualStart: Option<int>,
    actualEnd: Option<int>,
    elapsed: int,
    status: StepStatus,
    earliestPossibleStart: Option<int>)

  /** The projection a step keeps: a scheduled end exactly when there is a scheduled start, `duration` later. */
  ghost predicate ScheduleConsistent(s: StepState)
  {
    s.scheduledEnd == (if s.scheduledStart.Some? then Some(s.scheduledStart.value + s.duration) else None)
  }

  /** `Step.__init__`: a fresh step. */
  function NewStep(id: string, name: string, duration: nat, stepType: StepType, dependencies: seq<string>,
                   scheduledStart: Option<int>, resourceNeeded: Option<string>): (s: StepState)
    ensures s.status == PENDING && s.elapsed == 0
    ensures s.actualStart == None && s.actualEnd == None && s.earliestPossibleStart == None
    ensures s.scheduledStart == scheduledStart && ScheduleConsistent(s)
    ensures s.resourceNeeded == (if resourceNeeded.None? && stepType == TASK then Some(UserAttention) else resourceNeeded)
    ensures s.id == id && s.name == name && s.duration == duration && s.stepType == stepType && s.dependencies == dependencies
  {
    var resource := if resourceNeeded.None? && stepType == TASK then Some(UserAttention) else resourceNeeded;
    var scheduledEnd := match scheduledStart
      case Some(t) => Some(t + duration)
      case None => None;
    StepState(id, name, duration, stepType, dependencies, resource, scheduledStart, scheduledEnd,
              None, None, 0, PENDING, None)
  }

  /**
   * What a transition leaves behind: it returns normally, or it raises the
   * TypeError that Python raises when it subtracts a missing actual start
   * time, leaving whatever it had already assigned.
   */
  datatype StepResult = Returned(step: StepState) | Raised(step: StepState)

  /** `Step.start(t)`: from READY or PAUSED to RUNNING, (re)setting the actual start; otherwise a no-op. */
  function StartStep(s: StepState, t: int): (r: StepState)
    ensures s.status !in {READY, PAUSED} ==> r == s
    ensures s.status in {READY, PAUSED} ==> r == s.(status := RUNNING, actualStart := Some(t))
  {
    if s.status !in {READY, PAUSED} then s
    else s.(actualStart := Some(t), status := RUNNING)
  }

  /** `Step.pause()` at time `now`. */
  function PauseStep(s: StepState, now: int): (r: StepResult)
    ensures s.stepType != TASK ==> r == Returned(s)
    ensures s.status != RUNNING ==> r == Returned(s)
    ensures r.Raised? <==> s.stepType == TASK && s.status == RUNNING && s.actualStart.None?
    ensures r.Raised? ==> r.step == s
    ensures s.stepType == TASK && s.status == RUNNING && s.actualStart.Some? ==>
              r == Returned(s.(status := PAUSED, elapsed := s.elapsed + (now - s.actualStart.value)))
  {
    // FIXED_DURATION, FIXED_START and AUTOMATED_TASK steps cannot be paused
    if s.stepType != TASK then Returned(s)
    else if s.status == RUNNING then
      match s.actualStart
      case None => Raised(s)
      case Some(t0) => Returned(s.(elapsed := s.elapsed + (now - t0), status := PAUSED))
    else Returned(s)
  }

  /** `Step.complete(end)`. */
  function CompleteStep(s: StepState, end: int): (r: StepResult)
    ensures s.status !in {RUNNING, PAUSED} ==> r == Returned(s)
    ensures r.Raised? <==> s.status == RUNNING && s.actualStart.None?
    ensures r.Raised? ==> r.step == s.(actualEnd := Some(end))
    ensures s.status == PAUSED ==> r == Returned(s.(status := COMPLETED, actualEnd := Some(end)))
    ensures s.status == RUNNING && s.actualStart.Some? ==>
              r == Returned(s.(status := COMPLETED, actualEnd := Some(end),
                               elapsed := s.elapsed + (end - s.actualStart.value)))
  {
    if s.status !in {RUNNING, PAUSED} then Returned(s)
    else
      var ended := s.(actualEnd := Some(end));
      if s.status == RUNNING then
        match s.actualStart
        case None => Raised(ended)
        case Some(t0) => Returned(ended.(elapsed := s.elapsed + (end - t0), status := COMPLETED))
      else Returned(ended.(status := COMPLETED))
  }

  /** `Step.get_expected_end_time()`. */
  function ExpectedEnd(s: StepState): Option<int>
  {
    if s.actualStart.Some? && s.status in {RUNNING, PAUSED} then Some(s.actualStart.value + s.duration)
    else if s.actualStart.Some? && s.status == COMPLETED && s.actualEnd.Some? then s.actualEnd
    else if s.scheduledStart.Some? then Some(s.scheduledStart.value + s.duration)
    else None
  }

  /** The three cases of the expected end, each stated for the step it applies to. */
  lemma ExpectedEndCases(s: StepState)
    ensures s.actualStart.Some? && s.status in {RUNNING, PAUSED} ==>
              ExpectedEnd(s) == Some(s.actualStart.value + s.duration)
    ensures s.actualStart.Some? && s.status == COMPLETED && s.actualEnd.Some? ==>
              ExpectedEnd(s) == s.actualEnd
    ensures ExpectedEnd(s).None? <==>
              s.scheduledStart.None? && !(s.actualStart.Some? && (s.status in {RUNNING, PAUSED} ||
                                                                 (s.status == COMPLETED && s.actualEnd.Some?)))
    ensures !(s.actualStart.Some? && s.status in {RUNNING, PAUSED}) &&
            !(s.actualStart.Some? && s.status == COMPLETED && s.actualEnd.Some?) && s.scheduledStart.Some? ==>
              ExpectedEnd(s) == Some(s.scheduledStart.value + s.duration)
    ensures ScheduleConsistent(s) && !(s.actualStart.Some? && s.status in {RUNNING, PAUSED, COMPLETED}) ==>
              ExpectedEnd(s) == s.scheduledEnd
  {
  }

  /** None of the transitions touches the projection, so each keeps it consistent. */
  lemma TransitionsKeepSchedule(s: StepState, t: int)
    ensures StartStep(s, t).scheduledStart == s.scheduledStart && StartStep(s, t).scheduledEnd == s.scheduledEnd
    ensures PauseStep(s, t).step.scheduledStart == s.scheduledStart && PauseStep(s, t).step.scheduledEnd == s.scheduledEnd
    ensures CompleteStep(s, t).step.scheduledStart == s.scheduledStart && CompleteStep(s, t).step.scheduledEnd == s.scheduledEnd
  {
  }

  // ---------------------------------------------------------------------------
  // Elapsed-time accounting over a run of the step

  datatype StepEvent = StartAt(t: int) | PauseAt(t: int) | CompleteAt(t: int)

  function Apply(s: StepState, e: StepEvent): StepResult
  {
    match e
    case StartAt(t) => Returned(StartStep(s, t))
    case PauseAt(t) => PauseStep(s, t)
    case CompleteAt(t) => CompleteStep(s, t)
  }

  /** Applies the events in order; an exception ends the run. */
  function Replay(s: StepState, events: seq<StepEvent>): StepResult
    decreases |events|
  {
    if events == [] then Returned(s)
    else
      match Apply(s, events[0])
      case Raised(p) => Raised(p)
      case Returned(s') => Replay(s', events[1..])
  }

  ghost predicate NonDecreasing(events: seq<StepEvent>)
  {
    forall i, j :: 0 <= i < j < |events| ==> events[i].t <= events[j].t
  }

  /** A single transition at a time not before the last (re)start never decreases the elapsed time. */
  lemma ElapsedMonotoneStep(s: StepState, e: StepEvent)
    requires s.actualStart.Some? ==> s.actualStart.value <= e.t
    ensures Apply(s, e).step.elapsed >= s.elapsed
    ensures Apply(s, e).step.actualStart.Some? ==> Apply(s, e).step.actualStart.value <= e.t
  {
  }

  /**
   * Given non-decreasing timestamps that do not precede the step's current
   * start, the elapsed time never decreases along a run.
   */
  lemma {:induction false} ElapsedNeverDecreases(s: StepState, events: seq<StepEvent>)
    requires NonDecreasing(events)
    requires events != [] && s.actualStart.Some? ==> s.actualStart.value <= events[0].t
    ensures Replay(s, events).step.elapsed >= s.elapsed
    decreases |events|
  {
    if events != [] {
      ElapsedMonotoneStep(s, events[0]);
      match Apply(s, events[0])
      case Raised(p) =>
      case Returned(s') =>
        if |events| > 1 {
          assert events[0].t <= events[1].t;
        }
        ElapsedNeverDecreases(s', events[1..]);
    }
  }

  datatype Interval = Interval(from: int, to: int)

  /** Running time of a list of segments: the sum of `to - from`. */
  function RunningTotal(segs: seq<Interval>): int
  {
    if segs == [] then 0 else (segs[0].to - segs[0].from) + RunningTotal(segs[1..])
  }

  /** start(a1), pause(b1), start(a2), pause(b2), ..., start(an), complete(bn). */
  function TaskRun(segs: seq<Interval>): (events: seq<StepEvent>)
    requires segs != []
    ensures |events| == 2 * |segs|
  {
    if |segs| == 1 then [StartAt(segs[0].from), CompleteAt(segs[0].to)]
    else [StartAt(segs[0].from), PauseAt(segs[0].to)] + TaskRun(segs[1..])
  }

  /**
   * On a TASK that is READY or PAUSED, a run of start/pause segments ending
   * in a completion adds exactly the sum of the running intervals to the
   * elapsed time; the actual start is the last segment's start (each resume
   * overwrites it) and the actual end the last segment's end.
   */
  lemma {:induction false} TaskRunAccounting(s: StepState, segs: seq<Interval>)
    requires s.stepType == TASK && s.status in {READY, PAUSED}
    requires segs != []
    ensures Replay(s, TaskRun(segs)).Returned?
    ensures Replay(s, TaskRun(segs)).step ==
              s.(status := COMPLETED, elapsed := s.elapsed + RunningTotal(segs),
                 actualStart := Some(segs[|segs| - 1].from), actualEnd := Some(segs[|segs| - 1].to))
    decreases |segs|
  {
    var events := TaskRun(segs);
    var started := StartStep(s, segs[0].from);
    assert events[1..][1..] == events[2..];
    assert Apply(s, events[0]) == Returned(started);
    assert Replay(s, events) == Replay(started, events[1..]);
    if |segs| == 1 {
      var done := started.(status := COMPLETED, actualEnd := Some(segs[0].to),
                           elapsed := s.elapsed + (segs[0].to - segs[0].from));
      assert Apply(started, events[1]) == Returned(done);
      assert events[2..] == [];
      assert Replay(started, events[1..]) == Replay(done, []);
    } else {
      var paused := started.(status := PAUSED, elapsed := s.elapsed + (segs[0].to - segs[0].from));
      assert Apply(started, events[1]) == Returned(paused);
      assert events[2..] == TaskRun(segs[1..]);
      assert Replay(started, events[1..]) == Replay(paused, events[2..]);
      TaskRunAccounting(paused, segs[1..]);
    }
  }

  // ---------------------------------------------------------------------------
  // Tables of steps keyed by id, in insertion order

  /** A dictionary of steps keyed by their ids, with its insertion order. */
  ghost predicate TableValid(steps: map<string, StepState>, order: seq<string>)
  {
    && (forall i, j :: 0 <= i < j < |order| ==> order[i] != order[j])
    && (forall k :: k in steps <==> k in order)
    && (forall k :: k in steps ==> steps[k].id == k && ScheduleConsistent(steps[k]))
  }

  function Lookup(steps: map<string, StepState>, id: string): (r: Option<StepState>)
    ensures r.Some? <==> id in steps
    ensures r.Some? ==> r.value == steps[id]
  {
    if id in steps then Some(steps[id]) else None
  }

  /** A Step object: the fields the source updates in place. */
  class Step {
    const id: string
    var name: string
    var duration: nat
    var stepType: StepType
    var dependencies: seq<string>
    var resourceNeeded: Option<string>
    var scheduledStart: Option<int>
    var scheduledEnd: Option<int>
    var actualStart: Option<int>
    var actualEnd: Option<int>
    var elapsed: int
    var status: StepStatus
    var earliestPossibleStart: Option<int>

    function State(): StepState
      reads this
    {
      StepState(id, name, duration, stepType, dependencies, resourceNeeded, scheduledStart, scheduledEnd,
                actualStart, actualEnd, elapsed, status, earliestPossibleStart)
    }

    ghost predicate Valid()
      reads this
    {
      ScheduleConsistent(State())
    }

    constructor (id: string, name: string, duration: nat, stepType: StepType, dependencies: seq<string>,
                 scheduledStart: Option<int>, resourceNeeded: Option<string>)
      ensures Valid()
      ensures State() == NewStep(id, name, duration, stepType, dependencies, scheduledStart, resourceNeeded)
    {
      this.id := id;
      this.name := name;
      this.duration := duration;
      this.stepType := stepType;
      this.dependencies := dependencies;
      this.resourceNeeded := resourceNeeded;
      if resourceNeeded.None? && stepType == TASK {
        this.resourceNeeded := Some(UserAttention);
      }
      this.scheduledStart := scheduledStart;
      this.scheduledEnd := if scheduledStart.Some? then Some(scheduledStart.value + duration) else None;
      this.actualStart := None;
      this.actualEnd := None;
      this.elapsed := 0;
      this.status := PENDING;
      this.earliestPossibleStart := None;
    }

    /** `start(t)`, with the caller's `start_time or now` already resolved to `t`. */
    method Start(t: int)
      requires Valid()
      modifies this
      ensures Valid()
      ensures State() == StartStep(old(State()), t)
    {
      if status !in {READY, PAUSED} {
        return;
      }
      actualStart := Some(t);
      status := RUNNING;
    }

    /** `pause()` at time `now`; `raised` reports the TypeError of a running step without a start time. */
    method Pause(now: int) returns (raised: bool)
      requires Valid()
      modifies this
      ensures Valid()
      ensures PauseStep(old(State()), now) == (if raised then Raised(State()) else Returned(State()))
    {
      raised := false;
      if stepType != TASK {
        return;
      }
      if status == RUNNING {
        if actualStart.None? {
          raised := true;
          return;
        }
        elapsed := elapsed + (now - actualStart.value);
        status := PAUSED;
      }
    }

    /** `complete(end)`; `raised` reports the TypeError of a running step without a start time. */
    method Complete(end: int) returns (raised: bool)
      requires Valid()
      modifies this
      ensures Valid()
      ensures CompleteStep(old(State()), end) == (if raised then Raised(State()) else Returned(State()))
    {
      raised := false;
      if status !in {RUNNING, PAUSED} {
        return;
      }
      actualEnd := Some(end);
      if status == RUNNING {
        if actualStart.None? {
          raised := true;
          return;
        }
        elapsed := elapsed + (end - actualStart.value);
      }
      status := COMPLETED;
    }

    /** `update_status(status)`: sets any status, unguarded. */
    method UpdateStatus(newStatus: StepStatus)
      requires Valid()
      modifies this
      ensures Valid()
      ensures State() == old(State()).(status := newStatus)
    {
      status := newStatus;
    }
  }

  /** An Experiment: a dictionary of steps keyed by id. */
  class Experiment {
    const id: string
    var name: string
    var description: Option<string>
    var steps: map<string, StepState>
    var order: seq<string>

    ghost predicate Valid()
      reads this
    {
      TableValid(steps, order)
    }

    constructor (id: string, name: string, description: Option<string>)
      ensures Valid()
      ensures this.id == id && this.name == name && this.description == description
      ensures steps == map[] && order == []
    {
      this.id := id;
      this.name := name;
      this.description := description;
      steps := map[];
      order := [];
    }

    /** `add_step`: a step whose id is already present is ignored. */
    method AddStep(step: Step)
      requires Valid() && step.Valid()
      modifies this
      ensures Valid()
      ensures name == old(name) && description == old(description)
      ensures old(step.id in steps) ==> steps == old(steps) && order == old(order)
      ensures old(step.id !in steps) ==> steps == old(steps)[step.id := step.State()] && order == old(order) + [step.id]
    {
      if step.id in steps {
        return;
      }
      steps := steps[step.id := step.State()];
      order := order + [step.id];
    }

    /** `get_step`. */
    function GetStep(stepId: string): (r: Option<StepState>)
      reads this
      ensures r.Some? <==> stepId in steps
      ensures r.Some? ==> r.value == steps[stepId]
    {
      Lookup(steps, stepId)
    }
  }
}
