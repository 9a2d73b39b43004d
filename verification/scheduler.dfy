/**
 * The scheduler of the lab-protocol timer (backend/scheduler.py): one table
 * of every step of every experiment, keyed by step id, that it projects
 * start and end times onto, promotes to READY and drives through the
 * step transitions.
 */
module Scheduling {
  import opened Options
  import opened Models
  import opened Sorting
  import opened Sequences

  // ---------------------------------------------------------------------------
  // Dependency end times

  /** A dependency's completion time: the actual end when known, else the scheduled end. */
  function EndOf(s: StepState): Option<int>
  {
    if s.actualEnd.Some? then s.actualEnd else s.scheduledEnd
  }

  /** The running maximum: `x` replaces `acc` when there is none yet or `x` is later. */
  function MaxOpt(acc: Option<int>, x: int): int
  {
    if acc.None? || x > acc.value then x else acc.value
  }

  /** The loop of `_resolve_dependencies` over `deps`, entered with running maximum `acc`. */
  function ResolveFrom(t: map<string, StepState>, deps: seq<string>, acc: Option<int>): Option<int>
    decreases |deps|
  {
    if deps == [] then acc
    else if deps[0] !in t || EndOf(t[deps[0]]).None? then None
    else ResolveFrom(t, deps[1..], Some(MaxOpt(acc, EndOf(t[deps[0]]).value)))
  }

  /** `_resolve_dependencies`: the earliest start its dependencies allow, if it can be told. */
  function Resolve(t: map<string, StepState>, deps: seq<string>): Option<int>
  {
    ResolveFrom(t, deps, None)
  }

  /** Every dependency is a known step with an end time. */
  ghost predicate AllEnded(t: map<string, StepState>, deps: seq<string>)
  {
    forall i :: 0 <= i < |deps| ==> deps[i] in t && EndOf(t[deps[i]]).Some?
  }

  lemma {:induction false} ResolveFromIsMax(t: map<string, StepState>, deps: seq<string>, acc: Option<int>)
    ensures ResolveFrom(t, deps, acc).Some? <==> (acc.Some? || deps != []) && AllEnded(t, deps)
    ensures ResolveFrom(t, deps, acc).Some? ==>
              (acc.Some? ==> acc.value <= ResolveFrom(t, deps, acc).value) &&
              (forall i :: 0 <= i < |deps| ==> EndOf(t[deps[i]]).value <= ResolveFrom(t, deps, acc).value)
    ensures ResolveFrom(t, deps, acc).Some? ==>
              (acc.Some? && acc.value == ResolveFrom(t, deps, acc).value) ||
              (exists i :: 0 <= i < |deps| && EndOf(t[deps[i]]) == ResolveFrom(t, deps, acc))
    decreases |deps|
  {
    if deps != [] && deps[0] in t && EndOf(t[deps[0]]).Some? {
      var acc' := Some(MaxOpt(acc, EndOf(t[deps[0]]).value));
      ResolveFromIsMax(t, deps[1..], acc');
      var r := ResolveFrom(t, deps, acc);
      assert r == ResolveFrom(t, deps[1..], acc');
      if r.Some? {
        if acc'.value == r.value {
          if acc.None? || EndOf(t[deps[0]]).value > acc.value {
            assert EndOf(t[deps[0]]) == r;
          }
        } else {
          var i :| 0 <= i < |deps[1..]| && EndOf(t[deps[1..][i]]) == r;
          assert EndOf(t[deps[i + 1]]) == r;
        }
      }
      forall i | 0 <= i < |deps[1..]| ensures deps[1..][i] == deps[i + 1] { }
      assert AllEnded(t, deps) <==> AllEnded(t, deps[1..]);
    } else if deps != [] {
      assert !AllEnded(t, deps) by {
        assert !(deps[0] in t && EndOf(t[deps[0]]).Some?);
      }
    }
  }

  /**
   * `_resolve_dependencies` yields a time exactly when there is at least one
   * dependency and every dependency is known and has an end; the time is then
   * the latest of those ends.
   */
  lemma ResolveIsMax(t: map<string, StepState>, deps: seq<string>)
    ensures Resolve(t, deps).Some? <==> deps != [] && AllEnded(t, deps)
    ensures deps == [] ==> Resolve(t, deps).None?
    ensures (exists i :: 0 <= i < |deps| && deps[i] !in t) ==> Resolve(t, deps).None?
    ensures Resolve(t, deps).Some? ==>
              (forall i :: 0 <= i < |deps| ==> EndOf(t[deps[i]]).value <= Resolve(t, deps).value) &&
              (exists i :: 0 <= i < |deps| && EndOf(t[deps[i]]) == Resolve(t, deps))
  {
    ResolveFromIsMax(t, deps, None);
  }

  /** Ends that are already known do not move from `a` to `b`. */
  ghost predicate EndsKept(a: map<string, StepState>, b: map<string, StepState>)
  {
    forall k :: k in a ==> k in b && (EndOf(a[k]).Some? ==> EndOf(b[k]) == EndOf(a[k]))
  }

  lemma {:induction false} ResolveFromStable(a: map<string, StepState>, b: map<string, StepState>,
                                             deps: seq<string>, acc: Option<int>)
    requires EndsKept(a, b)
    requires ResolveFrom(a, deps, acc).Some?
    ensures ResolveFrom(b, deps, acc) == ResolveFrom(a, deps, acc)
    decreases |deps|
  {
    if deps != [] {
      ResolveFromStable(a, b, deps[1..], Some(MaxOpt(acc, EndOf(a[deps[0]]).value)));
    }
  }

  // ---------------------------------------------------------------------------
  // Projection of PENDING steps (calculate_initial_schedule)

  /** A step may be scheduled: it has no dependencies or their ends resolve. */
  ghost predicate CanSchedule(s: StepState, t: map<string, StepState>)
  {
    s.dependencies == [] || Resolve(t, s.dependencies).Some?
  }

  /**
   * The step as the scheduling loop leaves it: the scheduled start is kept if
   * set, else it is the dependencies' resolved end (or the base time without
   * dependencies); the end is `duration` later.
   */
  function Scheduled(s: StepState, base: int, t: map<string, StepState>): (p: StepState)
    ensures p.scheduledStart.Some? && p.scheduledEnd == Some(p.scheduledStart.value + s.duration)
    ensures s.scheduledStart.Some? ==> p.scheduledStart == s.scheduledStart
    ensures ScheduleConsistent(p)
  {
    var e := OrElse(Resolve(t, s.dependencies), base);
    var v := OrElse(s.scheduledStart, e);
    s.(scheduledStart := Some(v), scheduledEnd := Some(v + s.duration), earliestPossibleStart := Some(e))
  }

  /** `p` is what the loop made of the PENDING step `s`, resolving dependencies in `t`. */
  ghost predicate ScheduledBy(s: StepState, p: StepState, base: int, t: map<string, StepState>)
  {
    s.status == PENDING && CanSchedule(s, t) && p == Scheduled(s, base, t)
  }

  /** A step the loop is sure to schedule: PENDING, and schedulable from the start. */
  ghost predicate Schedulable(t: map<string, StepState>, k: string)
    requires k in t
  {
    t[k].status == PENDING && CanSchedule(t[k], t)
  }

  /** What a scheduled step looks like, case by case. */
  lemma ScheduledByFacts(s: StepState, p: StepState, base: int, t: map<string, StepState>)
    requires ScheduledBy(s, p, base, t)
    ensures p.status == PENDING && p.id == s.id && p.dependencies == s.dependencies
    ensures p.actualStart == s.actualStart && p.actualEnd == s.actualEnd && p.elapsed == s.elapsed
    ensures p.scheduledStart.Some? && p.scheduledEnd == Some(p.scheduledStart.value + p.duration)
    ensures s.scheduledStart.Some? ==> p.scheduledStart == s.scheduledStart
    ensures s.scheduledStart.None? && s.dependencies == [] ==> p.scheduledStart == Some(base)
    ensures s.scheduledStart.None? && s.dependencies != [] ==> p.scheduledStart == Resolve(t, s.dependencies)
    ensures s.dependencies != [] ==> AllEnded(t, s.dependencies)
  {
    ResolveIsMax(t, s.dependencies);
  }

  lemma ScheduledStable(s: StepState, base: int, a: map<string, StepState>, b: map<string, StepState>)
    requires EndsKept(a, b) && CanSchedule(s, a)
    ensures CanSchedule(s, b) && Scheduled(s, base, b) == Scheduled(s, base, a)
  {
    if s.dependencies != [] {
      ResolveFromStable(a, b, s.dependencies, None);
    }
  }

  /** The loop's case split on the dependencies computes `Scheduled`. */
  lemma ScheduledCases(s: StepState, base: int, t: map<string, StepState>, earliest: Option<int>, start: int)
    requires earliest == Resolve(t, s.dependencies)
    requires s.dependencies == [] ==> start == OrElse(s.scheduledStart, base)
    requires s.dependencies != [] ==> earliest.Some? && start == OrElse(s.scheduledStart, earliest.value)
    ensures s.(scheduledStart := Some(start), scheduledEnd := Some(start + s.duration),
               earliestPossibleStart := Some(OrElse(earliest, base))) == Scheduled(s, base, t)
  {
    ResolveIsMax(t, s.dependencies);
  }

  /** Replacing one step of a valid table by a consistent step with the same id keeps it valid. */
  lemma ReplaceKeepsTable(t: map<string, StepState>, ids: seq<string>, id: string, p: StepState)
    requires TableValid(t, ids) && id in t && p.id == id && ScheduleConsistent(p)
    ensures TableValid(t[id := p], ids)
  {
  }

  /**
   * Scheduling the untouched PENDING step `id` of `before` keeps every step
   * already scheduled from `t0` as the loop made it, and every known end.
   */
  lemma ExtendProcessed(t0: map<string, StepState>, before: map<string, StepState>, processed: set<string>,
                        id: string, base: int)
    requires forall k :: k in processed ==> k in t0 && k in before && ScheduledBy(t0[k], before[k], base, before)
    requires id in t0 && id in before && before[id] == t0[id] && ScheduleConsistent(before[id])
    requires t0[id].status == PENDING && CanSchedule(t0[id], before)
    requires EndsKept(t0, before)
    ensures var after := before[id := Scheduled(before[id], base, before)];
      && EndsKept(t0, after)
      && forall k :: k in processed + {id} ==> ScheduledBy(t0[k], after[k], base, after)
  {
    var after := before[id := Scheduled(before[id], base, before)];
    ScheduleOneKeepsEnds(before, id, base);
    forall k | k in processed + {id}
      ensures ScheduledBy(t0[k], after[k], base, after)
    {
      ScheduledStable(t0[k], base, before, after);
    }
  }

  /** Scheduling one consistent step keeps every known end. */
  lemma ScheduleOneKeepsEnds(t: map<string, StepState>, id: string, base: int)
    requires id in t && ScheduleConsistent(t[id])
    ensures EndsKept(t, t[id := Scheduled(t[id], base, t)])
  {
  }

  // ---------------------------------------------------------------------------
  // Readiness (update_ready_status)

  /** Every dependency exists and is COMPLETED; SKIPPED does not count. */
  ghost predicate DepsMet(t: map<string, StepState>, deps: seq<string>)
  {
    forall i :: 0 <= i < |deps| ==> deps[i] in t && t[deps[i]].status == COMPLETED
  }

  /** The latest actual end among the dependencies that have one, entered with `acc`. */
  function LatestEndFrom(t: map<string, StepState>, deps: seq<string>, acc: Option<int>): Option<int>
    decreases |deps|
  {
    if deps == [] then acc
    else
      var acc' := if deps[0] in t && t[deps[0]].actualEnd.Some?
                  then Some(MaxOpt(acc, t[deps[0]].actualEnd.value)) else acc;
      LatestEndFrom(t, deps[1..], acc')
  }

  /** One step after `update_ready_status`, reading dependency statuses in `t`. */
  ghost function Promoted(t: map<string, StepState>, s: StepState): StepState
  {
    if s.status == PENDING && DepsMet(t, s.dependencies) then
      s.(status := READY,
         earliestPossibleStart := if LatestEndFrom(t, s.dependencies, None).Some?
                                  then LatestEndFrom(t, s.dependencies, None) else s.earliestPossibleStart)
    else s
  }

  /** The whole table after `update_ready_status`. */
  ghost function PromoteReady(t: map<string, StepState>): map<string, StepState>
  {
    map k | k in t :: Promoted(t, t[k])
  }

  /** Two tables agree on which steps are COMPLETED and on actual ends. */
  ghost predicate SameCompletion(a: map<string, StepState>, b: map<string, StepState>)
  {
    && (forall k :: k in a <==> k in b)
    && (forall k :: k in a ==> (a[k].status == COMPLETED <==> b[k].status == COMPLETED) && a[k].actualEnd == b[k].actualEnd)
  }

  lemma {:induction false} CompletionDecides(a: map<string, StepState>, b: map<string, StepState>,
                                             deps: seq<string>, acc: Option<int>)
    requires SameCompletion(a, b)
    ensures DepsMet(a, deps) == DepsMet(b, deps)
    ensures LatestEndFrom(a, deps, acc) == LatestEndFrom(b, deps, acc)
    decreases |deps|
  {
    if deps != [] {
      CompletionDecides(a, b, deps[1..], if deps[0] in a && a[deps[0]].actualEnd.Some?
                                         then Some(MaxOpt(acc, a[deps[0]].actualEnd.value)) else acc);
    }
  }

  /** Promotion writes only READY, so it keeps the completion facts readiness depends on. */
  lemma PromoteKeepsCompletion(t: map<string, StepState>)
    ensures SameCompletion(t, PromoteReady(t))
  {
  }

  /**
   * A step becomes READY iff it was PENDING and every dependency exists and
   * is COMPLETED; a step that is not PENDING is left exactly as it was.
   */
  lemma ReadyIff(t: map<string, StepState>, k: string)
    requires k in t
    ensures k in PromoteReady(t)
    ensures PromoteReady(t)[k].status == READY <==>
              t[k].status == READY || (t[k].status == PENDING && DepsMet(t, t[k].dependencies))
    ensures t[k].status != PENDING ==> PromoteReady(t)[k] == t[k]
    ensures PromoteReady(t)[k].status != t[k].status ==> PromoteReady(t)[k].status == READY
  {
  }

  /** A SKIPPED (or missing) dependency keeps a step from becoming READY. */
  lemma SkippedBlocksReady(t: map<string, StepState>, k: string, i: nat)
    requires k in t && t[k].status == PENDING
    requires i < |t[k].dependencies|
    requires t[k].dependencies[i] !in t || t[t[k].dependencies[i]].status == SKIPPED
    ensures PromoteReady(t)[k] == t[k]
  {
  }

  /** `update_ready_status` is idempotent. */
  lemma PromoteIdempotent(t: map<string, StepState>)
    ensures PromoteReady(PromoteReady(t)) == PromoteReady(t)
  {
    var p := PromoteReady(t);
    PromoteKeepsCompletion(t);
    forall k | k in p
      ensures Promoted(p, p[k]) == p[k]
    {
      CompletionDecides(t, p, t[k].dependencies, None);
    }
  }

  lemma PromoteKeepsTable(t: map<string, StepState>, order: seq<string>)
    requires TableValid(t, order)
    ensures TableValid(PromoteReady(t), order)
  {
  }

  /** Completing the sole dependency of a PENDING step makes that step READY. */
  lemma CompletingSoleDependency(t: map<string, StepState>, d: string, k: string, end: int)
    requires d in t && k in t
    requires t[d].status == PAUSED || (t[d].status == RUNNING && t[d].actualStart.Some?)
    requires t[k].status == PENDING && t[k].dependencies == [d]
    ensures PromoteReady(t[d := CompleteStep(t[d], end).step])[k].status == READY
  {
    var t' := t[d := CompleteStep(t[d], end).step];
    assert t'[k] == t[k];
    assert DepsMet(t', [d]);
  }

  // ---------------------------------------------------------------------------
  // Upcoming steps (get_upcoming_steps)

  /** `datetime.max`, in seconds since 1970-01-01 (9999-12-31 23:59:59). */
  const MaxTime: int := 253402300799

  /** The sort key: scheduled start, else earliest possible start, else `datetime.max`. */
  function StartKey(s: StepState): int
  {
    OrElse(s.scheduledStart, OrElse(s.earliestPossibleStart, MaxTime))
  }

  /**
   * READY/PENDING steps whose start lies in `[now, now + window)`, and RUNNING
   * steps whose expected end lies there.
   */
  ghost predicate InWindow(s: StepState, now: int, window: int)
  {
    if s.status in {READY, PENDING} then
      var k := if s.scheduledStart.Some? then s.scheduledStart else s.earliestPossibleStart;
      k.Some? && now <= k.value < now + window
    else if s.status == RUNNING then
      ExpectedEnd(s).Some? && now <= ExpectedEnd(s).value < now + window
    else false
  }

  /** The steps of `ids` in window, in table order. */
  ghost function UpcomingIn(t: map<string, StepState>, ids: seq<string>, now: int, window: int): (r: seq<StepState>)
    requires forall k :: k in ids ==> k in t
    ensures forall x :: x in r ==> InWindow(x, now, window) && exists k :: k in ids && t[k] == x
    ensures forall k :: k in ids && InWindow(t[k], now, window) ==> t[k] in r
    decreases |ids|
  {
    if ids == [] then []
    else
      var init := ids[..|ids| - 1];
      var last := ids[|ids| - 1];
      assert forall k :: k in ids ==> k in init || k == last;
      UpcomingIn(t, init, now, window) + (if InWindow(t[last], now, window) then [t[last]] else [])
  }

  /** Adding a consistent step under a new id keeps the table valid. */
  lemma AddOneKeepsTable(t: map<string, StepState>, order: seq<string>, s: StepState)
    requires TableValid(t, order) && s.id !in t && ScheduleConsistent(s)
    ensures TableValid(t[s.id := s], order + [s.id])
  {
  }

  // ---------------------------------------------------------------------------

  class Scheduler {
    var experiments: map<string, Experiment>
    var schedule: map<string, StepState>
    var order: seq<string>

    ghost predicate Valid()
      reads this
    {
      TableValid(schedule, order)
    }

    constructor ()
      ensures Valid()
      ensures experiments == map[] && schedule == map[] && order == []
    {
      experiments := map[];
      schedule := map[];
      order := [];
    }

    /** The ids of `ids` that are not yet keys of `known`, in order. */
    static function NewIds(ids: seq<string>, known: map<string, StepState>): seq<string>
      decreases |ids|
    {
      if ids == [] then []
      else NewIds(ids[..|ids| - 1], known) + (if ids[|ids| - 1] !in known then [ids[|ids| - 1]] else [])
    }

    /** The new ids are exactly the ids of `ids` that `known` lacks. */
    static lemma {:induction false} NewIdsMembers(ids: seq<string>, known: map<string, StepState>)
      ensures forall k :: k in NewIds(ids, known) <==> k in ids && k !in known
      decreases |ids|
    {
      if ids != [] {
        var init := ids[..|ids| - 1];
        assert forall k :: k in ids <==> k in init || k == ids[|ids| - 1];
        NewIdsMembers(init, known);
      }
    }

    /** One more id of `ids` extends `NewIds` by that id exactly when it is new. */
    static lemma NewIdsSnoc(ids: seq<string>, i: nat, known: map<string, StepState>)
      requires i < |ids|
      ensures NewIds(ids[..i + 1], known) == NewIds(ids[..i], known) + (if ids[i] !in known then [ids[i]] else [])
    {
      assert ids[..i + 1][..i] == ids[..i];
    }

    /** `add_experiment`: a known experiment id is ignored; steps already scheduled are never overwritten. */
    method AddExperiment(e: Experiment)
      requires Valid() && e.Valid()
      modifies this
      ensures Valid()
      ensures old(e.id in experiments) ==>
                experiments == old(experiments) && schedule == old(schedule) && order == old(order)
      ensures old(e.id !in experiments) ==> experiments == old(experiments)[e.id := e]
      ensures old(e.id !in experiments) ==> forall k :: k in schedule <==> k in old(schedule) || k in e.steps
      ensures forall k :: k in old(schedule) ==> schedule[k] == old(schedule)[k]
      ensures old(e.id !in experiments) ==>
                forall k :: k in e.steps && k !in old(schedule) ==> schedule[k] == e.steps[k]
      ensures old(e.id !in experiments) ==> order == old(order) + NewIds(e.order, old(schedule))
    {
      if e.id in experiments {
        return;
      }
      experiments := experiments[e.id := e];
      schedule, order := MergeSteps(schedule, order, e.order, e.steps);
    }

    /**
     * The loop of `add_experiment`: each step of `ids` whose id is not yet a
     * key of the table is added, in order; existing entries stay as they are.
     */
    static method MergeSteps(t0: map<string, StepState>, o0: seq<string>, ids: seq<string>, steps: map<string, StepState>)
      returns (table: map<string, StepState>, ids': seq<string>)
      requires TableValid(t0, o0) && TableValid(steps, ids)
      ensures TableValid(table, ids')
      ensures forall k :: k in table <==> k in t0 || k in steps
      ensures forall k :: k in table ==> table[k] == if k in t0 then t0[k] else steps[k]
      ensures ids' == o0 + NewIds(ids, t0)
    {
      table, ids' := t0, o0;
      for i := 0 to |ids|
        invariant MergedUpTo(t0, o0, steps, ids, i, table, ids')
      {
        var stepId := ids[i];
        MergeNext(t0, o0, steps, ids, i, table, ids');
        if stepId !in table {
          table := table[stepId := steps[stepId]];
          ids' := ids' + [stepId];
        }
      }
      TakeAll(ids);
      NewIdsMembers(ids, t0);
    }

    /** The state of the `add_experiment` loop after the first `i` ids of `ids`. */
    static ghost predicate MergedUpTo(t0: map<string, StepState>, o0: seq<string>, steps: map<string, StepState>,
                                      ids: seq<string>, i: nat, table: map<string, StepState>, order: seq<string>)
      requires i <= |ids|
    {
      && TableValid(table, order)
      && order == o0 + NewIds(ids[..i], t0)
      && (forall k :: k in t0 ==> k in table && table[k] == t0[k])
      && (forall k :: k in table && k !in t0 ==> k in steps && table[k] == steps[k])
    }

    /** One turn of the `add_experiment` loop keeps `MergedUpTo`. */
    static lemma MergeNext(t0: map<string, StepState>, o0: seq<string>, steps: map<string, StepState>,
                           ids: seq<string>, i: nat, table: map<string, StepState>, order: seq<string>)
      requires TableValid(t0, o0) && TableValid(steps, ids) && i < |ids|
      requires MergedUpTo(t0, o0, steps, ids, i, table, order)
      ensures ids[i] in table <==> ids[i] in t0
      ensures ids[i] !in table ==>
                MergedUpTo(t0, o0, steps, ids, i + 1, table[ids[i] := steps[ids[i]]], order + [ids[i]])
      ensures ids[i] in table ==> MergedUpTo(t0, o0, steps, ids, i + 1, table, order)
    {
      var stepId := ids[i];
      var added := NewIds(ids[..i], t0);
      DistinctNotBefore(ids, i);
      NewIdsMembers(ids[..i], t0);
      assert stepId in table <==> stepId in t0 by {
        assert stepId in table <==> stepId in o0 || stepId in added;
      }
      NewIdsSnoc(ids, i, t0);
      if stepId !in table {
        assert NewIds(ids[..i + 1], t0) == added + [stepId];
        AddOneKeepsTable(table, order, steps[stepId]);
        assert order + [stepId] == o0 + (added + [stepId]);
      } else {
        assert NewIds(ids[..i + 1], t0) == added;
      }
    }

    /** `get_step`. */
    function GetStep(stepId: string): (r: Option<StepState>)
      reads this
      ensures r.Some? <==> stepId in schedule
      ensures r.Some? ==> r.value == schedule[stepId]
    {
      Lookup(schedule, stepId)
    }

    /**
     * `_resolve_dependencies`: the latest end of the dependencies, or None when
     * it cannot be told. `table` is the schedule the source reads through `get_step`.
     */
    static method ResolveDependencies(table: map<string, StepState>, step: StepState) returns (earliest: Option<int>)
      ensures earliest == Resolve(table, step.dependencies)
    {
      var deps := step.dependencies;
      earliest := None;
      var i := 0;
      while i < |deps|
        invariant 0 <= i <= |deps|
        invariant ResolveFrom(table, deps[i..], earliest) == Resolve(table, deps)
      {
        DropCons(deps, i);
        var dep := Lookup(table, deps[i]);
        if dep.None? {
          return None;
        }
        var depEnd := EndOf(dep.value);
        if depEnd.None? {
          return None;
        }
        if earliest.None? || depEnd.value > earliest.value {
          earliest := Some(depEnd.value);
        }
        i := i + 1;
      }
    }

    /**
     * The inner loop of `update_ready_status` over `table`: whether every
     * dependency is COMPLETED, and then their latest actual end.
     */
    static method CheckDependencies(table: map<string, StepState>, deps: seq<string>) returns (met: bool, latest: Option<int>)
      ensures met == DepsMet(table, deps)
      ensures met ==> latest == LatestEndFrom(table, deps, None)
    {
      met := true;
      latest := None;
      var i := 0;
      while i < |deps|
        invariant 0 <= i <= |deps|
        invariant DepsMet(table, deps[..i])
        invariant LatestEndFrom(table, deps[i..], latest) == LatestEndFrom(table, deps, None)
      {
        DropCons(deps, i);
        TakeSnoc(deps, i);
        var dep := Lookup(table, deps[i]);
        if dep.None? || dep.value.status != COMPLETED {
          met := false;
          assert !DepsMet(table, deps) by {
            assert !(deps[i] in table && table[deps[i]].status == COMPLETED);
          }
          return;
        }
        if dep.value.actualEnd.Some? {
          if latest.None? || dep.value.actualEnd.value > latest.value {
            latest := dep.value.actualEnd;
          }
        }
        i := i + 1;
      }
      TakeAll(deps);
    }

    /** `update_ready_status`: PENDING steps whose dependencies are all COMPLETED become READY. */
    method UpdateReadyStatus()
      requires Valid()
      modifies this
      ensures Valid()
      ensures experiments == old(experiments) && order == old(order)
      ensures schedule == PromoteReady(old(schedule))
    {
      PromoteKeepsTable(schedule, order);
      schedule := PromoteAll(schedule, order);
    }

    /** The loop of `update_ready_status` over the steps of `t0` in `ids` order, updating the table as it goes. */
    static method PromoteAll(t0: map<string, StepState>, ids: seq<string>) returns (table: map<string, StepState>)
      requires forall i, j :: 0 <= i < j < |ids| ==> ids[i] != ids[j]
      requires forall k :: k in t0 <==> k in ids
      ensures table == PromoteReady(t0)
    {
      table := t0;
      for i := 0 to |ids|
        invariant forall k :: k in table <==> k in t0
        invariant forall k :: k in table ==> table[k] == if k in ids[..i] then Promoted(t0, t0[k]) else t0[k]
        invariant SameCompletion(table, t0)
      {
        var stepId := ids[i];
        TakeSnoc(ids, i);
        assert stepId !in ids[..i];
        var step := table[stepId];
        if step.status == PENDING {
          var met, latest := CheckDependencies(table, step.dependencies);
          CompletionDecides(table, t0, step.dependencies, None);
          if met {
            table := table[stepId := step.(status := READY,
                                           earliestPossibleStart := if latest.Some? then latest else step.earliestPossibleStart)];
          }
        }
      }
      TakeAll(ids);
    }

    /** `check_for_conflicts`: not implemented in the source; always reports no conflicts. */
    method CheckForConflicts() returns (conflicts: seq<(StepState, StepState)>)
      ensures conflicts == []
    {
      conflicts := [];
    }

    /**
     * `calculate_initial_schedule(base)`: projects start and end times onto
     * PENDING steps with a work queue capped at twice the number of steps,
     * then runs `update_ready_status`. `projected` is the table between the
     * two; `iterations` counts the queue pops.
     */
    method CalculateInitialSchedule(base: int) returns (ghost projected: map<string, StepState>, ghost iterations: nat)
      requires Valid()
      modifies this
      ensures Valid()
      ensures experiments == old(experiments) && order == old(order)
      ensures iterations <= 2 * |order|
      ensures forall k :: k in projected <==> k in old(schedule)
      ensures forall k :: k in old(schedule) && projected[k] != old(schedule)[k] ==>
                ScheduledBy(old(schedule)[k], projected[k], base, projected)
      ensures forall k :: k in old(schedule) && Schedulable(old(schedule), k) ==>
                ScheduledBy(old(schedule)[k], projected[k], base, projected)
      ensures schedule == PromoteReady(projected)
    {
      var table, count := ScheduleQueue(schedule, order, base);
      schedule := table;
      projected, iterations := table, count;
      UpdateReadyStatus();
    }

    /**
     * The work-queue loop of `calculate_initial_schedule` over the steps of
     * `t0` in `ids` order: it returns the projected table and the number of
     * queue pops.
     */
    static method ScheduleQueue(t0: map<string, StepState>, ids: seq<string>, base: int)
      returns (table: map<string, StepState>, count: nat)
      requires TableValid(t0, ids)
      ensures TableValid(table, ids)
      ensures count <= 2 * |ids|
      ensures forall k :: k in t0 && table[k] != t0[k] ==> ScheduledBy(t0[k], table[k], base, table)
      ensures forall k :: k in t0 && Schedulable(t0, k) ==> ScheduledBy(t0[k], table[k], base, table)
    {
      var n := |ids|;
      var maxIterations := n * 2;
      var queue := ids;
      var processed: set<string> := {};
      // The queue is the ids not yet popped once, `ids[front..]`, then the ids put back, `rest`.
      ghost var front: nat := 0;
      ghost var rest: seq<string> := [];
      table := t0;
      count := 0;
      while |queue| > 0 && count < maxIterations
        invariant count <= maxIterations
        invariant TableValid(table, ids)
        invariant forall k :: k in processed ==> k in t0 && ScheduledBy(t0[k], table[k], base, table)
        invariant forall k :: k in t0 && k !in processed ==> table[k] == t0[k]
        invariant EndsKept(t0, table)
        invariant front <= n && queue == ids[front..] + rest
        invariant front < n ==> front == count
        invariant forall q :: q in rest ==> q in t0
        invariant forall i :: 0 <= i < front && Schedulable(t0, ids[i]) ==> ids[i] in processed
        decreases maxIterations - count
      {
        ghost var first := front < n;
        var stepId := queue[0];
        if first {
          PopFront(ids, front, rest);
          assert stepId == ids[front];
          front := front + 1;
        } else {
          PopRest(ids, rest);
          rest := rest[1..];
        }
        count := count + 1;
        queue := queue[1..];
        var step := table[stepId];
        if stepId in processed || step.status != PENDING {
          continue;
        }
        var earliest := ResolveDependencies(table, step);
        var start: int;
        if step.dependencies == [] {
          start := OrElse(step.scheduledStart, base);
        } else if earliest.Some? {
          start := OrElse(step.scheduledStart, earliest.value);
        } else {
          if first && Schedulable(t0, stepId) {
            ScheduledStable(step, base, t0, table);
            assert false;
          }
          PushBack(ids, front, rest, stepId);
          rest := rest + [stepId];
          queue := queue + [stepId];
          continue;
        }
        var next := step.(scheduledStart := Some(start), scheduledEnd := Some(start + step.duration),
                          earliestPossibleStart := Some(OrElse(earliest, base)));
        ScheduledCases(step, base, table, earliest, start);
        ReplaceKeepsTable(table, ids, stepId, next);
        ExtendProcessed(t0, table, processed, stepId, base);
        table := table[stepId := next];
        processed := processed + {stepId};
      }
      assert front == n;
      forall k | k in t0 && Schedulable(t0, k)
        ensures k in processed
      {
        var i :| 0 <= i < n && ids[i] == k;
      }
    }

    /** `handle_step_start`: starts a known step, then re-evaluates readiness; unknown ids change nothing. */
    method HandleStepStart(stepId: string, startTime: int)
      requires Valid()
      modifies this
      ensures Valid()
      ensures experiments == old(experiments) && order == old(order)
      ensures stepId !in old(schedule) ==> schedule == old(schedule)
      ensures stepId in old(schedule) ==>
                schedule == PromoteReady(old(schedule)[stepId := StartStep(old(schedule)[stepId], startTime)])
    {
      var step := GetStep(stepId);
      if step.None? {
        return;
      }
      TransitionsKeepSchedule(step.value, startTime);
      schedule := schedule[stepId := StartStep(step.value, startTime)];
      UpdateReadyStatus();
    }

    /** `handle_step_pause`; `raised` reports the TypeError of the step's pause. */
    method HandleStepPause(stepId: string, now: int) returns (raised: bool)
      requires Valid()
      modifies this
      ensures Valid()
      ensures experiments == old(experiments) && order == old(order)
      ensures stepId !in old(schedule) ==> !raised && schedule == old(schedule)
      ensures stepId in old(schedule) ==>
                raised == PauseStep(old(schedule)[stepId], now).Raised? &&
                schedule == old(schedule)[stepId := PauseStep(old(schedule)[stepId], now).step]
    {
      raised := false;
      var step := GetStep(stepId);
      if step.None? {
        return;
      }
      TransitionsKeepSchedule(step.value, now);
      var result := PauseStep(step.value, now);
      schedule := schedule[stepId := result.step];
      raised := result.Raised?;
    }

    /**
     * `handle_step_complete`: completes a known step, then re-evaluates
     * readiness unless the completion raised; unknown ids change nothing.
     */
    method HandleStepComplete(stepId: string, endTime: int) returns (raised: bool)
      requires Valid()
      modifies this
      ensures Valid()
      ensures experiments == old(experiments) && order == old(order)
      ensures stepId !in old(schedule) ==> !raised && schedule == old(schedule)
      ensures stepId in old(schedule) ==>
                var r := CompleteStep(old(schedule)[stepId], endTime);
                raised == r.Raised? &&
                schedule == if raised then old(schedule)[stepId := r.step]
                            else PromoteReady(old(schedule)[stepId := r.step])
    {
      raised := false;
      var step := GetStep(stepId);
      if step.None? {
        return;
      }
      TransitionsKeepSchedule(step.value, endTime);
      var result := CompleteStep(step.value, endTime);
      schedule := schedule[stepId := result.step];
      if result.Raised? {
        raised := true;
        return;
      }
      UpdateReadyStatus();
    }

    /** `get_upcoming_steps(window)` at time `now`: the steps in window, sorted by start key. */
    method GetUpcomingSteps(now: int, window: int) returns (upcoming: seq<StepState>)
      requires Valid()
      ensures multiset(upcoming) == multiset(UpcomingIn(schedule, order, now, window))
      ensures SortedBy(upcoming, StartKey)
      ensures forall x :: x in upcoming ==> InWindow(x, now, window) && x in schedule.Values
      ensures forall k :: k in schedule && InWindow(schedule[k], now, window) ==> schedule[k] in upcoming
    {
      upcoming := SelectUpcoming(schedule, order, now, window);
    }

    /** The filter loop and sort of `get_upcoming_steps` over the steps of `table` in `ids` order. */
    static method SelectUpcoming(table: map<string, StepState>, ids: seq<string>, now: int, window: int)
      returns (upcoming: seq<StepState>)
      requires forall k :: k in table <==> k in ids
      ensures multiset(upcoming) == multiset(UpcomingIn(table, ids, now, window))
      ensures SortedBy(upcoming, StartKey)
      ensures forall x :: x in upcoming ==> InWindow(x, now, window) && x in table.Values
      ensures forall k :: k in table && InWindow(table[k], now, window) ==> table[k] in upcoming
    {
      var candidates: seq<StepState> := [];
      for i := 0 to |ids|
        invariant candidates == UpcomingIn(table, ids[..i], now, window)
      {
        TakeSnoc(ids, i);
        var step := table[ids[i]];
        var selected := false;
        if step.status in {READY, PENDING} {
          var key := if step.scheduledStart.Some? then step.scheduledStart else step.earliestPossibleStart;
          selected := key.Some? && now <= key.value < now + window;
        } else if step.status == RUNNING {
          var expectedEnd := ExpectedEnd(step);
          selected := expectedEnd.Some? && now <= expectedEnd.value < now + window;
        }
        if selected {
          candidates := candidates + [step];
        }
      }
      TakeAll(ids);
      upcoming := SortByKey(candidates, StartKey);
      SameMembers(upcoming, candidates);
      forall x | x in upcoming
        ensures x in table.Values
      {
        var k :| k in ids && table[k] == x;
      }
    }
  }
}
