/** How often a run of a delay timer is started: its attempts are 1, 2, ... in order, up to the limit. */
module EngineAttempts {
  import opened Prelude
  import opened Retry
  import opened Schedules
  import opened Timers
  import opened Events
  import opened Heap
  import opened Engine
  import opened EngineRuns
  import opened EngineFrame
  import opened EngineParts
  import opened EnginePlans
  import opened EngineDelay
  import EngineReregister

  // ----- Counting starts in the language of a delay timer -----

  /** The attempts under which a run was started, in order. */
  function StartsOf(es: seq<Event>, r: RunId): seq<Attempt> {
    if es == [] then []
    else
      var before, e := StartsOf(es[..|es| - 1], r), es[|es| - 1];
      if e.RunStarted? && e.run == r then before + [e.attempt] else before
  }

  /** 1, 2, 3, .... */
  predicate FromOne(attempts: seq<Attempt>) {
    forall i :: 0 <= i < |attempts| ==> attempts[i] == i + 1
  }

  /** A run that falls due while the timer rests has not been started before. */
  ghost predicate FreshCycles(es: seq<Event>, maxAttempts: nat) {
    es == [] || (
      var before, e := es[..|es| - 1], es[|es| - 1];
      && FreshCycles(before, maxAttempts)
      && (e.RunDue? && Phases(before, maxAttempts).Resting? ==> e.run !in StartedRuns(before)))
  }

  lemma {:induction false} NeverStarted(es: seq<Event>, r: RunId)
    requires r !in StartedRuns(es)
    ensures StartsOf(es, r) == []
  {
    if es != [] {
      NeverStarted(es[..|es| - 1], r);
    }
  }

  /** How many starts of `r` a phase implies. */
  predicate Implies(p: Phase, r: RunId, starts: nat) {
    match p
    case Due(run, attempt) => run == r ==> starts == attempt - 1
    case Awaiting(run, attempt) => run == r ==> starts == attempt - 1
    case Active(run, attempt) => run == r ==> starts == attempt
    case Failing(run, attempt) => run == r ==> starts == attempt
    case _ => true
  }

  /** In the language, with fresh cycles, every run is started under attempts 1, 2, ..., as often as the limit allows at most. */
  lemma {:induction false} CyclesCount(es: seq<Event>, maxAttempts: nat, r: RunId)
    requires !Phases(es, maxAttempts).Broken? && FreshCycles(es, maxAttempts)
    ensures FromOne(StartsOf(es, r)) && |StartsOf(es, r)| <= AtLeastOne(maxAttempts)
    ensures Implies(Phases(es, maxAttempts), r, |StartsOf(es, r)|)
  {
    AttemptsBounded(es, maxAttempts);
    if es != [] {
      var before, e := es[..|es| - 1], es[|es| - 1];
      CyclesCount(before, maxAttempts, r);
      if e.RunDue? && Phases(before, maxAttempts).Resting? && e.run == r {
        NeverStarted(before, r);
      }
    }
  }

  /** A run that has failed or awaits a retry has been started. */
  lemma {:induction false} PhaseStarted(es: seq<Event>, maxAttempts: nat)
    ensures var p := Phases(es, maxAttempts);
      p.Active? || p.Failing? || p.Awaiting? ==> p.run in StartedRuns(es)
  {
    if es != [] {
      PhaseStarted(es[..|es| - 1], maxAttempts);
    }
  }

  // ----- Events that start nothing -----

  predicate Quiet(e: Event) {
    !e.RunDue? && !e.RunStarted?
  }

  /** `t` continues `s` by quiet events. */
  predicate Quietly(s: seq<Event>, t: seq<Event>) {
    s <= t && forall i :: |s| <= i < |t| ==> Quiet(t[i])
  }

  lemma {:induction false} QuietlyFresh(s: seq<Event>, t: seq<Event>, maxAttempts: nat)
    requires Quietly(s, t) && FreshCycles(s, maxAttempts)
    ensures FreshCycles(t, maxAttempts) && StartedRuns(t) == StartedRuns(s)
    decreases |t|
  {
    if |s| == |t| {
      assert s == t;
    } else {
      var before := t[..|t| - 1];
      assert Quiet(t[|t| - 1]) && s <= before;
      QuietlyFresh(s, before, maxAttempts);
    }
  }

  lemma {:induction false} QuietlyConcerning(s: seq<Event>, t: seq<Event>, id: TimerId)
    requires Quietly(s, t)
    ensures Quietly(Concerning(s, id), Concerning(t, id))
    decreases |t|
  {
    if |s| == |t| {
      assert s == t;
    } else {
      var before, e := t[..|t| - 1], t[|t| - 1];
      assert Quiet(e) && s <= before;
      QuietlyConcerning(s, before, id);
      var p, q, r := Concerning(s, id), Concerning(before, id), Concerning(t, id);
      assert r == q || r == q + [e];
    }
  }

  lemma QuietlyBehind(s: seq<Event>, t: seq<Event>, n: nat)
    requires Quietly(s, t) && n <= |s|
    ensures n <= |t| && Quietly(s[n..], t[n..])
  {
  }

  lemma ErrQuietly(calendar: Calendar, c: Core, f: Flight, error: string, now: Time, fail: bool, next: bool)
    ensures Quietly(c.log, FinishErr(calendar, c, f, error, now, fail, next).log)
  {
    hide Apply, NextRunAfter, NextRetryAt, CurrentAttempt;
  }

  lemma FinishQuietly(calendar: Calendar, c: Core, f: Flight, outcome: Result<(), string>, now: Time, first: bool, second: bool)
    ensures Quietly(c.log, Finish(calendar, c, f, outcome, now, first, second).log)
  {
    hide Apply, NextRunAfter, FinishErr;
    if outcome.Err? {
      ErrQuietly(calendar, c, f, outcome.error, now, first, second);
    }
  }

  lemma ScheduleQuietly(calendar: Calendar, c: Core, q: Request, now: Time, later: Time, accepted: bool)
    ensures var r := ScheduleTimer(calendar, c, q, now, later, accepted);
      r.Accepted? ==> Quietly(c.log, r.core.log)
  {
    hide Apply, NextRunAfter;
  }

  // ----- Sessions -----

  /** The session's cycles of the timer are fresh, and its runs are among those used. */
  ghost predicate FreshSlice(s: Slice, n: nat, used: set<RunId>) {
    && n <= |s.events| && StartedRuns(s.events[n..]) <= used
    && (s.spec.Some? ==> FreshCycles(s.events[n..], s.spec.value.retry.maxAttempts))
  }

  lemma QuietSlice(s: Slice, t: Slice, n: nat, used: set<RunId>, later: set<RunId>)
    requires FreshSlice(s, n, used) && used <= later && Quietly(s.events, t.events)
    requires t.spec == s.spec || |s.events| == n
    ensures FreshSlice(t, n, later)
  {
    hide StartedRuns, Phases;
    QuietlyBehind(s.events, t.events, n);
    NoStarts(s.events[n..], t.events[n..]);
    assert |s.events| == n ==> s.events[n..] == [];
    if t.spec.Some? {
      QuietlyFresh(s.events[n..], t.events[n..], t.spec.value.retry.maxAttempts);
    }
  }

  lemma {:induction false} NoStarts(s: seq<Event>, t: seq<Event>)
    requires Quietly(s, t)
    ensures StartedRuns(t) == StartedRuns(s)
    decreases |t|
  {
    if |s| == |t| {
      assert s == t;
    } else {
      var before := t[..|t| - 1];
      assert Quiet(t[|t| - 1]) && s <= before;
      NoStarts(s, before);
    }
  }

  // ----- The start block -----

  /** What the start block of a delay timer logs: nothing, a due run, or a due run and its start. */
  function StartEvents(entry: ScheduledTimer, newId: RunId, now: Time, due: bool, start: bool): seq<Event> {
    var run := OrElse(entry.run, newId);
    if !due then []
    else if !start then [RunDue(entry.timer, run, entry.at)]
    else [RunDue(entry.timer, run, entry.at), RunStarted(entry.timer, run, now, entry.attempt)]
  }

  lemma BeginLogs(calendar: Calendar, c: Core, entry: ScheduledTimer, newId: RunId, now: Time, due: bool, start: bool)
    requires entry.timer in c.mem.specs && c.mem.specs[entry.timer].overlap.Delay?
    ensures Begin(calendar, c, entry, newId, now, due, start).core.log == c.log + StartEvents(entry, newId, now, due, start)
  {
    hide Apply;
  }

  lemma {:induction false} ConcerningBoth(log: seq<Event>, more: seq<Event>, id: TimerId)
    requires forall i :: 0 <= i < |more| ==> Subject(more[i]) == id
    ensures Concerning(log + more, id) == Concerning(log, id) + more
    decreases |more|
  {
    if more == [] {
      assert log + more == log;
    } else {
      var before, e := more[..|more| - 1], more[|more| - 1];
      assert log + more == (log + before) + [e];
      ConcerningBoth(log, before, id);
      ConcerningAppend(log + before, e, id);
    }
  }

  /** A cycle begun under a new run id, or continued under the run's own. */
  lemma FreshBegin(es: seq<Event>, due: Event, more: seq<Event>, used: set<RunId>, newId: RunId, maxAttempts: nat)
    requires FreshCycles(es, maxAttempts) && StartedRuns(es) <= used && newId !in used
    requires due.RunDue? && (due.run == newId || (Phases(es, maxAttempts).Awaiting? && Phases(es, maxAttempts).run == due.run))
    requires more == [] || (|more| == 1 && more[0].RunStarted? && more[0].run == due.run)
    ensures FreshCycles(es + ([due] + more), maxAttempts) && StartedRuns(es + ([due] + more)) <= used + {newId}
  {
    PhaseStarted(es, maxAttempts);
    assert (es + [due])[..|es|] == es;
    StartedAppend(es, due);
    hide Phases;
    if more == [] {
      assert es + ([due] + more) == es + [due];
    } else {
      assert es + ([due] + more) == (es + [due]) + [more[0]];
      assert ((es + [due]) + [more[0]])[..|es| + 1] == es + [due];
      StartedAppend(es + [due], more[0]);
    }
  }

  lemma BegunSlice(s: Slice, t: Slice, n: nat, entry: ScheduledTimer, newId: RunId, now: Time, due: bool, start: bool,
                   used: set<RunId>)
    requires FreshSlice(s, n, used) && newId !in used && s.spec.Some? && t.spec == s.spec
    requires EntryFits(entry, SlicePhase(s, n), s.pending)
    requires t.events == s.events + StartEvents(entry, newId, now, due, start)
    ensures FreshSlice(t, n, used + {newId})
  {
    var run := OrElse(entry.run, newId);
    var more := if start then [RunStarted(entry.timer, run, now, entry.attempt)] else [];
    hide Phases, StartedRuns, FreshCycles;
    if due {
      FreshBegin(s.events[n..], RunDue(entry.timer, run, entry.at), more, used, newId, s.spec.value.retry.maxAttempts);
      assert t.events[n..] == s.events[n..] + ([RunDue(entry.timer, run, entry.at)] + more);
    } else {
      assert t.events == s.events;
    }
  }

  lemma BeginEvents(calendar: Calendar, c: Core, entry: ScheduledTimer, newId: RunId, now: Time, due: bool, start: bool)
    requires entry.timer in c.mem.specs && c.mem.specs[entry.timer].overlap.Delay?
    ensures var s, t := SliceOf(c, entry.timer), SliceOf(Begin(calendar, c, entry, newId, now, due, start).core, entry.timer);
      t.spec == s.spec && t.events == s.events + StartEvents(entry, newId, now, due, start)
  {
    hide Begin, Concerning, OfTimer;
    BeginLogs(calendar, c, entry, newId, now, due, start);
    EngineReregister.DelayedBegin(calendar, c, entry, newId, now, due, start);
    ConcerningBoth(c.log, StartEvents(entry, newId, now, due, start), entry.timer);
  }

  // ----- Sessions -----

  lemma BeginFresh(calendar: Calendar, w: World, k: nat, newId: RunId, now: Time, due: bool, start: bool, id: TimerId, n: nat)
    requires Sound(w) && k in w.spawned && w.spawned[k].timer == id && Token(PartOf(w, id), n) && newId !in w.used
    requires FreshSlice(SliceOf(w.core, id), n, w.used)
    ensures var v := AfterBegin(w, k, newId, now, Begin(calendar, w.core, w.spawned[k], newId, now, due, start));
      FreshSlice(SliceOf(v.core, id), n, v.used)
  {
    var e := w.spawned[k];
    var b := Begin(calendar, w.core, e, newId, now, due, start);
    PlaceOf(w, k, id);
    SoundSpawned(w, k);
    AloneSpawned(PartOf(w, id), k, n);
    assert w.core.mem.specs[id].overlap.Delay? by {
      hide Concerning, OfTimer, FlightsOf, SlicePhase;
    }
    hide Sound, Begin, Token, FlightsOf, SlicePhase, EntryFits, FreshSlice;
    BeginEvents(calendar, w.core, e, newId, now, due, start);
    hide Concerning, OfTimer;
    BegunSlice(SliceOf(w.core, id), SliceOf(b.core, id), n, e, newId, now, due, start, w.used);
  }

  lemma FinishFresh(calendar: Calendar, w: World, k: nat, outcome: Result<(), string>, now: Time, first: bool, second: bool,
                    id: TimerId, n: nat)
    requires Sound(w) && k in w.executing && w.executing[k].spec.id == id && Token(PartOf(w, id), n)
    requires FreshSlice(SliceOf(w.core, id), n, w.used)
    ensures var v := AfterFinish(w, k, now, Finish(calendar, w.core, w.executing[k], outcome, now, first, second));
      FreshSlice(SliceOf(v.core, id), n, v.used)
  {
    var f := w.executing[k];
    var c := Finish(calendar, w.core, f, outcome, now, first, second);
    PlaceOf(w, k, id);
    SoundExecuting(w, k);
    AloneFlying(PartOf(w, id), k, n);
    assert f.spec.overlap.Delay? by { hide Concerning, OfTimer, SlicePhase; }
    hide Sound, Finish, Token, FlightsOf, SlicePhase, FlightFits, Concerning, OfTimer, FreshSlice;
    FinishQuietly(calendar, w.core, f, outcome, now, first, second);
    EngineReregister.DelayedFinish(calendar, w.core, f, outcome, now, first, second);
    QuietlyConcerning(w.core.log, c.log, id);
    QuietSlice(SliceOf(w.core, id), SliceOf(c, id), n, w.used, w.used);
  }

  /** The steps that touch nothing that the timer has logged. */
  lemma SameEvents(s: Slice, t: Slice, n: nat, used: set<RunId>)
    requires FreshSlice(s, n, used) && t.events == s.events && t.spec == s.spec
    ensures FreshSlice(t, n, used)
  {
    hide StartedRuns, FreshCycles;
  }

  lemma UsedGrows(calendar: Calendar, w: World, s: Step)
    requires Enabled(w, s)
    ensures w.used <= Take(calendar, w, s).used
  {
    hide Begin, Finish, ScheduleTimer, Panics;
  }

  lemma MoreUsed(s: Slice, n: nat, used: set<RunId>, later: set<RunId>)
    requires FreshSlice(s, n, used) && used <= later
    ensures FreshSlice(s, n, later)
  {
    hide StartedRuns, FreshCycles;
  }

  lemma TokenFresh(calendar: Calendar, w: World, s: Step, id: TimerId, n: nat)
    requires Sound(w) && Enabled(w, s) && !s.Restart? && !(s.Register? && s.q.id == id) && Token(PartOf(w, id), n)
    requires FreshSlice(PartOf(w, id).core, n, w.used)
    ensures var v := Take(calendar, w, s);
      FreshSlice(PartOf(v, id).core, n, v.used)
  {
    var v := Take(calendar, w, s);
    UsedGrows(calendar, w, s);
    if s.BeginRun? && w.spawned[s.k].timer == id {
      BeginFresh(calendar, w, s.k, s.newId, s.now, s.dueAccepted, s.startAccepted, id, n);
    } else if s.FinishRunning? && w.executing[s.k].spec.id == id {
      FinishFresh(calendar, w, s.k, s.outcome, s.now, s.firstAccepted, s.secondAccepted, id, n);
    } else {
      hide Sound, PartOf, AfterPop, AfterSpawn, AfterBegin, AfterFinish, Begin, Finish, ScheduleTimer, Panics, Token, FreshSlice;
      if !Touches(w, s, id) {
        StepElsewhere(calendar, w, s, id);
      } else {
        match s
        case Pop(now) => PopMoves(w, now, id);
        case Spawn(k) => SpawnMoves(w, k, id);
        case LeaveLoop => LeaveMoves(w, id);
      }
      SameEvents(PartOf(w, id).core, PartOf(v, id).core, n, w.used);
      MoreUsed(PartOf(v, id).core, n, w.used, v.used);
    }
  }

  lemma IdleFresh(p: Part, n: nat, used: set<RunId>)
    requires Idle(p, n)
    ensures FreshSlice(p.core, n, used)
  {
    assert p.core.events[n..] == [];
    hide Keys;
  }

  /** A registration of an idle timer logs its specification at most. */
  lemma RegisterFresh(calendar: Calendar, w: World, s: Step, id: TimerId, n: nat)
    requires Enabled(w, s) && s.Register? && s.q.id == id && Idle(PartOf(w, id), n)
    ensures FreshSlice(PartOf(Take(calendar, w, s), id).core, n, Take(calendar, w, s).used)
  {
    var v := Take(calendar, w, s);
    IdleFresh(PartOf(w, id), n, w.used);
    ScheduleQuietly(calendar, w.core, s.q, s.now, s.later, s.accepted);
    hide ScheduleTimer, Concerning, FreshSlice, Keys;
    QuietlyConcerning(w.core.log, v.core.log, id);
    QuietSlice(PartOf(w, id).core, PartOf(v, id).core, n, w.used, v.used);
  }

  lemma RepeatFresh(calendar: Calendar, w: World, s: Step, id: TimerId, n: nat)
    requires Enabled(w, s) && s.Register? && s.q.id == id && Repeats(calendar, w.core, s)
    requires FreshSlice(PartOf(w, id).core, n, w.used)
    ensures FreshSlice(PartOf(Take(calendar, w, s), id).core, n, Take(calendar, w, s).used)
  {
    var p, q := PartOf(w, id), PartOf(Take(calendar, w, s), id);
    assert Same(q.core, p.core) by {
      assert SpecOf(w.core.mem, s.q, s.now).schedule == s.q.schedule;
      hide Concerning, OfTimer, NextRunAfter, SpecOf, Apply;
    }
    hide PartOf, FreshSlice, ScheduleTimer;
    SameEvents(p.core, q.core, n, w.used);
  }

  lemma {:induction false} SessionFresh(calendar: Calendar, w: World, steps: seq<Step>, id: TimerId, n: nat, mayRegister: bool)
    requires Sound(w) && Possible(calendar, w, steps)
    requires OneToken(w, id, n, mayRegister) && DelaySession(calendar, w, steps, id, mayRegister)
    requires FreshSlice(PartOf(w, id).core, n, w.used)
    ensures var v := Reach(calendar, w, steps);
      FreshSlice(PartOf(v, id).core, n, v.used)
    decreases |steps|
  {
    hide Sound, Take, Enabled, PartOf, Token, Idle, Repeats, FreshSlice;
    if steps != [] {
      var s := steps[0];
      var v := Take(calendar, w, s);
      StepSound(calendar, w, s);
      if s.Register? && s.q.id == id {
        if Repeats(calendar, w.core, s) && DelaySession(calendar, v, steps[1..], id, mayRegister) {
          RepeatStep(calendar, w, s, id, n);
          RepeatFresh(calendar, w, s, id, n);
          SessionFresh(calendar, v, steps[1..], id, n, mayRegister);
        } else {
          RegisterStep(calendar, w, s, id, n);
          RegisterFresh(calendar, w, s, id, n);
          SessionFresh(calendar, v, steps[1..], id, n, false);
        }
      } else {
        if Idle(PartOf(w, id), n) {
          IdleStep(calendar, w, s, id, n);
          IdleFresh(PartOf(v, id), n, v.used);
        } else {
          TokenStep(calendar, w, s, id, n);
          TokenFresh(calendar, w, s, id, n);
        }
        SessionFresh(calendar, v, steps[1..], id, n, mayRegister);
      }
    }
  }

  /**
   In a session of `DelayIsOneToken` every run is started under attempts 1, 2, ... in order, and not more
   often than the limit of the policy, though at least once is allowed.
   */
  lemma DelayStartsCount(calendar: Calendar, w: World, steps: seq<Step>, id: TimerId, n: nat, r: RunId)
    requires Sound(w) && Possible(calendar, w, steps)
    requires Idle(PartOf(w, id), n) && DelaySession(calendar, w, steps, id, true)
    ensures var s := SliceOf(Reach(calendar, w, steps).core, id);
      && n <= |s.events| && FromOne(StartsOf(s.events[n..], r))
      && (StartsOf(s.events[n..], r) != [] ==>
            s.spec.Some? && |StartsOf(s.events[n..], r)| <= AtLeastOne(s.spec.value.retry.maxAttempts))
  {
    IdleFresh(PartOf(w, id), n, w.used);
    DelayIsOneToken(calendar, w, steps, id, n, true);
    SessionFresh(calendar, w, steps, id, n, true);
    var v := Reach(calendar, w, steps);
    var p := PartOf(v, id);
    hide Reach, Possible, DelaySession, Sound, SliceOf, FreshCycles, StartedRuns, StartsOf, Phases, Keys;
    if Token(p, n) {
      CyclesCount(p.core.events[n..], p.core.spec.value.retry.maxAttempts, r);
    } else {
      assert p.core.events[n..] == [];
      NothingStarted(r);
    }
  }

  lemma NothingStarted(r: RunId)
    ensures StartsOf([], r) == []
  {
  }
}
