/** Whole runs of the watcher: the guarantees that the loop, the timers and `Close` give together. */
module WatcherRuns {
  import opened Options
  import opened Paths
  import opened Watcher
  import opened WatcherProofs

  // ----- What an event does to existing timers ------------------------------------------------

  /** Events and `Close` leave a timer alone or stop it before it fires. */
  predicate Evolves(a: Timer, b: Timer) { b == a || b == StoppedTimer(a) }

  ghost predicate Frame(s: State, t: State) {
    && |t.pool| >= |s.pool| && t.log == s.log
    && (forall i | 0 <= i < |s.pool| :: Evolves(s.pool[i], t.pool[i]))
    && (forall i | |s.pool| <= i < |t.pool| :: t.pool[i].phase in {Armed, Over(Stopped)})
    && (forall rel :: Gen(t, rel) >= Gen(s, rel))
  }

  lemma FrameTrans(s: State, t: State, u: State)
    requires Frame(s, t) && Frame(t, u)
    ensures Frame(s, u)
  {
    forall i | 0 <= i < |s.pool| ensures Evolves(s.pool[i], u.pool[i]) {
      assert Evolves(s.pool[i], t.pool[i]) && Evolves(t.pool[i], u.pool[i]);
    }
    forall i | |s.pool| <= i < |u.pool| ensures u.pool[i].phase in {Armed, Over(Stopped)} {
      assert i < |t.pool| ==> Evolves(t.pool[i], u.pool[i]);
    }
    forall rel ensures Gen(u, rel) >= Gen(s, rel) {
      assert Gen(u, rel) >= Gen(t, rel);
    }
  }

  lemma StopFrame(s: State, id: nat, t: State)
    requires t.pool == StopTimer(s, id).pool && t.log == s.log && t.pathGen == s.pathGen
    ensures Frame(s, t)
  {
    assert forall i | 0 <= i < |s.pool| :: t.pool[i] == s.pool[i] || t.pool[i] == StoppedTimer(s.pool[i]);
  }

  lemma SameFrame(s: State, t: State)
    requires t.pool == s.pool && t.log == s.log && t.pathGen == s.pathGen
    ensures Frame(s, t)
  {
  }

  lemma CancelFrame(s: State, key: Key)
    ensures Frame(s, CancelTimer(s, key)) && Frame(s, CancelPending(s))
  {
    hide Frame, Gen;
    SameFrame(s, s);
    if key in s.timers {
      StopFrame(s, s.timers[key], CancelTimer(s, key));
    }
    if s.pending.Some? {
      StopFrame(s, s.pending.value, CancelPending(s));
    }
  }

  lemma ScheduleFrame(s: State, job: Job)
    ensures Frame(s, Schedule(s, job))
  {
    CancelFrame(s, KeyOf(job));
    if !s.closed {
      var c, t := CancelTimer(s, KeyOf(job)), Schedule(s, job);
      assert forall i | 0 <= i < |c.pool| :: t.pool[i] == c.pool[i];
      assert forall rel :: Gen(t, rel) == Gen(c, rel);
      FrameTrans(s, c, t);
    }
  }

  lemma BumpFrame(s: State, rel: string)
    ensures Frame(s, Bump(s, rel))
  {
  }

  lemma CancelPendingOnFrame(s: State, rel: string)
    ensures Frame(s, CancelPendingOn(s, rel))
  {
    CancelFrame(s, Key(ModifyKey, rel));
  }

  lemma OnePathFrame(s: State, drop: Key, rel: string, job: Job)
    ensures Frame(s, Schedule(Bump(CancelPendingOn(CancelTimer(s, drop), rel), rel), job))
    ensures Frame(s, Schedule(Bump(CancelTimer(s, drop), rel), job))
  {
    var t := CancelTimer(s, drop);
    var u := CancelPendingOn(t, rel);
    CancelFrame(s, drop);
    CancelPendingOnFrame(t, rel);
    FrameTrans(s, t, u);
    forall x | x == t || x == u ensures Frame(s, Schedule(Bump(x, rel), job)) {
      BumpFrame(x, rel);
      FrameTrans(s, x, Bump(x, rel));
      ScheduleFrame(Bump(x, rel), job);
      FrameTrans(s, Bump(x, rel), Schedule(Bump(x, rel), job));
    }
  }

  lemma FlushFrame(s: State)
    ensures Frame(s, Flush(s))
  {
    if PendingJob(s).Some? {
      CancelFrame(s, Key(DeleteKey, ""));
      ScheduleFrame(CancelPending(s), PendingJob(s).value);
      FrameTrans(s, CancelPending(s), Flush(s));
    }
  }

  lemma ArmFrame(s: State, job: Job)
    ensures Frame(s, Arm(s, PendingSlot, job).(pending := Some(|s.pool|)))
  {
    assert forall r :: Gen(Arm(s, PendingSlot, job).(pending := Some(|s.pool|)), r) == Gen(s, r);
  }

  lemma RenameAwayFrame(s: State, rel: string)
    ensures Frame(s, OnRenameAway(s, rel))
  {
    hide Frame, Flush, CancelTimer, Bump, Gen;
    var f := Flush(s);
    var c := CancelTimer(f, Key(ModifyKey, rel));
    var b := Bump(c, rel);
    FlushFrame(s);
    CancelFrame(f, Key(ModifyKey, rel));
    FrameTrans(s, f, c);
    BumpFrame(c, rel);
    FrameTrans(s, c, b);
    ArmFrame(b, Delete(rel, Gen(b, rel)));
    FrameTrans(s, b, OnRenameAway(s, rel));
  }

  lemma CreateFrame(s: State, rel: string)
    ensures Frame(s, OnCreate(s, rel))
  {
    var t := CancelTimer(s, Key(DeleteKey, rel));
    CancelFrame(s, Key(DeleteKey, rel));
    if PendingJob(t).Some? {
      var u, away := CancelPending(t), PendingJob(t).value.rel;
      CancelFrame(t, Key(DeleteKey, rel));
      FrameTrans(s, t, u);
      if away == rel {
        assert forall r :: Gen(OnCreate(s, rel), r) == Gen(u, r);
      } else {
        var key := Key(ModifyKey, away);
        CancelFrame(u, key);
        FrameTrans(s, u, CancelTimer(u, key));
        var b := Bump(CancelTimer(u, key), away);
        BumpFrame(CancelTimer(u, key), away);
        FrameTrans(s, CancelTimer(u, key), b);
        BumpFrame(b, rel);
        FrameTrans(s, b, Bump(b, rel));
        var v := Bump(b, rel);
        var job := Rename(away, rel, Gen(v, away), Gen(v, rel));
        ScheduleFrame(v, job);
        FrameTrans(s, v, Schedule(v, job));
      }
    } else {
      assert forall r :: Gen(OnCreate(s, rel), r) == Gen(t, r);
    }
  }

  predicate OnTimer(l: Label, id: nat) {
    match l
    case Fire(i) => i == id
    case EnterTimer(i) => i == id
    case FirstCheck(i) => i == id
    case DiskCheck(i, _) => i == id
    case SecondCheck(i) => i == id
    case Deliver(i) => i == id
    case Return(i) => i == id
    case _ => false
  }

  lemma EventFrame(s: State, l: Label)
    requires Enabled(s, l) && !IsTimerLabel(l)
    ensures Frame(s, Apply(s, l))
  {
    if l.Write? {
      var t := Bump(CancelPendingOn(CancelTimer(s, Key(DeleteKey, l.rel)), l.rel), l.rel);
      OnePathFrame(s, Key(DeleteKey, l.rel), l.rel, Modify(l.rel, Gen(t, l.rel)));
    } else if l.Remove? {
      var t := Bump(CancelPendingOn(CancelTimer(s, Key(ModifyKey, l.rel)), l.rel), l.rel);
      OnePathFrame(s, Key(ModifyKey, l.rel), l.rel, Delete(l.rel, Gen(t, l.rel)));
    } else if l.RenameAway? {
      RenameAwayFrame(s, l.rel);
    } else if l.Create? {
      CreateFrame(s, l.rel);
    } else if l.CreateRest? {
      var rel, i := s.loop.rel, s.(loop := Idle);
      OnePathFrame(i, Key(DeleteKey, rel), rel, Modify(rel, Gen(Bump(CancelTimer(i, Key(DeleteKey, rel)), rel), rel)));
      assert forall r :: Gen(i, r) == Gen(s, r);
    } else {
      assert forall r :: Gen(Apply(s, l), r) == Gen(s, r);
    }
  }

  /** A callback step changes its own timer only. */
  lemma TimerFrame(s: State, l: Label, id: nat)
    requires Enabled(s, l) && IsTimerLabel(l) && !OnTimer(l, id) && id < |s.pool|
    ensures |Apply(s, l).pool| == |s.pool| && Apply(s, l).pool[id] == s.pool[id]
    ensures Apply(s, l).pathGen == s.pathGen
  {
    hide ApplyEvent, EventEnabled, ApplyTimer, TimerEnabled;
  }

  // ----- Every run ------------------------------------------------------------------------------------

  lemma InitialGood()
    ensures Good(INITIAL, {})
  {
  }

  /** One step from a good state, allowing for a lost event. */
  lemma StepSane(s: State, l: Label, loose: set<string>) returns (wide: set<string>)
    requires Good(s, loose) && Enabled(s, l)
    ensures loose <= wide && Good(Apply(s, l), wide)
  {
    hide Good, LosesEvent, OnCreate, OnWrite, OnRemove, OnRenameAway, OnCreateRest, ApplyTimer, TimerEnabled;
    wide := loose;
    if l.Create? && LosesEvent(s, l.rel) {
      wide := CreateSane(s, l.rel, loose);
    } else {
      StepGood(s, l, loose);
    }
  }

  lemma CreateSane(s: State, rel: string, loose: set<string>) returns (wide: set<string>)
    requires Good(s, loose) && s.loop == Idle && LosesEvent(s, rel)
    ensures loose <= wide && Good(OnCreate(s, rel), wide)
  {
    hide Good, OnCreate, Unpaired, Covers;
    var key := RenameKeyOf(PairedWith(s, rel).value, rel);
    wide := loose + Touched(s.pool[s.timers[key]].job);
    UnpairedKeepsRenames(s, rel, key);
    UnpairedGood(s, rel, loose);
    TouchedCovers(s.pool[s.timers[key]].job);
    PairedGood(s, rel, loose, wide);
  }

  lemma TouchedCovers(job: Job)
    ensures forall rel, g | Covers(job, rel, g) :: rel in Touched(job)
  {
  }

  lemma {:induction false} RunSane(ls: seq<Label>) returns (loose: set<string>)
    requires IsRun(ls)
    ensures Good(After(ls), loose)
  {
    if ls == [] {
      InitialGood();
      loose := {};
    } else {
      var before := RunSane(ls[..|ls| - 1]);
      loose := StepSane(After(ls[..|ls| - 1]), ls[|ls| - 1], before);
    }
  }

  lemma {:induction false} UndoneZero(pool: seq<Timer>, id: nat)
    requires Undone(pool) == 0 && id < |pool|
    ensures pool[id].done
  {
    if id < |pool| - 1 {
      UndoneZero(pool[..|pool| - 1], id);
    }
  }

  lemma {:induction false} StopAllUndone(pool: seq<Timer>)
    ensures Undone(StopAll(pool)) <= Undone(pool)
  {
    if pool != [] {
      var n := |pool| - 1;
      StopAllUndone(pool[..n]);
      assert StopAll(pool)[..n] == StopAll(pool[..n]);
    }
  }

  /** The wait group is the loop plus the timers that are not done, it is never negative, and it only
      grows while the loop itself is counted. */
  lemma {:induction false} WaitGroupConserved(ls: seq<Label>, next: Label)
    requires IsRun(ls) && Enabled(After(ls), next)
    ensures var s := After(ls);
      && s.wg == Undone(s.pool) + (if s.loop.Exited? then 0 else 1) >= 0
      && (Apply(s, next).wg > s.wg ==> !s.loop.Exited?)
  {
    var loose := RunSane(ls);
    GrowthNeedsLoop(After(ls), next);
    hide Apply, Enabled, After, IsRun, Shape, OneHolder, Coverage;
  }

  lemma GrowthNeedsLoop(s: State, next: Label)
    requires Enabled(s, next)
    ensures Apply(s, next).wg > s.wg ==> !s.loop.Exited?
  {
    hide ApplyTimer, OnWrite, OnRemove, OnRenameAway, OnCreate, OnCreateRest;
    StopAllUndone(s.pool);
  }

  /** A timer that is done stays as it is: it is never counted done again. */
  lemma {:induction false} DoneOnce(ls: seq<Label>, next: Label, id: nat)
    requires IsRun(ls) && Enabled(After(ls), next) && id < |After(ls).pool| && After(ls).pool[id].done
    ensures id < |Apply(After(ls), next).pool| && Apply(After(ls), next).pool[id] == After(ls).pool[id]
  {
    var s := After(ls);
    var loose := RunSane(ls);
    if IsTimerLabel(next) {
      TimerFrame(s, next, id);
    } else {
      EventFrame(s, next);
      assert Evolves(s.pool[id], Apply(s, next).pool[id]);
    }
  }

  /** Once `Close` has returned, nothing can call the handler any more. */
  lemma {:induction false} NoCallAfterClose(ls: seq<Label>, next: Label)
    requires IsRun(ls) && After(ls).returned && Enabled(After(ls), next)
    ensures !next.Deliver? && !next.Overflow? && Apply(After(ls), next).returned
  {
    var s := After(ls);
    var loose := RunSane(ls);
    if IsTimerLabel(next) {
      UndoneZero(s.pool, next.id);
    }
  }

  // ----- Coverage ---------------------------------------------------------------------------------------

  predicate ArrowFree(path: string) { !Contains(path, "->") }

  predicate ArrowFreeLabel(l: Label) {
    l.Write? || l.Remove? || l.RenameAway? || l.Create? ==> ArrowFree(l.rel)
  }

  /** Without an arrow inside a path, the key of a rename timer names its two paths. */
  lemma RenameKeysDiffer(a: string, b: string, c: string, d: string)
    requires ArrowFree(a) && ArrowFree(c) && a + "->" + b == c + "->" + d
    ensures a == c && b == d
  {
    if |a| == |c| {
      assert (a + "->" + b)[..|a|] == a && (c + "->" + d)[..|c|] == c;
      assert (a + "->" + b)[|a| + 2..] == b && (c + "->" + d)[|c| + 2..] == d;
    } else if |a| < |c| {
      ShorterSide(a, b, c, d);
    } else {
      ShorterSide(c, d, a, b);
    }
  }

  lemma ShorterSide(a: string, b: string, c: string, d: string)
    requires |a| < |c| && ArrowFree(c)
    ensures a + "->" + b != c + "->" + d
  {
    var x, y := a + "->" + b, c + "->" + d;
    assert x[|a|] == '-' && x[|a| + 1] == '>' && y[..|c|] == c && y[|c|] == '-';
    assert !OccursAt(c, "->", |a|);
  }

  /** All paths the watcher knows of are free of arrows. */
  ghost predicate ArrowFreeState(s: State) {
    forall id, rel | 0 <= id < |s.pool| && rel in Touched(s.pool[id].job) :: ArrowFree(rel)
  }

  lemma NothingLost(s: State, rel: string)
    requires Shape(s) && ArrowFreeState(s) && ArrowFree(rel)
    ensures !LosesEvent(s, rel)
  {
    var away := PairedWith(s, rel);
    if away.Some? {
      var key := RenameKeyOf(away.value, rel);
      assert s.pool[s.pending.value].job.rel == away.value;
      if key in s.timers {
        assert TimerOK(s, key);
        var job := s.pool[s.timers[key]].job;
        assert job.oldRel in Touched(job);
        RenameKeysDiffer(away.value, rel, job.oldRel, job.newRel);
      }
    }
  }

  lemma CancelArrowFree(s: State, key: Key)
    requires ArrowFreeState(s)
    ensures ArrowFreeState(CancelTimer(s, key)) && ArrowFreeState(CancelPending(s))
  {
  }

  lemma ArmArrowFree(s: State, t: State, job: Job)
    requires ArrowFreeState(s) && |t.pool| == |s.pool| + 1 && t.pool[..|s.pool|] == s.pool
    requires t.pool[|s.pool|].job == job && forall rel | rel in Touched(job) :: ArrowFree(rel)
    ensures ArrowFreeState(t)
  {
    assert forall i | 0 <= i < |s.pool| :: t.pool[i] == s.pool[i];
  }

  lemma ScheduleArrowFree(s: State, job: Job)
    requires ArrowFreeState(s) && forall rel | rel in Touched(job) :: ArrowFree(rel)
    ensures ArrowFreeState(Schedule(s, job))
  {
    CancelArrowFree(s, KeyOf(job));
    if !s.closed {
      ArmArrowFree(CancelTimer(s, KeyOf(job)), Schedule(s, job), job);
    }
  }

  lemma PendingArrowFree(s: State)
    requires ArrowFreeState(s) && PendingJob(s).Some?
    ensures ArrowFree(PendingJob(s).value.rel)
  {
    assert PendingJob(s).value.rel in Touched(s.pool[s.pending.value].job);
  }

  lemma RenameAwayArrowFree(s: State, rel: string)
    requires ArrowFreeState(s) && ArrowFree(rel)
    ensures ArrowFreeState(OnRenameAway(s, rel))
  {
    CancelArrowFree(s, Key(ModifyKey, rel));
    if PendingJob(s).Some? {
      PendingArrowFree(s);
      ScheduleArrowFree(CancelPending(s), PendingJob(s).value);
    }
    CancelArrowFree(Flush(s), Key(ModifyKey, rel));
    var t := Bump(CancelTimer(Flush(s), Key(ModifyKey, rel)), rel);
    ArmArrowFree(t, OnRenameAway(s, rel), Delete(rel, Gen(t, rel)));
  }

  lemma CreateArrowFree(s: State, rel: string)
    requires ArrowFreeState(s) && ArrowFree(rel)
    ensures ArrowFreeState(OnCreate(s, rel))
  {
    var t := CancelTimer(s, Key(DeleteKey, rel));
    CancelArrowFree(s, Key(DeleteKey, rel));
    if PendingJob(t).Some? {
      PendingArrowFree(t);
      var u, away := CancelPending(t), PendingJob(t).value.rel;
      CancelArrowFree(t, Key(DeleteKey, rel));
      CancelArrowFree(u, Key(ModifyKey, away));
      var v := Bump(Bump(CancelTimer(u, Key(ModifyKey, away)), away), rel);
      ScheduleArrowFree(v, Rename(away, rel, Gen(v, away), Gen(v, rel)));
    }
  }

  lemma OnePathArrowFree(s: State, drop: Key, rel: string, job: Job)
    requires ArrowFreeState(s) && Touched(job) == {rel} && ArrowFree(rel)
    ensures ArrowFreeState(Schedule(Bump(CancelPendingOn(CancelTimer(s, drop), rel), rel), job))
    ensures ArrowFreeState(Schedule(Bump(CancelTimer(s, drop), rel), job))
  {
    var t := CancelTimer(s, drop);
    CancelArrowFree(s, drop);
    CancelArrowFree(t, drop);
    ScheduleArrowFree(Bump(CancelPendingOn(t, rel), rel), job);
    ScheduleArrowFree(Bump(t, rel), job);
  }

  ghost predicate ArrowFreeAll(s: State) {
    ArrowFreeState(s) && (s.loop.Handling? ==> ArrowFree(s.loop.rel))
  }

  lemma LoopAfter(s: State, l: Label)
    requires Enabled(s, l)
    ensures Apply(s, l).loop.Handling? ==> l == Create(Apply(s, l).loop.rel) || Apply(s, l).loop == s.loop
  {
  }

  lemma StepArrowFree(s: State, l: Label)
    requires ArrowFreeAll(s) && Enabled(s, l) && ArrowFreeLabel(l)
    ensures ArrowFreeAll(Apply(s, l))
  {
    LoopAfter(s, l);
    hide Apply;
    StepArrowFreeState(s, l);
  }

  lemma StepArrowFreeState(s: State, l: Label)
    requires ArrowFreeAll(s) && Enabled(s, l) && ArrowFreeLabel(l)
    ensures ArrowFreeState(Apply(s, l))
  {
    if l.Write? {
      var t := Bump(CancelPendingOn(CancelTimer(s, Key(DeleteKey, l.rel)), l.rel), l.rel);
      OnePathArrowFree(s, Key(DeleteKey, l.rel), l.rel, Modify(l.rel, Gen(t, l.rel)));
    } else if l.Remove? {
      var t := Bump(CancelPendingOn(CancelTimer(s, Key(ModifyKey, l.rel)), l.rel), l.rel);
      OnePathArrowFree(s, Key(ModifyKey, l.rel), l.rel, Delete(l.rel, Gen(t, l.rel)));
    } else if l.RenameAway? {
      RenameAwayArrowFree(s, l.rel);
    } else if l.Create? {
      CreateArrowFree(s, l.rel);
    } else if l.CreateRest? {
      var rel, i := s.loop.rel, s.(loop := Idle);
      OnePathArrowFree(i, Key(DeleteKey, rel), rel,
        Modify(rel, Gen(Bump(CancelTimer(i, Key(DeleteKey, rel)), rel), rel)));
    }
  }

  /** Only a `Create` can lose an event, by arming a rename over another one with the same key. */
  ghost predicate Loses(s: State, l: Label) { l.Create? && LosesEvent(s, l.rel) }

  ghost predicate KeepsEvents(ls: seq<Label>) { forall k | 0 <= k < |ls| :: !Loses(After(ls[..k]), ls[k]) }

  lemma {:induction false} KeepsPrefix(ls: seq<Label>)
    requires KeepsEvents(ls) && ls != []
    ensures var n := |ls| - 1; KeepsEvents(ls[..n]) && !Loses(After(ls[..n]), ls[n])
  {
    hide After, Loses;
    var n := |ls| - 1;
    forall k | 0 <= k < n ensures !Loses(After(ls[..n][..k]), ls[..n][k]) {
      assert ls[..n][..k] == ls[..k];
    }
  }

  lemma {:induction false} KeepsSnoc(ls: seq<Label>)
    requires ls != [] && var n := |ls| - 1; KeepsEvents(ls[..n]) && !Loses(After(ls[..n]), ls[n])
    ensures KeepsEvents(ls)
  {
    hide After, Loses;
    var n := |ls| - 1;
    forall k | 0 <= k < |ls| ensures !Loses(After(ls[..k]), ls[k]) {
      if k < n {
        assert ls[..n][..k] == ls[..k] && ls[..n][k] == ls[k];
      }
    }
  }

  lemma {:induction false} RunGood(ls: seq<Label>)
    requires IsRun(ls) && KeepsEvents(ls)
    ensures Good(After(ls), {})
  {
    hide Apply, Good, Enabled, LosesEvent, KeepsEvents;
    if ls == [] {
      InitialGood();
    } else {
      KeepsPrefix(ls);
      RunGood(ls[..|ls| - 1]);
      StepGood(After(ls[..|ls| - 1]), ls[|ls| - 1], {});
    }
  }

  /** In every reachable open state the newest event of each path is in the hands of the loop, between the two
      sections of a `Create`, or is held by exactly one timer: armed or fired in its place, running,
      delivered, or dropped by its disk check. This holds for every run in which no event is lost. */
  lemma {:induction false} WatcherCoverage(ls: seq<Label>, rel: string)
    requires IsRun(ls) && KeepsEvents(ls)
    requires var s := After(ls); !s.closed && Gen(s, rel) > 0
    ensures var s := After(ls);
      || s.loop == Handling(rel)
      || exists id :: Holds(s, id, rel, Gen(s, rel)) && forall j | Holds(s, j, rel, Gen(s, rel)) :: j == id
  {
    RunGood(ls);
    hide After, IsRun, KeepsEvents;
    var s := After(ls);
    if s.loop != Handling(rel) {
      assert Covered(s, rel);
      var id :| Holds(s, id, rel, Gen(s, rel));
    }
  }

  /** The condition is exact: in an open state that a run without loss has reached, a `Create` keeps the
      newest events held if and only if it loses none. */
  lemma {:induction false} CoverageKeptExactly(ls: seq<Label>, rel: string)
    requires IsRun(ls) && KeepsEvents(ls) && !After(ls).closed && Enabled(After(ls), Create(rel))
    ensures Coverage(OnCreate(After(ls), rel), {}) <==> !LosesEvent(After(ls), rel)
  {
    RunGood(ls);
    hide After, IsRun, KeepsEvents, Coverage, OnCreate;
    if LosesEvent(After(ls), rel) {
      CreateLoses(After(ls), rel);
    } else {
      CreateGood(After(ls), rel, {});
      assert Good(OnCreate(After(ls), rel), {});
    }
  }

  lemma {:induction false} NothingYet()
    ensures KeepsEvents([]) && ArrowFreeAll(After([]))
  {
  }

  /** Runs over paths without an arrow lose nothing. */
  lemma {:induction false} ArrowFreeRun(ls: seq<Label>)
    requires IsRun(ls) && forall l | l in ls :: ArrowFreeLabel(l)
    ensures KeepsEvents(ls) && ArrowFreeAll(After(ls))
  {
    hide Apply, Shape, Account, OneHolder, Coverage, Enabled, LosesEvent, KeepsEvents, ArrowFreeState, ArrowFree;
    if ls == [] {
      NothingYet();
    } else {
      var s, l := After(ls[..|ls| - 1]), ls[|ls| - 1];
      ArrowFreeRun(ls[..|ls| - 1]);
      RunGood(ls[..|ls| - 1]);
      assert l in ls && ArrowFreeLabel(l);
      StepArrowFree(s, l);
      if l.Create? {
        NothingLost(s, l.rel);
      }
      KeepsSnoc(ls);
    }
  }

  lemma {:induction false} StepAt(ls: seq<Label>, n: nat, s: State, t: State)
    requires n < |ls| && IsRun(ls[..n]) && After(ls[..n]) == s && Enabled(s, ls[n]) && Apply(s, ls[n]) == t
    ensures IsRun(ls[..n + 1]) && After(ls[..n + 1]) == t
  {
    assert ls[..n + 1][..n] == ls[..n];
  }

  const COLLIDING: seq<Label> := [RenameAway("a"), Create("b->c"), RenameAway("a->b"), Create("c")]
  const AWAY: Timer := Timer(PendingSlot, Delete("a", 1), Armed, false)
  const COLLIDING_KEY: Key := Key(RenameKey, "a->b->c")
  const PAIRED: Timer := Timer(Keyed(COLLIDING_KEY), Rename("a", "b->c", 2, 1), Armed, false)
  const ONE_AWAY: State := State(map[], map["a" := 1], Some(0), false, [AWAY], 2, Idle, false, [])
  const ONE_PAIRED: State :=
    State(map[COLLIDING_KEY := 1], map["a" := 2, "b->c" := 1], None, false, [StoppedTimer(AWAY), PAIRED], 2, Idle,
      false, [])

  /** The loss is real: two renames whose arrows fall together. The second one cancels the timer of the first,
      and after that a newest event is in nobody's hands, in an open state with the loop at rest. */
  lemma ArrowsCollide()
    ensures IsRun(COLLIDING) && var s := After(COLLIDING);
      !s.closed && !s.loop.Handling? && exists rel :: Gen(s, rel) > 0 && !Covered(s, rel)
  {
    hide After, IsRun, OnRenameAway, OnCreate, LosesEvent, PairedWith, Good;
    CollideRun();
    CollideStep3(ONE_PAIRED);
    var s3 := After(COLLIDING[..3]);
    assert s3.pool[1] == s3.pool[..2][1];
    CollideLoses(s3);
    CollideGood();
    CreateLoses(s3, "c");
    CreateAtRest(s3, "c");
    StepAt(COLLIDING, 3, s3, OnCreate(s3, "c"));
    assert COLLIDING[..4] == COLLIDING;
  }

  lemma CreateAtRest(s: State, rel: string)
    requires LosesEvent(s, rel) && s.loop == Idle
    ensures OnCreate(s, rel).loop == Idle && OnCreate(s, rel).closed == s.closed
  {
    CancelSameAt(s, Key(DeleteKey, rel), Key(RenameKey, ""));
  }

  lemma CollideGood()
    ensures Good(OnRenameAway(ONE_PAIRED, "a->b"), {})
  {
    hide Good, OnRenameAway, OnCreate, LosesEvent;
    InitialGood();
    CollideStep1();
    CollideStep2();
    CollideKeeps();
    RenameAwayGood(INITIAL, "a", {});
    CreateGood(ONE_AWAY, "b->c", {});
    RenameAwayGood(ONE_PAIRED, "a->b", {});
  }

  lemma CollideKeeps()
    ensures !LosesEvent(ONE_AWAY, "b->c")
  {
  }

  lemma CollideLoses(s: State)
    requires s.timers == map[Key(RenameKey, "a->b->c") := 1] && |s.pool| == 3
    requires s.pool[1].job == Rename("a", "b->c", 2, 1) && Gen(s, "a") == 2 && PairedWith(s, "c") == Some("a->b")
    ensures LosesEvent(s, "c")
  {
    assert "a->b" + "->" + "c" == "a->b->c" && "a" != "a->b" && "a" != "c";
    assert Covers(s.pool[1].job, "a", Gen(s, "a"));
  }

  lemma CollideRun()
    ensures IsRun(COLLIDING[..3]) && After(COLLIDING[..3]) == OnRenameAway(ONE_PAIRED, "a->b")
  {
    EmptyRun();
    hide OnRenameAway, OnCreate, After, IsRun;
    CollideStep1();
    CollideStep2();
    StepAt(COLLIDING, 0, INITIAL, ONE_AWAY);
    StepAt(COLLIDING, 1, ONE_AWAY, ONE_PAIRED);
    StepAt(COLLIDING, 2, ONE_PAIRED, OnRenameAway(ONE_PAIRED, "a->b"));
  }

  lemma EmptyRun()
    ensures COLLIDING[..0] == [] && IsRun([]) && After([]) == INITIAL
  {
  }

  lemma CollideStep1()
    ensures OnRenameAway(INITIAL, "a") == ONE_AWAY
  {
    assert Flush(INITIAL) == INITIAL;
  }

  lemma CollideStep2()
    ensures OnCreate(ONE_AWAY, "b->c") == ONE_PAIRED
  {
    assert "a" + "->" + "b->c" == "a->b->c" && |"a"| != |"b->c"|;
    var t := CancelTimer(ONE_AWAY, Key(DeleteKey, "b->c"));
    assert t == ONE_AWAY && PendingJob(t) == Some(Delete("a", 1));
    var u := CancelPending(t);
    assert u.pool == [StoppedTimer(AWAY)] && u.wg == 1;
    var v := Bump(Bump(CancelTimer(u, Key(ModifyKey, "a")), "a"), "b->c");
    assert v.pathGen == map["a" := 2, "b->c" := 1];
    assert Schedule(v, Rename("a", "b->c", 2, 1)).timers == map[COLLIDING_KEY := 1];
  }

  lemma CollideStep3(s: State)
    requires s.pending.None? && !s.closed && |s.pool| == 2 && Gen(s, "a") == 2 && Key(ModifyKey, "a->b") !in s.timers
    ensures var t := OnRenameAway(s, "a->b");
      && t.timers == s.timers && t.pool[..2] == s.pool && |t.pool| == 3 && Gen(t, "a") == 2
      && t.loop == s.loop && t.closed == s.closed
      && PairedWith(t, "c") == Some("a->b")
  {
    assert "a" != "a->b" && "c" != "a->b";
    assert Flush(s) == s;
  }
}
