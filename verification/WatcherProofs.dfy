/** What every run of the watcher keeps: the wait-group account, one owner for each newest event, at
    most one delivery per event. */
module WatcherProofs {
  import opened Options
  import opened Watcher

  // ----- Ownership of events -------------------------------------------------------------------

  /** An event is a path with the generation it created; a paired rename is an event of two paths. */
  predicate Covers(job: Job, rel: string, g: int) {
    match job
    case Modify(r, x) => r == rel && x == g
    case Delete(r, x) => r == rel && x == g
    case Rename(o, n, x, y) => (o == rel && x == g) || (n == rel && y == g)
  }

  /** The callback can still reach the handler. */
  predicate Live(s: State, id: nat) {
    id < |s.pool| &&
    match s.pool[id].phase
    case Armed => InHome(s, id)
    case Fired => InHome(s, id)
    case Returning(_) => false
    case Over(_) => false
    case _ => true
  }

  /** Live, or its event has been delivered, or dropped because the path exists. */
  predicate Settled(s: State, id: nat) {
    id < |s.pool| &&
    match s.pool[id].phase
    case Returning(how) => how == Delivered || how == Dropped
    case Over(how) => how == Delivered || how == Dropped
    case _ => Live(s, id)
  }

  ghost predicate Holds(s: State, id: nat, rel: string, g: int) {
    id < |s.pool| && Covers(s.pool[id].job, rel, g) && Settled(s, id)
  }

  ghost predicate Covered(s: State, rel: string) { exists id :: Holds(s, id, rel, Gen(s, rel)) }

  /** While the watcher is open, the newest event of every path outside `loose` is held. */
  ghost predicate Coverage(s: State, loose: set<string>) {
    !s.closed ==>
      forall rel | Gen(s, rel) > 0 && rel !in loose && s.loop != Handling(rel) :: Covered(s, rel)
  }

  ghost predicate OneHolder(s: State) {
    forall i, j, rel, g | Holds(s, i, rel, g) && Holds(s, j, rel, g) :: i == j
  }

  // ----- Shape ---------------------------------------------------------------------------------------

  predicate Waiting(t: Timer) { t.phase == Armed || t.phase == Fired }

  predicate TimerOK(s: State, key: Key) {
    && key in s.timers && s.timers[key] < |s.pool|
    && var t := s.pool[s.timers[key]];
       t.home == Keyed(key) && KeyOf(t.job) == key && Waiting(t)
  }

  predicate PendingOK(s: State) {
    s.pending.Some? ==>
      && s.pending.value < |s.pool|
      && var t := s.pool[s.pending.value];
         && t.home == PendingSlot && t.job.Delete?
         && (!s.closed ==> Waiting(t) && t.job.gen == Gen(s, t.job.rel))
  }

  ghost predicate PoolOK(s: State) {
    forall id: nat | id < |s.pool| ::
      var t := s.pool[id];
      && (t.done <==> t.phase.Over?)
      && (t.phase in {Seen, Missing, Confirmed} ==> t.job.Delete?)
      && (!s.closed && t.phase == Armed ==> InHome(s, id))
  }

  ghost predicate GensOK(s: State) {
    forall id: nat, rel, g | id < |s.pool| && Covers(s.pool[id].job, rel, g) :: 1 <= g <= Gen(s, rel)
  }

  ghost predicate Shape(s: State) {
    && (forall key | key in s.timers :: TimerOK(s, key))
    && PendingOK(s) && PoolOK(s) && GensOK(s)
    && (s.closed ==> s.timers == map[])
    && (s.loop.Handling? ==> s.pending.None?)
  }

  /** The wait group counts the loop and every timer that is not done. */
  predicate Account(s: State) {
    && s.wg == Undone(s.pool) + (if s.loop.Exited? then 0 else 1)
    && (s.returned ==> s.closed && s.wg == 0)
  }

  ghost predicate Good(s: State, loose: set<string>) {
    Shape(s) && Account(s) && OneHolder(s) && Coverage(s, loose)
  }

  lemma {:induction false} UndoneUpdate(pool: seq<Timer>, id: nat, t: Timer)
    requires id < |pool|
    ensures Undone(pool[id := t]) + (if pool[id].done then 0 else 1) == Undone(pool) + (if t.done then 0 else 1)
  {
    var n := |pool| - 1;
    if id < n {
      UndoneUpdate(pool[..n], id, t);
      assert pool[id := t][..n] == pool[..n][id := t];
    } else {
      assert pool[id := t][..n] == pool[..n];
    }
  }

  lemma UndoneAppend(pool: seq<Timer>, t: Timer)
    ensures Undone(pool + [t]) == Undone(pool) + (if t.done then 0 else 1)
  {
    assert (pool + [t])[..|pool|] == pool;
  }

  // ----- Primitive operations ------------------------------------------------------------------------

  /** `t` is `s` with timer `id` stopped if it was armed, and out of its home. */
  ghost predicate Cancelled(s: State, id: nat, t: State) {
    && id < |s.pool| && t.pool == s.pool[id := StoppedTimer(s.pool[id])]
    && t.pathGen == s.pathGen && t.closed == s.closed && t.loop == s.loop
    && (forall j: nat | j < |s.pool| && j != id :: InHome(t, j) <==> InHome(s, j))
    && !InHome(t, id)
  }

  /** Coverage follows the holders of newest events. */
  lemma KeepCovered(s: State, t: State, loose: set<string>)
    requires Coverage(s, loose) && t.pathGen == s.pathGen && t.closed == s.closed
    requires t.loop == s.loop || (!s.loop.Handling? && !t.loop.Handling?)
    requires !s.closed ==> forall j, rel | Holds(s, j, rel, Gen(s, rel)) && rel !in loose ::
        Holds(t, j, rel, Gen(s, rel))
    ensures Coverage(t, loose)
  {
    if !s.closed {
      forall rel | Gen(t, rel) > 0 && rel !in loose && t.loop != Handling(rel) ensures Covered(t, rel) {
        assert Covered(s, rel);
        var j :| Holds(s, j, rel, Gen(s, rel));
        assert Holds(t, j, rel, Gen(t, rel));
      }
    }
  }

  /** Cancelling loses at most the newest events of the timer's own paths. */
  lemma CancelledGood(s: State, id: nat, t: State, loose: set<string>)
    requires Cancelled(s, id, t) && OneHolder(s) && Coverage(s, loose)
    requires Waiting(s.pool[id])
    requires forall rel | Covers(s.pool[id].job, rel, Gen(s, rel)) :: rel in loose
    ensures OneHolder(t) && Coverage(t, loose)
    ensures forall j: nat, rel, g | Holds(t, j, rel, g) :: Holds(s, j, rel, g) && j != id
  {
    assert forall j, rel, g :: Holds(t, j, rel, g) ==> Holds(s, j, rel, g) && j != id;
    assert forall j, rel, g :: Holds(s, j, rel, g) && j != id ==> Holds(t, j, rel, g);
    KeepCovered(s, t, loose);
  }

  lemma CancelTimerGood(s: State, key: Key, loose: set<string>)
    requires Good(s, loose)
    requires key in s.timers ==> forall rel | Covers(s.pool[s.timers[key]].job, rel, Gen(s, rel)) :: rel in loose
    ensures var t := CancelTimer(s, key);
      && Good(t, loose) && key !in t.timers && t.pathGen == s.pathGen && t.pending == s.pending
      && |t.pool| == |s.pool| && (forall i | 0 <= i < |s.pool| :: t.pool[i].job == s.pool[i].job)
      && (forall i: nat, rel, g | Holds(t, i, rel, g) :: Holds(s, i, rel, g))
  {
    if key in s.timers {
      hide Undone, Holds, OneHolder, Coverage;
      assert TimerOK(s, key);
      CancelKeyShape(s, key);
      hide Shape, Account, CancelTimer;
      CancelledGood(s, s.timers[key], CancelTimer(s, key), loose);
    }
  }

  lemma CancelKeyShape(s: State, key: Key)
    requires Shape(s) && Account(s) && key in s.timers
    ensures var t := CancelTimer(s, key);
      Shape(t) && Account(t) && Cancelled(s, s.timers[key], t) && key !in t.timers && t.pending == s.pending
  {
    hide Undone;
    var t := CancelTimer(s, key);
    assert TimerOK(s, key);
    var id := s.timers[key];
    UndoneUpdate(s.pool, id, StoppedTimer(s.pool[id]));
    assert t.pool == s.pool[id := StoppedTimer(s.pool[id])];
    forall j: nat | j < |s.pool| && j != id ensures InHome(t, j) <==> InHome(s, j) {
    }
    forall k | k in t.timers ensures TimerOK(t, k) {
      assert TimerOK(s, k);
    }
  }

  lemma CancelPendingGood(s: State, loose: set<string>)
    requires Good(s, loose)
    requires PendingJob(s).Some? ==> PendingJob(s).value.rel in loose
    ensures var t := CancelPending(s);
      && Good(t, loose) && t.pending.None? && t.pathGen == s.pathGen && t.timers == s.timers
      && |t.pool| == |s.pool| && (forall i | 0 <= i < |s.pool| :: t.pool[i].job == s.pool[i].job)
      && t.closed == s.closed && t.loop == s.loop
      && (forall i: nat, rel, g | Holds(t, i, rel, g) :: Holds(s, i, rel, g) && (s.closed || s.pending != Some(i)))
  {
    hide Undone, OneHolder, Coverage;
    var t := CancelPending(s);
    if s.pending.Some? {
      var id := s.pending.value;
      UndoneUpdate(s.pool, id, StoppedTimer(s.pool[id]));
      assert t.pool == s.pool[id := StoppedTimer(s.pool[id])];
      assert Cancelled(s, id, t);
      if s.closed {
        ClosedCancelled(s, id, t, loose);
      } else {
        hide Holds;
        CancelledGood(s, id, t, loose);
      }
      forall k | k in t.timers ensures TimerOK(t, k) {
        assert TimerOK(s, k);
      }
    }
  }

  lemma ClosedCancelled(s: State, id: nat, t: State, loose: set<string>)
    requires Cancelled(s, id, t) && OneHolder(s) && s.closed
    ensures OneHolder(t) && Coverage(t, loose)
    ensures forall j: nat, rel, g | Holds(t, j, rel, g) :: Holds(s, j, rel, g)
  {
    assert forall j, rel, g :: Holds(t, j, rel, g) ==> Holds(s, j, rel, g);
  }

  ghost predicate Fresh(s: State, rel: string) {
    forall id: nat, g | id < |s.pool| && Covers(s.pool[id].job, rel, g) :: g < Gen(s, rel)
  }

  lemma BumpGood(s: State, rel: string, loose: set<string>)
    requires Good(s, loose) && !PendingOn(s, rel)
    ensures var t := Bump(s, rel);
      && Good(t, loose + {rel}) && Fresh(t, rel)
      && (forall r | r != rel :: Gen(t, r) == Gen(s, r)) && Gen(t, rel) == Gen(s, rel) + 1
      && (forall i, r, g | Holds(t, i, r, g) :: Holds(s, i, r, g))
  {
    var t := Bump(s, rel);
    assert forall id: nat :: InHome(t, id) <==> InHome(s, id);
    assert forall id, r, g :: Holds(t, id, r, g) <==> Holds(s, id, r, g);
    forall k | k in t.timers ensures TimerOK(t, k) {
      assert TimerOK(s, k);
    }
    if !s.closed {
      forall r | Gen(t, r) > 0 && r !in loose + {rel} && t.loop != Handling(r) ensures Covered(t, r) {
        assert Covered(s, r);
        var j :| Holds(s, j, r, Gen(s, r));
        assert Holds(t, j, r, Gen(t, r));
      }
    }
  }

  /** The paths of a job. */
  function Touched(job: Job): set<string> {
    match job
    case Rename(o, n, _, _) => {o, n}
    case _ => {job.rel}
  }

  ghost predicate Newest(s: State, job: Job) {
    forall rel | rel in Touched(job) :: Gen(s, rel) > 0 && Covers(job, rel, Gen(s, rel))
  }

  /** `t` is `s` with a new armed timer, which is in its home. */
  ghost predicate NewlyArmed(s: State, t: State, job: Job) {
    && |t.pool| == |s.pool| + 1 && t.pool[..|s.pool|] == s.pool
    && t.pool[|s.pool|].job == job && t.pool[|s.pool|].phase == Armed && !t.pool[|s.pool|].done
    && t.pathGen == s.pathGen && t.closed == s.closed && t.loop == s.loop
    && (forall j: nat | j < |s.pool| :: InHome(t, j) <==> InHome(s, j))
    && InHome(t, |s.pool|)
  }

  lemma ArmedGood(s: State, t: State, job: Job, loose: set<string>)
    requires NewlyArmed(s, t, job) && OneHolder(s) && Coverage(s, loose)
    requires Newest(s, job) && Touched(job) <= loose && (job.Rename? ==> job.oldRel != job.newRel)
    requires forall id, rel, g | Covers(job, rel, g) :: !Holds(s, id, rel, g)
    ensures OneHolder(t) && Coverage(t, loose - Touched(job))
  {
    var n := |s.pool|;
    assert forall j: nat | j < n :: t.pool[j] == t.pool[..n][j];
    assert forall j: nat, rel, g | j != n :: Holds(t, j, rel, g) <==> Holds(s, j, rel, g);
    if !s.closed {
      forall rel | Gen(t, rel) > 0 && rel !in loose - Touched(job) && t.loop != Handling(rel) ensures Covered(t, rel) {
        if rel in Touched(job) {
          assert Holds(t, n, rel, Gen(t, rel));
        } else {
          assert Covered(s, rel);
          var j :| Holds(s, j, rel, Gen(s, rel));
          assert Holds(t, j, rel, Gen(t, rel));
        }
      }
    }
  }

  ghost predicate Clash(s: State, job: Job, loose: set<string>) {
    KeyOf(job) in s.timers && s.timers[KeyOf(job)] < |s.pool|
    && exists rel :: Covers(s.pool[s.timers[KeyOf(job)]].job, rel, Gen(s, rel)) && rel !in loose
  }

  /** What arming keeps apart from ownership. */
  lemma ArmedShape(s: State, t: State, job: Job)
    requires Shape(s) && Account(s) && NewlyArmed(s, t, job)
    requires forall rel, g | Covers(job, rel, g) :: 1 <= g <= Gen(s, rel)
    ensures PoolOK(t) && GensOK(t) && Undone(t.pool) == Undone(s.pool) + 1
    ensures forall key | key in s.timers && key in t.timers && t.timers[key] == s.timers[key] :: TimerOK(t, key)
  {
    var n := |s.pool|;
    assert t.pool == s.pool + [t.pool[n]];
    UndoneAppend(s.pool, t.pool[n]);
    assert forall j: nat | j < n :: t.pool[j] == s.pool[j];
    forall key | key in s.timers && key in t.timers && t.timers[key] == s.timers[key] ensures TimerOK(t, key) {
      assert TimerOK(s, key);
    }
  }

  lemma ScheduleArms(c: State, job: Job)
    requires Shape(c) && KeyOf(job) !in c.timers && !c.closed
    ensures NewlyArmed(c, Schedule(c, job), job) && TimerOK(Schedule(c, job), KeyOf(job))
  {
    var key, t := KeyOf(job), Schedule(c, job);
    forall j: nat | j < |c.pool| ensures InHome(t, j) <==> InHome(c, j) {
      assert t.pool[j] == c.pool[j];
    }
  }

  lemma NewestGens(s: State, job: Job)
    requires Newest(s, job) && (job.Rename? ==> job.oldRel != job.newRel)
    ensures forall rel, g | Covers(job, rel, g) :: 1 <= g <= Gen(s, rel)
  {
    forall rel, g | Covers(job, rel, g) ensures 1 <= g <= Gen(s, rel) {
      assert rel in Touched(job);
    }
  }

  lemma ScheduleShape(c: State, t: State, job: Job)
    requires Shape(c) && Account(c) && NewlyArmed(c, t, job) && !c.closed
    requires t == Schedule(c, job) && KeyOf(job) !in c.timers
    requires PoolOK(t) && GensOK(t) && Undone(t.pool) == Undone(c.pool) + 1 && TimerOK(t, KeyOf(job))
    requires forall key | key in c.timers && key in t.timers && t.timers[key] == c.timers[key] :: TimerOK(t, key)
    ensures Shape(t) && Account(t)
  {
    hide PoolOK, GensOK, Undone;
    assert forall key :: key in t.timers ==> key == KeyOf(job) || (key in c.timers && t.timers[key] == c.timers[key]);
    assert forall j: nat | j < |c.pool| :: t.pool[j] == c.pool[j];
  }

  lemma ScheduleGood(s: State, job: Job, loose: set<string>)
    requires Good(s, loose) && !Clash(s, job, loose)
    requires !s.closed ==> Newest(s, job) && Touched(job) <= loose && (job.Rename? ==> job.oldRel != job.newRel)
    requires !s.closed ==> forall id, rel, g | Covers(job, rel, g) :: !Holds(s, id, rel, g)
    ensures var t := Schedule(s, job);
      && Good(t, loose - Touched(job)) && t.pathGen == s.pathGen && t.closed == s.closed && t.pending == s.pending
      && t.loop == s.loop
  {
    if !s.closed {
      var key := KeyOf(job);
      CancelTimerGood(s, key, loose);
      var c, t := CancelTimer(s, key), Schedule(s, job);
      assert t == Schedule(c, job);
      hide OneHolder, Coverage, PoolOK, GensOK, Undone, PendingOK, TimerOK, CancelTimer, Schedule;
      NewestGens(c, job);
      ScheduleArms(c, job);
      ArmedShape(c, t, job);
      ScheduleShape(c, t, job);
      ArmedGood(c, t, job, loose);
    }
  }

  // ----- Events ----------------------------------------------------------------------------------------

  /** A timer under a `modify:` or `delete:` key stands for events of that key's path only. */
  lemma OwnPathOnly(s: State, key: Key)
    requires Shape(s) && key in s.timers && key.kind != RenameKey
    ensures TimerOK(s, key) && Touched(s.pool[s.timers[key]].job) == {key.rel}
    ensures forall rel, g | Covers(s.pool[s.timers[key]].job, rel, g) :: rel == key.rel
  {
    assert TimerOK(s, key);
  }

  lemma DropKeyGood(s: State, key: Key, loose: set<string>)
    requires Good(s, loose) && key.kind != RenameKey && key.rel in loose
    ensures var t := CancelTimer(s, key);
      && Good(t, loose) && key !in t.timers && t.pathGen == s.pathGen && t.pending == s.pending
      && t.closed == s.closed && t.loop == s.loop && PendingJob(t) == PendingJob(s)
  {
    if key in s.timers {
      OwnPathOnly(s, key);
    }
    CancelTimerGood(s, key, loose);
  }

  lemma CancelPendingOnGood(s: State, rel: string, loose: set<string>)
    requires Good(s, loose) && rel in loose
    ensures var t := CancelPendingOn(s, rel);
      Good(t, loose) && !PendingOn(t, rel) && t.pathGen == s.pathGen && t.closed == s.closed && t.loop == s.loop
  {
    if PendingOn(s, rel) {
      CancelPendingGood(s, loose);
    }
  }

  /** The common tail of an event on one path: a new generation, and a timer for it. */
  lemma NewEventGood(s: State, rel: string, job: Job, loose: set<string>)
    requires Good(s, loose + {rel}) && !PendingOn(s, rel)
    requires job == Modify(rel, Gen(s, rel) + 1) || job == Delete(rel, Gen(s, rel) + 1)
    ensures var t := Schedule(Bump(s, rel), job);
      Good(t, loose) && t.closed == s.closed && t.pending == s.pending && t.loop == s.loop
  {
    var wide := loose + {rel};
    BumpGood(s, rel, wide);
    var t := Bump(s, rel);
    assert wide + {rel} == wide;
    if KeyOf(job) in t.timers {
      OwnPathOnly(t, KeyOf(job));
    }
    ScheduleGood(t, job, wide);
    Loosen(Schedule(t, job), wide - Touched(job), loose);
  }

  lemma Loosen(s: State, a: set<string>, b: set<string>)
    requires Good(s, a) && a <= b
    ensures Good(s, b)
  {
  }

  lemma WriteGood(s: State, rel: string, loose: set<string>)
    requires Good(s, loose)
    ensures Good(OnWrite(s, rel), loose)
  {
    hide Shape, Account, OneHolder, Coverage, CancelTimer, CancelPending, Schedule;
    Loosen(s, loose, loose + {rel});
    DropKeyGood(s, Key(DeleteKey, rel), loose + {rel});
    var t := CancelTimer(s, Key(DeleteKey, rel));
    CancelPendingOnGood(t, rel, loose + {rel});
    var u := CancelPendingOn(t, rel);
    NewEventGood(u, rel, Modify(rel, Gen(u, rel) + 1), loose);
  }

  lemma RemoveGood(s: State, rel: string, loose: set<string>)
    requires Good(s, loose)
    ensures Good(OnRemove(s, rel), loose)
  {
    hide Shape, Account, OneHolder, Coverage, CancelTimer, CancelPending, Schedule;
    Loosen(s, loose, loose + {rel});
    DropKeyGood(s, Key(ModifyKey, rel), loose + {rel});
    var t := CancelTimer(s, Key(ModifyKey, rel));
    CancelPendingOnGood(t, rel, loose + {rel});
    var u := CancelPendingOn(t, rel);
    NewEventGood(u, rel, Delete(rel, Gen(u, rel) + 1), loose);
  }

  /** A second rename-away turns the waiting one into a delete of the same event. */
  lemma FlushGood(s: State, loose: set<string>)
    requires Good(s, loose)
    ensures Good(Flush(s), loose) && Flush(s).pending.None? && Flush(s).pathGen == s.pathGen
    ensures Flush(s).loop == s.loop && Flush(s).closed == s.closed
  {
    if PendingJob(s).Some? {
      var job := PendingJob(s).value;
      var wide := loose + {job.rel};
      Loosen(s, loose, wide);
      CancelPendingGood(s, wide);
      var t := CancelPending(s);
      if KeyOf(job) in t.timers {
        OwnPathOnly(t, KeyOf(job));
      }
      if !s.closed {
        forall id: nat, rel, g | Covers(job, rel, g) ensures !Holds(t, id, rel, g) {
          assert Holds(s, s.pending.value, rel, g);
        }
        assert Covers(job, job.rel, job.gen);
      }
      ScheduleGood(t, job, wide);
      Loosen(Flush(s), wide - Touched(job), loose);
    }
  }

  function ArmPending(s: State, job: Job): State { Arm(s, PendingSlot, job).(pending := Some(|s.pool|)) }

  lemma ArmPendingGood(s: State, rel: string, loose: set<string>)
    requires Good(s, loose + {rel}) && s.pending.None? && Gen(s, rel) > 0 && Fresh(s, rel) && s.loop == Idle
    ensures Good(ArmPending(s, Delete(rel, Gen(s, rel))), loose)
  {
    var job := Delete(rel, Gen(s, rel));
    var t := ArmPending(s, job);
    assert forall j: nat | j < |s.pool| :: t.pool[j] == s.pool[j];
    ArmedShape(s, t, job);
    ArmedGood(s, t, job, loose + {rel});
    Loosen(t, loose + {rel} - Touched(job), loose);
  }

  lemma RenameAwayGood(s: State, rel: string, loose: set<string>)
    requires Good(s, loose) && s.loop == Idle
    ensures Good(OnRenameAway(s, rel), loose)
  {
    FlushGood(s, loose);
    var f, wide := Flush(s), loose + {rel};
    Loosen(f, loose, wide);
    DropKeyGood(f, Key(ModifyKey, rel), wide);
    var c := CancelTimer(f, Key(ModifyKey, rel));
    BumpGood(c, rel, wide);
    assert wide + {rel} == wide;
    ArmPendingGood(Bump(c, rel), rel, loose);
  }

  /** Moving the loop between events and into or out of the handling of one. */
  lemma LoopGood(s: State, loose: set<string>, loop: Loop, loose': set<string>)
    requires Good(s, loose) && !loop.Exited? && !s.loop.Exited?
    requires loop.Handling? ==> s.pending.None?
    requires forall rel | s.loop == Handling(rel) || rel in loose :: rel in loose' || loop == Handling(rel)
    ensures Good(s.(loop := loop), loose')
  {
    var t := s.(loop := loop);
    assert forall id :: InHome(s, id) <==> InHome(t, id);
    assert forall id, rel, g :: Holds(s, id, rel, g) <==> Holds(t, id, rel, g);
    forall k | k in t.timers ensures TimerOK(t, k) {
      assert TimerOK(s, k);
    }
    if !s.closed {
      forall rel | Gen(t, rel) > 0 && rel !in loose' && t.loop != Handling(rel) ensures Covered(t, rel) {
        assert Covered(s, rel);
        var j :| Holds(s, j, rel, Gen(s, rel));
        assert Holds(t, j, rel, Gen(t, rel));
      }
    }
  }

  lemma CreateRestGood(s: State, loose: set<string>)
    requires Good(s, loose) && s.loop.Handling?
    ensures Good(OnCreateRest(s, s.loop.rel), loose)
  {
    hide *;
    RestCancelled(s, loose);
    RestIsNewEvent(s);
    var t := CancelTimer(s.(loop := Idle), Key(DeleteKey, s.loop.rel));
    NewEventGood(t, s.loop.rel, Modify(s.loop.rel, Gen(t, s.loop.rel) + 1), loose);
  }

  lemma RestIsNewEvent(s: State)
    requires s.loop.Handling?
    ensures var rel, t := s.loop.rel, CancelTimer(s.(loop := Idle), Key(DeleteKey, s.loop.rel));
      OnCreateRest(s, rel) == Schedule(Bump(t, rel), Modify(rel, Gen(t, rel) + 1))
  {
    hide CancelTimer, Schedule;
    BumpedGen(CancelTimer(s.(loop := Idle), Key(DeleteKey, s.loop.rel)), s.loop.rel);
  }

  lemma RestCancelled(s: State, loose: set<string>)
    requires Good(s, loose) && s.loop.Handling?
    ensures var t := CancelTimer(s.(loop := Idle), Key(DeleteKey, s.loop.rel));
      Good(t, loose + {s.loop.rel}) && !PendingOn(t, s.loop.rel)
  {
    assert s.pending.None?;
    LoopGood(s, loose, Idle, loose + {s.loop.rel});
    hide Good;
    DropKeyGood(s.(loop := Idle), Key(DeleteKey, s.loop.rel), loose + {s.loop.rel});
  }

  lemma BumpedGen(s: State, rel: string)
    ensures Gen(Bump(s, rel), rel) == Gen(s, rel) + 1
  {
  }

  /** The rename timer that a `Create` of `rel` would arm, if it pairs. */
  function PairedWith(s: State, rel: string): Option<string> {
    if PendingJob(s).Some? && PendingJob(s).value.rel != rel then Some(PendingJob(s).value.rel) else None
  }

  /** Arming that timer cancels another rename whose event is the newest of some other path. */
  ghost predicate LosesEvent(s: State, rel: string) {
    var away := PairedWith(s, rel);
    away.Some? && RenameKeyOf(away.value, rel) in s.timers && s.timers[RenameKeyOf(away.value, rel)] < |s.pool|
    && exists r :: r != rel && r != away.value
         && Covers(s.pool[s.timers[RenameKeyOf(away.value, rel)]].job, r, Gen(s, r))
  }

  /** The state just before the rename timer is armed. */
  function Unpaired(s: State, rel: string): State
    requires PendingJob(s).Some?
  {
    var away := PendingJob(s).value.rel;
    var u := CancelPending(CancelTimer(s, Key(DeleteKey, rel)));
    Bump(Bump(CancelTimer(u, Key(ModifyKey, away)), away), rel)
  }

  lemma UnpairedGood(s: State, rel: string, loose: set<string>)
    requires Good(s, loose) && s.loop == Idle && PairedWith(s, rel).Some?
    ensures var away, v := PairedWith(s, rel).value, Unpaired(s, rel);
      && Good(v, loose + {away, rel}) && Fresh(v, away) && Fresh(v, rel) && v.closed == s.closed && v.loop == s.loop
      && Gen(v, away) == Gen(s, away) + 1 && Gen(v, rel) == Gen(s, rel) + 1
      && (forall r | r != away && r != rel :: Gen(v, r) == Gen(s, r))
      && OnCreate(s, rel) == Schedule(v, Rename(away, rel, Gen(v, away), Gen(v, rel)))
  {
    var away := PairedWith(s, rel).value;
    var wide := loose + {away, rel};
    Loosen(s, loose, wide);
    DropKeyGood(s, Key(DeleteKey, rel), wide);
    var t := CancelTimer(s, Key(DeleteKey, rel));
    CancelPendingGood(t, wide);
    var u := CancelPending(t);
    DropKeyGood(u, Key(ModifyKey, away), wide);
    var w := CancelTimer(u, Key(ModifyKey, away));
    BumpGood(w, away, wide);
    assert wide + {away} == wide;
    var x := Bump(w, away);
    BumpGood(x, rel, wide);
    assert wide + {rel} == wide;
  }

  /** `t` knows the same jobs as `s`, and the same timer under `key`. */
  ghost predicate SameAt(s: State, t: State, key: Key) {
    && |t.pool| == |s.pool| && (forall i | 0 <= i < |s.pool| :: t.pool[i].job == s.pool[i].job)
    && (key in t.timers <==> key in s.timers) && (key in s.timers ==> t.timers[key] == s.timers[key])
  }

  lemma CancelSameAt(s: State, other: Key, key: Key)
    requires key != other
    ensures SameAt(s, CancelTimer(s, other), key) && SameAt(s, CancelPending(s), key)
  {
    CancelTimerSameAt(s, other, key);
    hide CancelTimer;
  }

  lemma CancelTimerSameAt(s: State, other: Key, key: Key)
    requires key != other
    ensures SameAt(s, CancelTimer(s, other), key)
  {
  }

  /** The steps before arming do not touch rename timers. */
  lemma UnpairedKeepsRenames(s: State, rel: string, key: Key)
    requires PendingJob(s).Some? && key.kind == RenameKey
    ensures SameAt(s, Unpaired(s, rel), key)
  {
    var away := PendingJob(s).value.rel;
    var t := CancelTimer(s, Key(DeleteKey, rel));
    var u := CancelPending(t);
    CancelSameAt(s, Key(DeleteKey, rel), key);
    CancelSameAt(t, Key(DeleteKey, rel), key);
    CancelSameAt(u, Key(ModifyKey, away), key);
  }

  /** An unpaired `Create` leaves its event to the second critical section. */
  lemma CreateUnpairedGood(s: State, rel: string, loose: set<string>)
    requires Good(s, loose) && s.loop == Idle && PairedWith(s, rel).None?
    ensures Good(OnCreate(s, rel), loose)
  {
    var wide := loose + {rel};
    Loosen(s, loose, wide);
    DropKeyGood(s, Key(DeleteKey, rel), wide);
    var t := CancelTimer(s, Key(DeleteKey, rel));
    CancelPendingGood(t, wide);
    LoopGood(CancelPending(t), wide, Handling(rel), loose);
    assert CancelPending(t).(loop := Handling(rel)) == OnCreate(s, rel);
  }

  lemma PairedGood(s: State, rel: string, loose: set<string>, wide: set<string>)
    requires Good(s, loose) && s.loop == Idle && PairedWith(s, rel).Some? && loose <= wide
    requires !Clash(Unpaired(s, rel), Rename(PairedWith(s, rel).value, rel, 0, 0),
        wide + {PairedWith(s, rel).value, rel})
    ensures Good(OnCreate(s, rel), wide)
  {
    hide Good, Schedule, Unpaired, CancelTimer, CancelPending;
    var away, v := PairedWith(s, rel).value, Unpaired(s, rel);
    UnpairedGood(s, rel, loose);
    var job := Rename(away, rel, Gen(v, away), Gen(v, rel));
    Loosen(v, loose + {away, rel}, wide + {away, rel});
    ScheduleGood(v, job, wide + {away, rel});
    Loosen(OnCreate(s, rel), wide + {away, rel} - Touched(job), wide);
  }

  /** What is not lost does not clash. */
  lemma NothingClashes(s: State, rel: string, loose: set<string>)
    requires Good(s, loose) && s.loop == Idle && PairedWith(s, rel).Some? && !LosesEvent(s, rel)
    ensures var away := PairedWith(s, rel).value; !Clash(Unpaired(s, rel), Rename(away, rel, 0, 0), loose + {away, rel})
  {
    hide Good, Unpaired, Covers, Schedule, OnCreate;
    var away, v := PairedWith(s, rel).value, Unpaired(s, rel);
    var key := RenameKeyOf(away, rel);
    UnpairedKeepsRenames(s, rel, key);
    UnpairedGood(s, rel, loose);
    if key in v.timers && v.timers[key] < |v.pool| {
      assert v.pool[v.timers[key]].job == s.pool[s.timers[key]].job;
      forall r | Covers(v.pool[v.timers[key]].job, r, Gen(v, r)) ensures r in loose + {away, rel} {
        assert r != away && r != rel ==> Gen(v, r) == Gen(s, r);
      }
    }
  }

  /** A `Create` keeps every newest event held, unless it loses one. */
  lemma CreateGood(s: State, rel: string, loose: set<string>)
    requires Good(s, loose) && s.loop == Idle && !LosesEvent(s, rel)
    ensures Good(OnCreate(s, rel), loose)
  {
    hide *;
    if PairedWith(s, rel).None? {
      CreateUnpairedGood(s, rel, loose);
    } else {
      NothingClashes(s, rel, loose);
      PairedGood(s, rel, loose, loose);
    }
  }

  /** A successful or lost `Stop`: nothing is held by a cancelled keyed timer. */
  lemma CancelReleases(s: State, key: Key, rel: string, g: int, loose: set<string>)
    requires Good(s, loose) && key in s.timers && Holds(s, s.timers[key], rel, g)
    ensures forall i: nat :: !Holds(CancelTimer(s, key), i, rel, g)
  {
    var t, id := CancelTimer(s, key), s.timers[key];
    assert TimerOK(s, key);
    forall j: nat | j < |s.pool| && j != id ensures Holds(t, j, rel, g) ==> Holds(s, j, rel, g) {
      assert t.pool[j] == s.pool[j];
    }
    assert !InHome(t, id);
  }

  lemma ScheduleHolds(c: State, job: Job, rel: string, g: int)
    requires Shape(c) && KeyOf(job) !in c.timers && !c.closed && !Covers(job, rel, g)
    ensures forall i: nat | Holds(Schedule(c, job), i, rel, g) :: Holds(c, i, rel, g)
  {
    ScheduleArms(c, job);
    var t := Schedule(c, job);
    forall i: nat | Holds(t, i, rel, g) ensures Holds(c, i, rel, g) {
      assert i < |c.pool| ==> t.pool[i] == t.pool[..|c.pool|][i];
    }
  }

  /** If arming the rename timer cancels another rename that shares its key, the newest event of the
      other rename's path is lost for good: nothing holds it any more. */
  lemma CreateLoses(s: State, rel: string)
    requires Good(s, {}) && s.loop == Idle && !s.closed && LosesEvent(s, rel)
    ensures !Coverage(OnCreate(s, rel), {})
  {
    hide Unpaired, OnCreate, Schedule, Coverage, OneHolder, Shape, Account, Covers;
    var away, v := PairedWith(s, rel).value, Unpaired(s, rel);
    var key := RenameKeyOf(away, rel);
    var id := s.timers[key];
    var r :| r != rel && r != away && Covers(s.pool[id].job, r, Gen(s, r));
    UnpairedKeepsRenames(s, rel, key);
    UnpairedGood(s, rel, {});
    assert {} + {away, rel} == {away, rel};
    assert v.pool[id].job == s.pool[id].job;
    LostWith(v, Rename(away, rel, Gen(v, away), Gen(v, rel)), r, {away, rel});
  }

  lemma LostWith(v: State, job: Job, r: string, loose: set<string>)
    requires Good(v, loose) && !v.closed && v.loop == Idle && KeyOf(job) in v.timers && r !in Touched(job)
    requires v.timers[KeyOf(job)] < |v.pool| && Covers(v.pool[v.timers[KeyOf(job)]].job, r, Gen(v, r))
    ensures !Coverage(Schedule(v, job), {})
  {
    var key := KeyOf(job);
    assert TimerOK(v, key);
    assert Holds(v, v.timers[key], r, Gen(v, r)) && Gen(v, r) > 0;
    CancelReleases(v, key, r, Gen(v, r), loose);
    var c, t := CancelTimer(v, key), Schedule(v, job);
    CancelShape(v, key, loose);
    assert t == Schedule(c, job);
    ScheduleHolds(c, job, r, Gen(v, r));
    assert !Covered(t, r);
  }

  lemma CancelShape(s: State, key: Key, loose: set<string>)
    requires Good(s, loose)
    ensures var t := CancelTimer(s, key); Shape(t) && key !in t.timers && t.pathGen == s.pathGen && t.closed == s.closed
  {
    var wide := if key in s.timers && s.timers[key] < |s.pool| then loose + Touched(s.pool[s.timers[key]].job)
      else loose;
    assert key in s.timers ==> TimerOK(s, key);
    Loosen(s, loose, wide);
    CancelTimerGood(s, key, wide);
  }

  // ----- Callbacks and close ------------------------------------------------------------------------

  /** One timer moves to another phase, and perhaps out of its home. */
  ghost predicate Moved(s: State, id: nat, t: State) {
    && id < |s.pool| && id < |t.pool| && t.pool == s.pool[id := t.pool[id]]
    && t.pool[id] == s.pool[id].(phase := t.pool[id].phase)
    && t.pathGen == s.pathGen && t.closed == s.closed && t.loop == s.loop && t.wg == s.wg && t.returned == s.returned
    && (t.timers == s.timers ||
        (s.pool[id].home.Keyed? && t.timers == s.timers - {s.pool[id].home.key} && InHome(s, id)))
    && (t.pending == s.pending || (t.pending.None? && s.pending == Some(id)))
  }

  lemma MovedShape(s: State, id: nat, t: State)
    requires Shape(s) && Account(s) && Moved(s, id, t)
    requires !s.pool[id].done && !t.pool[id].phase.Over? && t.pool[id].phase != Armed
    requires t.pool[id].phase in {Seen, Missing, Confirmed} ==> s.pool[id].job.Delete?
    requires InHome(t, id) ==> t.pool[id].phase == Fired || (s.closed && s.pool[id].home.PendingSlot?)
    ensures Shape(t) && Account(t)
    ensures forall j: nat | j < |s.pool| && j != id :: t.pool[j] == s.pool[j] && (InHome(t, j) <==> InHome(s, j))
  {
    UndoneUpdate(s.pool, id, t.pool[id]);
    forall j: nat | j < |s.pool| && j != id ensures InHome(t, j) <==> InHome(s, j) {
    }
    forall k | k in t.timers ensures TimerOK(t, k) {
      assert TimerOK(s, k);
    }
  }

  lemma MovedGood(s: State, id: nat, t: State, loose: set<string>)
    requires Good(s, loose) && Moved(s, id, t)
    requires !s.pool[id].done && !t.pool[id].phase.Over? && t.pool[id].phase != Armed
    requires t.pool[id].phase in {Seen, Missing, Confirmed} ==> s.pool[id].job.Delete?
    requires InHome(t, id) ==> t.pool[id].phase == Fired || (s.closed && s.pool[id].home.PendingSlot?)
    requires Settled(t, id) ==> Settled(s, id)
    requires Settled(s, id) && !Settled(t, id) && !s.closed ==>
               s.pool[id].job.Delete? && s.pool[id].job.gen != Gen(s, s.pool[id].job.rel)
    ensures Good(t, loose)
  {
    MovedShape(s, id, t);
    assert forall j, rel, g :: Holds(t, j, rel, g) ==> Holds(s, j, rel, g);
    assert forall j, rel, g :: Holds(s, j, rel, g) && j != id ==> Holds(t, j, rel, g);
    KeepCovered(s, t, loose);
  }

  lemma EnterGood(s: State, id: nat, loose: set<string>)
    requires Good(s, loose) && InPhase(s, id, Fired)
    ensures Good(Enter(s, id), loose)
  {
    if s.pool[id].home.Keyed? && InHome(s, id) {
      assert TimerOK(s, s.pool[id].home.key);
    }
    MovedGood(s, id, Enter(s, id), loose);
  }

  predicate IsCallback(l: Label) {
    l.Fire? || l.EnterTimer? || l.FirstCheck? || l.DiskCheck? || l.SecondCheck? || l.Deliver?
  }

  lemma CallbackGood(s: State, l: Label, loose: set<string>)
    requires Good(s, loose) && IsCallback(l) && Enabled(s, l)
    ensures Good(Apply(s, l), loose)
  {
    if l.EnterTimer? {
      EnterGood(s, l.id, loose);
    } else {
      HomeWaits(s, l.id);
      MovedGood(s, l.id, Apply(s, l), loose);
    }
  }

  /** Only waiting timers are in their home, except for a rename that came after the close. */
  lemma HomeWaits(s: State, id: nat)
    requires Shape(s) && id < |s.pool|
    ensures InHome(s, id) ==> Waiting(s.pool[id]) || (s.closed && s.pool[id].home.PendingSlot?)
  {
    match s.pool[id].home
    case Keyed(key) =>
      if key in s.timers {
        assert TimerOK(s, key);
      }
    case PendingSlot =>
  }

  lemma ReturnGood(s: State, id: nat, loose: set<string>)
    requires Good(s, loose) && Enabled(s, Return(id))
    ensures Good(Apply(s, Return(id)), loose)
  {
    hide Undone;
    var t := Apply(s, Return(id));
    UndoneUpdate(s.pool, id, t.pool[id]);
    assert t.pool == s.pool[id := t.pool[id]];
    assert forall j: nat :: InHome(t, j) <==> InHome(s, j);
    assert forall j, rel, g :: Holds(t, j, rel, g) <==> Holds(s, j, rel, g);
    forall k | k in t.timers ensures TimerOK(t, k) {
      assert TimerOK(s, k);
    }
    HomeWaits(s, id);
    KeepCovered(s, t, loose);
  }

  lemma CloseGood(s: State, loose: set<string>)
    requires Good(s, loose) && !s.closed
    ensures Good(CloseLocked(s), loose)
  {
    var t := CloseLocked(s);
    assert forall j, rel, g :: Holds(t, j, rel, g) ==> Holds(s, j, rel, g);
  }

  lemma StepGood(s: State, l: Label, loose: set<string>)
    requires Good(s, loose) && Enabled(s, l)
    requires l.Create? ==> !LosesEvent(s, l.rel)
    ensures Good(Apply(s, l), loose)
  {
    hide Good, OnWrite, OnRemove, OnRenameAway, OnCreate, OnCreateRest, CloseLocked, LosesEvent, ApplyTimer;
    match l
    case Write(rel) => WriteGood(s, rel, loose);
    case Remove(rel) => RemoveGood(s, rel, loose);
    case RenameAway(rel) => RenameAwayGood(s, rel, loose);
    case Create(rel) => CreateGood(s, rel, loose);
    case CreateRest => CreateRestGood(s, loose);
    case Return(id) => ReturnGood(s, id, loose);
    case CloseLock => CloseGood(s, loose);
    case LoopExit => ExitGood(s, loose);
    case CloseReturn => ReturnedGood(s, loose);
    case Overflow =>
    case _ => CallbackGood(s, l, loose);
  }

  lemma ExitGood(s: State, loose: set<string>)
    requires Good(s, loose) && s.loop == Idle
    ensures Good(Apply(s, LoopExit), loose)
  {
    SameOwners(s, Apply(s, LoopExit), loose);
  }

  lemma ReturnedGood(s: State, loose: set<string>)
    requires Good(s, loose) && Enabled(s, CloseReturn)
    ensures Good(Apply(s, CloseReturn), loose)
  {
    SameOwners(s, Apply(s, CloseReturn), loose);
  }

  lemma SameOwners(s: State, t: State, loose: set<string>)
    requires Shape(s) && OneHolder(s) && Coverage(s, loose)
    requires t == s.(loop := t.loop, wg := t.wg, returned := t.returned)
    requires t.loop == s.loop || (!s.loop.Handling? && !t.loop.Handling?)
    ensures Shape(t) && OneHolder(t) && Coverage(t, loose)
  {
    assert forall j: nat :: InHome(t, j) <==> InHome(s, j);
    assert forall j, rel, g :: Holds(t, j, rel, g) <==> Holds(s, j, rel, g);
    forall k | k in t.timers ensures TimerOK(t, k) {
      assert TimerOK(s, k);
    }
    KeepCovered(s, t, loose);
  }
}
