/** The watcher object itself: its methods change the fields step by step and are proved to be the
    steps of the state machine. */
module WatcherService {
  import opened Options
  import W = Watcher
  import P = WatcherProofs

  /** The entries of the maps point to timers, and the pending rename is a delete. */
  predicate Ranged(s: W.State) {
    && (forall key | key in s.timers :: s.timers[key] < |s.pool|)
    && (s.pending.Some? ==> s.pending.value < |s.pool| && s.pool[s.pending.value].job.Delete?)
  }

  class Watcher {
    var timers: map<W.Key, nat>
    var pathGen: map<string, nat>
    var pendingRename: Option<nat>
    var closed: bool
    var pool: seq<W.Timer>
    var wg: int
    var loop: W.Loop
    var returned: bool
    var log: seq<nat>

    ghost function State(): W.State
      reads this
    {
      W.State(timers, pathGen, pendingRename, closed, pool, wg, loop, returned, log)
    }

    ghost predicate Valid()
      reads this
    {
      Ranged(State())
    }

    constructor ()
      ensures State() == W.INITIAL && Valid()
    {
      timers, pathGen, pendingRename, closed := map[], map[], None, false;
      pool, wg, loop, returned, log := [], 1, W.Idle, false, [];
    }

    /** `time.Timer.Stop`. */
    method Stop(id: nat) returns (won: bool)
      requires id < |pool|
      modifies `pool
      ensures won == (old(pool[id].phase) == W.Armed)
      ensures pool == if won then old(pool)[id := old(pool)[id].(phase := W.Over(W.Stopped))] else old(pool)
    {
      won := pool[id].phase == W.Armed;
      if won {
        pool := pool[id := pool[id].(phase := W.Over(W.Stopped))];
      }
    }

    /** `done.Do(wg.Done)`. */
    method Done(id: nat)
      requires id < |pool|
      modifies `pool, `wg
      ensures pool == old(pool)[id := old(pool)[id].(done := true)]
      ensures wg == if old(pool)[id].done then old(wg) else old(wg) - 1
    {
      if !pool[id].done {
        pool := pool[id := pool[id].(done := true)];
        wg := wg - 1;
      }
    }

    method StopAndDone(id: nat)
      requires id < |pool|
      modifies `pool, `wg
      ensures State() == W.StopTimer(old(State()), id)
    {
      var won := Stop(id);
      if won {
        Done(id);
      }
      assert pool == W.StopTimer(old(State()), id).pool;
    }

    method CancelTimerLocked(key: W.Key)
      requires Valid()
      modifies this
      ensures Valid() && State() == W.CancelTimer(old(State()), key)
    {
      if key in timers {
        StopAndDone(timers[key]);
        timers := timers - {key};
      }
    }

    method CancelPendingRenameLocked()
      requires Valid()
      modifies this
      ensures Valid() && State() == W.CancelPending(old(State()))
    {
      if pendingRename.Some? {
        var id := pendingRename.value;
        pendingRename := None;
        StopAndDone(id);
      }
    }

    /** The delete that stands behind the pending rename. */
    method PendingDelete() returns (job: Option<W.Job>)
      requires Valid()
      ensures job == W.PendingJob(State()) && (job.Some? <==> pendingRename.Some?)
    {
      job := if pendingRename.Some? then Some(pool[pendingRename.value].job) else None;
    }

    method Bump(rel: string)
      requires Valid()
      modifies `pathGen
      ensures Valid() && State() == W.Bump(old(State()), rel)
      ensures pathGen.Keys == old(pathGen).Keys + {rel}
    {
      pathGen := pathGen[rel := (if rel in pathGen then pathGen[rel] else 0) + 1];
    }

    method SchedulePathLocked(job: W.Job)
      requires Valid()
      modifies this
      ensures Valid() && State() == W.Schedule(old(State()), job)
    {
      if closed {
        return;
      }
      var key := W.KeyOf(job);
      CancelTimerLocked(key);
      wg := wg + 1;
      timers := timers[key := |pool|];
      pool := pool + [W.Timer(W.Keyed(key), job, W.Armed, false)];
    }

    method FlushPendingRenameLocked()
      requires Valid()
      modifies this
      ensures Valid() && State() == W.Flush(old(State()))
    {
      var pending := PendingDelete();
      if pending.None? {
        return;
      }
      CancelPendingRenameLocked();
      SchedulePathLocked(pending.value);
    }

    /** The branch of `handleEvent` for writes. */
    method HandleWrite(rel: string)
      requires Valid() && W.Enabled(State(), W.Write(rel))
      modifies this
      ensures Valid() && State() == W.Apply(old(State()), W.Write(rel))
    {
      hide W.CancelTimer, W.CancelPending, W.Schedule, W.Bump, Ranged;
      CancelTimerLocked(W.Key(W.DeleteKey, rel));
      var pending := PendingDelete();
      if pending.Some? && pending.value.rel == rel {
        CancelPendingRenameLocked();
      }
      Bump(rel);
      SchedulePathLocked(W.Modify(rel, pathGen[rel]));
    }

    /** The branch of `handleEvent` for removals. */
    method HandleRemove(rel: string)
      requires Valid() && W.Enabled(State(), W.Remove(rel))
      modifies this
      ensures Valid() && State() == W.Apply(old(State()), W.Remove(rel))
    {
      hide W.CancelTimer, W.CancelPending, W.Schedule, W.Bump, Ranged;
      CancelTimerLocked(W.Key(W.ModifyKey, rel));
      var pending := PendingDelete();
      if pending.Some? && pending.value.rel == rel {
        CancelPendingRenameLocked();
      }
      Bump(rel);
      SchedulePathLocked(W.Delete(rel, pathGen[rel]));
    }

    method HandleRenameAway(rel: string)
      requires Valid() && W.Enabled(State(), W.RenameAway(rel))
      modifies this
      ensures Valid() && State() == W.Apply(old(State()), W.RenameAway(rel))
    {
      hide W.CancelTimer, W.CancelPending, W.Schedule, W.Bump, Ranged;
      if pendingRename.Some? {
        FlushPendingRenameLocked();
      }
      assert State() == W.Flush(old(State()));
      CancelTimerLocked(W.Key(W.ModifyKey, rel));
      Bump(rel);
      RangedArm(State(), W.Delete(rel, pathGen[rel]));
      wg := wg + 1;
      pendingRename := Some(|pool|);
      pool := pool + [W.Timer(W.PendingSlot, W.Delete(rel, pathGen[rel]), W.Armed, false)];
    }

    method PairRename(newRel: string) returns (paired: bool)
      requires Valid() && W.Enabled(State(), W.Create(newRel))
      modifies this
      ensures Valid() && State() == W.Apply(old(State()), W.Create(newRel))
      ensures !paired <==> loop == W.Handling(newRel)
    {
      hide W.CancelTimer, W.CancelPending, W.Schedule, W.Bump, Ranged;
      CancelTimerLocked(W.Key(W.DeleteKey, newRel));
      var pending := PendingDelete();
      if pending.None? {
        SameRange(State(), State().(loop := W.Handling(newRel)));
        loop := W.Handling(newRel);
        return false;
      }
      var oldRel := pending.value.rel;
      CancelPendingRenameLocked();
      if oldRel == newRel {
        SameRange(State(), State().(loop := W.Handling(newRel)));
        loop := W.Handling(newRel);
        return false;
      }
      CancelTimerLocked(W.Key(W.ModifyKey, oldRel));
      Bump(oldRel);
      Bump(newRel);
      SchedulePathLocked(W.Rename(oldRel, newRel, pathGen[oldRel], pathGen[newRel]));
      paired := true;
    }

    /** The second critical section of a `Create` without a partner. */
    method HandleCreated()
      requires Valid() && W.Enabled(State(), W.CreateRest)
      modifies this
      ensures Valid() && State() == W.Apply(old(State()), W.CreateRest)
    {
      hide W.CancelTimer, W.CancelPending, W.Schedule, W.Bump, Ranged;
      var rel := loop.rel;
      SameRange(State(), State().(loop := W.Idle));
      loop := W.Idle;
      CancelTimerLocked(W.Key(W.DeleteKey, rel));
      Bump(rel);
      SchedulePathLocked(W.Modify(rel, pathGen[rel]));
    }

    /** The critical section at the start of a timer's callback. */
    method EnterCallback(id: nat) returns (goesOn: bool)
      requires Valid() && W.Enabled(State(), W.EnterTimer(id))
      modifies this
      ensures Valid() && State() == W.Apply(old(State()), W.EnterTimer(id))
      ensures goesOn <==> pool[id].phase in {W.Started, W.Seen}
    {
      match pool[id].home {
        case Keyed(key) =>
          goesOn := key in timers && timers[key] == id && !closed;
          if goesOn {
            timers := timers - {key};
          }
          pool := pool[id := pool[id].(phase := if goesOn then W.Started else W.Returning(W.Stale))];
        case PendingSlot =>
          goesOn := pendingRename == Some(id) && !closed && W.GenIn(pathGen, pool[id].job.rel) == pool[id].job.gen;
          if goesOn {
            pendingRename := None;
          }
          pool := pool[id := pool[id].(phase := if goesOn then W.Seen else W.Returning(W.Stale))];
      }
    }

    method IsCurrentGen(rel: string, gen: nat) returns (current: bool)
      ensures current == W.Current(State(), W.Delete(rel, gen))
    {
      current := !closed && (if rel in pathGen then pathGen[rel] else 0) == gen;
    }

    /** The part of `Close` under the mutex: stopping the timers one by one, in any order, is the
        step that stops them all. */
    method CloseLocked()
      requires P.Shape(State()) && W.Enabled(State(), W.CloseLock)
      modifies this
      ensures State() == W.Apply(old(State()), W.CloseLock)
    {
      hide Closing, P.Shape, W.CancelTimer, W.CancelPending, W.CloseLocked, Ranged;
      ghost var was := State();
      closed := true;
      StartClosing(was);
      while timers != map[]
        invariant Closing(was, State())
        decreases timers.Keys
      {
        var key :| key in timers;
        StopKeyed(was, State(), key);
        CancelTimerLocked(key);
      }
      if pendingRename.Some? {
        StopPending(was, State());
        CancelPendingRenameLocked();
      }
      AllStopped(was, State());
    }
  }

  /** Part of the timers of `was` are stopped; those that are not are still in their home. */
  ghost predicate Closing(was: W.State, s: W.State) {
    && s == was.(closed := true, timers := s.timers, pending := s.pending, pool := s.pool, wg := s.wg)
    && |s.pool| == |was.pool| && s.wg == was.wg - (W.Undone(was.pool) - W.Undone(s.pool))
    && (s.pending == was.pending || s.pending.None?)
    && (forall key | key in s.timers :: key in was.timers && s.timers[key] == was.timers[key])
    && (forall id: nat | id < |s.pool| :: StoppedOrHome(was.pool[id], s, id))
  }

  predicate StoppedOrHome(was: W.Timer, s: W.State, id: nat) {
    id < |s.pool| && (s.pool[id] == W.StoppedTimer(was) || (s.pool[id] == was && W.InHome(s, id)))
  }

  lemma CancelHomes(s: W.State, id: nat, t: W.State, was: W.Timer, j: nat)
    requires id < |s.pool| && StoppedOrHome(was, s, j) && j != id
    requires t == W.StopTimer(s, id).(timers := t.timers, pending := t.pending)
    requires t.timers == s.timers ||
      exists key :: key in s.timers && s.timers[key] == id && t.timers == s.timers - {key}
    requires t.pending == s.pending || s.pending == Some(id)
    ensures StoppedOrHome(was, t, j)
  {
  }

  lemma StartClosing(was: W.State)
    requires P.Shape(was) && !was.closed
    ensures Closing(was, was.(closed := true))
  {
    var s := was.(closed := true);
    forall id: nat | id < |s.pool| ensures StoppedOrHome(was.pool[id], s, id) {
      assert was.pool[id].phase == W.Armed ==> W.InHome(was, id);
    }
  }

  /** Every reachable state is in range. */
  lemma ShapeRanged(s: W.State)
    requires P.Shape(s)
    ensures Ranged(s)
  {
    forall key | key in s.timers ensures s.timers[key] < |s.pool| {
      assert P.TimerOK(s, key);
    }
  }

  lemma SameRange(s: W.State, t: W.State)
    requires Ranged(s) && t.timers == s.timers && t.pending == s.pending && t.pool == s.pool
    ensures Ranged(t)
  {
  }

  lemma RangedArm(s: W.State, job: W.Job)
    requires Ranged(s) && job.Delete?
    ensures Ranged(W.Arm(s, W.PendingSlot, job).(pending := Some(|s.pool|)))
  {
  }

  lemma StopKeyed(was: W.State, s: W.State, key: W.Key)
    requires P.Shape(was) && !was.closed && Closing(was, s) && key in s.timers
    ensures Closing(was, W.CancelTimer(s, key)) && Ranged(s)
    ensures W.CancelTimer(s, key).timers.Keys == s.timers.Keys - {key}
  {
    ClosingRanged(was, s);
    var id, t := s.timers[key], W.CancelTimer(s, key);
    StopCounts(was, s, id);
    hide StoppedOrHome;
    forall j: nat | j < |s.pool| ensures StoppedOrHome(was.pool[j], t, j) {
      if j != id {
        CancelHomes(s, id, t, was.pool[j], j);
      }
    }
  }

  lemma StopPending(was: W.State, s: W.State)
    requires P.Shape(was) && !was.closed && Closing(was, s) && s.pending.Some?
    ensures Closing(was, W.CancelPending(s)) && Ranged(s)
    ensures W.CancelPending(s).pending.None? && W.CancelPending(s).timers == s.timers
  {
    ClosingRanged(was, s);
    var id, t := s.pending.value, W.CancelPending(s);
    StopCounts(was, s, id);
    hide StoppedOrHome;
    forall j: nat | j < |s.pool| ensures StoppedOrHome(was.pool[j], t, j) {
      if j != id {
        CancelHomes(s, id, t, was.pool[j], j);
      }
    }
  }

  lemma ClosingRanged(was: W.State, s: W.State)
    requires P.Shape(was) && Closing(was, s)
    ensures Ranged(s)
  {
    ShapeRanged(was);
    assert s.pending.Some? ==> StoppedOrHome(was.pool[s.pending.value], s, s.pending.value);
  }

  lemma StopCounts(was: W.State, s: W.State, id: nat)
    requires P.Shape(was) && !was.closed && Closing(was, s) && id < |s.pool|
    ensures var t := W.StopTimer(s, id);
      t.wg == was.wg - (W.Undone(was.pool) - W.Undone(t.pool)) && StoppedOrHome(was.pool[id], t, id)
  {
    P.UndoneUpdate(s.pool, id, W.StoppedTimer(s.pool[id]));
    assert s.pool[id := s.pool[id]] == s.pool;
    assert StoppedOrHome(was.pool[id], s, id);
  }

  lemma AllStopped(was: W.State, s: W.State)
    requires Closing(was, s) && s.timers == map[] && s.pending.None?
    ensures s == W.CloseLocked(was)
  {
    forall id: nat | id < |s.pool| ensures s.pool[id] == W.StoppedTimer(was.pool[id]) {
      assert StoppedOrHome(was.pool[id], s, id) && !W.InHome(s, id);
    }
    assert s.pool == W.StopAll(was.pool);
  }
}
