/** From events to deliveries: which event each timer stands for, and what becomes of the newest event of
    a path, told from the labels of the run. */
module WatcherEvents {
  import opened Options
  import opened Watcher
  import opened WatcherProofs
  import opened WatcherRuns
  import opened WatcherDeliveries

  // ----- What each event arms ----------------------------------------------------------------------

  /** A timer that a step adds; `slot` tells the pending rename from the keyed timers. */
  datatype New = New(job: Job, slot: bool)

  predicate Is(t: Timer, n: New) { t.job == n.job && t.home.PendingSlot? == n.slot }

  /** The timers of `s` keep job and home; those of `news` come after them. */
  ghost predicate Added(s: State, t: State, news: seq<New>) {
    && |t.pool| == |s.pool| + |news|
    && (forall i | 0 <= i < |s.pool| :: t.pool[i].job == s.pool[i].job && t.pool[i].home == s.pool[i].home)
    && (forall i | |s.pool| <= i < |t.pool| :: Is(t.pool[i], news[i - |s.pool|]))
  }

  /** The only new timer is armed and in its place. */
  predicate ArmedLast(s: State, t: State) {
    |t.pool| == |s.pool| + 1 && t.pool[|s.pool|].phase == Armed && InHome(t, |s.pool|)
  }

  lemma CancelAdds(s: State, key: Key)
    ensures var t := CancelTimer(s, key);
      Added(s, t, []) && t.pending == s.pending && t.pathGen == s.pathGen && PendingJob(t) == PendingJob(s)
  {
  }

  lemma CancelPendingAdds(s: State)
    ensures var t := CancelPending(s); Added(s, t, []) && t.pathGen == s.pathGen && t.pending.None?
  {
  }

  lemma ScheduleAdds(s: State, job: Job)
    ensures var t := Schedule(s, job);
      && Added(s, t, if s.closed then [] else [New(job, false)]) && t.pending == s.pending && t.pathGen == s.pathGen
      && (!s.closed ==> ArmedLast(s, t))
  {
    CancelAdds(s, KeyOf(job));
  }

  /** An event of one path: its generation grows by one, and one timer is armed for it. */
  ghost predicate OnePath(s: State, rel: string, t: State, job: Job) {
    && Added(s, t, if s.closed then [] else [New(job, false)])
    && forall r :: Gen(t, r) == Gen(s, r) + (if r == rel then 1 else 0)
  }

  lemma OnePathAdds(s: State, drop: Key, rel: string, job: Job)
    ensures OnePath(s, rel, Schedule(Bump(CancelPendingOn(CancelTimer(s, drop), rel), rel), job), job)
    ensures OnePath(s, rel, Schedule(Bump(CancelTimer(s, drop), rel), job), job)
  {
    var t := CancelTimer(s, drop);
    var u := CancelPendingOn(t, rel);
    CancelAdds(s, drop);
    CancelPendingAdds(t);
    hide CancelTimer, CancelPending, Schedule;
    ScheduleAdds(Bump(u, rel), job);
    ScheduleAdds(Bump(t, rel), job);
  }

  /** The delete of a pending rename that another one pushes out. */
  function Flushed(s: State): seq<New> {
    if PendingJob(s).Some? && !s.closed then [New(PendingJob(s).value, false)] else []
  }

  lemma FlushAdds(s: State)
    ensures Added(s, Flush(s), Flushed(s)) && Flush(s).pathGen == s.pathGen
  {
    if PendingJob(s).Some? {
      CancelPendingAdds(s);
      ScheduleAdds(CancelPending(s), PendingJob(s).value);
    }
  }

  lemma RenameAwayAdds(s: State, rel: string)
    ensures var t := OnRenameAway(s, rel);
      && Added(s, t, Flushed(s) + [New(Delete(rel, Gen(s, rel) + 1), true)])
      && (forall r :: Gen(t, r) == Gen(s, r) + (if r == rel then 1 else 0))
      && t.pending == Some(|t.pool| - 1) && t.pool[|t.pool| - 1].phase == Armed
  {
    var f := Flush(s);
    FlushAdds(s);
    CancelAdds(f, Key(ModifyKey, rel));
    hide Flush, CancelTimer;
  }

  /** The old name of a rename that waits for its new one, and is another one. */
  predicate Pairs(s: State, rel: string) { PendingJob(s).Some? && PendingJob(s).value.rel != rel }

  function Paired(s: State, rel: string): Job
    requires Pairs(s, rel)
  {
    var away := PendingJob(s).value.rel;
    Rename(away, rel, Gen(s, away) + 1, Gen(s, rel) + 1)
  }

  /** The end of a paired `Create`, when both old timers are out of the way. */
  lemma PairAdds(u: State, away: string, rel: string)
    requires away != rel
    ensures
      var v := Bump(Bump(CancelTimer(u, Key(ModifyKey, away)), away), rel);
      var job := Rename(away, rel, Gen(u, away) + 1, Gen(u, rel) + 1);
      var t := Schedule(v, job);
      && Gen(v, away) == Gen(u, away) + 1 && Gen(v, rel) == Gen(u, rel) + 1
      && Added(u, t, if u.closed then [] else [New(job, false)]) && t.pending == u.pending && t.loop == u.loop
      && (!u.closed ==> ArmedLast(u, t))
      && forall r :: Gen(t, r) == Gen(u, r) + (if r in {away, rel} then 1 else 0)
  {
    CancelAdds(u, Key(ModifyKey, away));
    var v := Bump(Bump(CancelTimer(u, Key(ModifyKey, away)), away), rel);
    ScheduleAdds(v, Rename(away, rel, Gen(u, away) + 1, Gen(u, rel) + 1));
    hide CancelTimer, Schedule;
  }

  lemma CreateAdds(s: State, rel: string)
    ensures var t := OnCreate(s, rel);
      && Added(s, t, if Pairs(s, rel) && !s.closed then [New(Paired(s, rel), false)] else [])
      && (forall r :: Gen(t, r) == Gen(s, r) + (if Pairs(s, rel) && r in {PendingJob(s).value.rel, rel} then 1 else 0))
      && (Pairs(s, rel) ==> t.loop == s.loop && t.pending.None?) && (!Pairs(s, rel) ==> t.loop == Handling(rel))
      && (Pairs(s, rel) && !s.closed ==> ArmedLast(s, t))
  {
    var t := CancelTimer(s, Key(DeleteKey, rel));
    var u := CancelPending(t);
    hide CancelTimer, CancelPending, Schedule;
    CancelAdds(s, Key(DeleteKey, rel));
    CancelPendingAdds(t);
    if Pairs(s, rel) {
      PairAdds(u, PendingJob(s).value.rel, rel);
      hide Bump;
    }
  }

  // ----- Which events name a path ------------------------------------------------------------------

  /** The step is an event of `rel`; a `Create` is one only if it pairs a pending rename, otherwise its
      second section is. */
  predicate Names(s: State, l: Label, rel: string) {
    match l
    case Write(r) => r == rel
    case Remove(r) => r == rel
    case RenameAway(r) => r == rel
    case Create(r) => Pairs(s, r) && rel in {PendingJob(s).value.rel, r}
    case CreateRest => s.loop == Handling(rel)
    case _ => false
  }

  /** The job that such an event is to become. */
  ghost predicate Fits(s: State, l: Label, job: Job) {
    match l
    case Write(r) => job == Modify(r, Gen(s, r) + 1)
    case Remove(r) => job == Delete(r, Gen(s, r) + 1)
    case RenameAway(r) => job == Delete(r, Gen(s, r) + 1)
    case Create(r) => Pairs(s, r) && job == Paired(s, r)
    case CreateRest => s.loop.Handling? && job == Modify(s.loop.rel, Gen(s, s.loop.rel) + 1)
    case _ => false
  }

  lemma WriteAdds(s: State, rel: string)
    ensures OnePath(s, rel, OnWrite(s, rel), Modify(rel, Gen(s, rel) + 1))
  {
    OnePathGen(s, Key(DeleteKey, rel), rel);
    OnePathAdds(s, Key(DeleteKey, rel), rel, Modify(rel, Gen(s, rel) + 1));
    hide CancelTimer, CancelPendingOn, Schedule, OnePath;
  }

  lemma RemoveAdds(s: State, rel: string)
    ensures OnePath(s, rel, OnRemove(s, rel), Delete(rel, Gen(s, rel) + 1))
  {
    OnePathGen(s, Key(ModifyKey, rel), rel);
    OnePathAdds(s, Key(ModifyKey, rel), rel, Delete(rel, Gen(s, rel) + 1));
    hide CancelTimer, CancelPendingOn, Schedule, OnePath;
  }

  lemma RestAdds(s: State, rel: string)
    ensures OnePath(s, rel, OnCreateRest(s, rel), Modify(rel, Gen(s, rel) + 1))
  {
    var i := s.(loop := Idle);
    OnePathGen(i, Key(DeleteKey, rel), rel);
    OnePathAdds(i, Key(DeleteKey, rel), rel, Modify(rel, Gen(s, rel) + 1));
    hide CancelTimer, CancelPendingOn, Schedule;
    assert OnCreateRest(s, rel) ==
           Schedule(Bump(CancelTimer(i, Key(DeleteKey, rel)), rel), Modify(rel, Gen(s, rel) + 1));
  }

  lemma OnePathGen(s: State, drop: Key, rel: string)
    ensures Gen(Bump(CancelPendingOn(CancelTimer(s, drop), rel), rel), rel) == Gen(s, rel) + 1
    ensures Gen(Bump(CancelTimer(s, drop), rel), rel) == Gen(s, rel) + 1
  {
    CancelAdds(s, drop);
    CancelPendingAdds(CancelTimer(s, drop));
    hide CancelTimer, CancelPending;
  }

  /** What a step adds, all in all. */
  ghost function News(s: State, l: Label): seq<New> {
    match l
    case Write(r) => if s.closed then [] else [New(Modify(r, Gen(s, r) + 1), false)]
    case Remove(r) => if s.closed then [] else [New(Delete(r, Gen(s, r) + 1), false)]
    case RenameAway(r) => Flushed(s) + [New(Delete(r, Gen(s, r) + 1), true)]
    case Create(r) => if Pairs(s, r) && !s.closed then [New(Paired(s, r), false)] else []
    case CreateRest =>
      if s.loop.Handling? && !s.closed then [New(Modify(s.loop.rel, Gen(s, s.loop.rel) + 1), false)] else []
    case _ => []
  }

  /** Every step raises the generations of the paths it names by one, and no others, and arms the timers
      for its events. */
  lemma StepAdds(s: State, l: Label)
    requires Enabled(s, l)
    ensures var t := Apply(s, l);
      Added(s, t, News(s, l)) && forall r :: Gen(t, r) == Gen(s, r) + (if Names(s, l, r) then 1 else 0)
  {
    hide OnWrite, OnRemove, OnCreateRest, OnRenameAway, OnCreate, Gen, Pairs, Paired, Flushed, PendingJob;
    if l.Write? {
      WriteAdds(s, l.rel);
    } else if l.Remove? {
      RemoveAdds(s, l.rel);
    } else if l.RenameAway? {
      RenameAwayAdds(s, l.rel);
    } else if l.Create? {
      CreateAdds(s, l.rel);
    } else if l.CreateRest? {
      RestAdds(s, s.loop.rel);
    } else {
      QuietAdds(s, l);
    }
  }

  lemma QuietAdds(s: State, l: Label)
    requires Enabled(s, l) && (IsTimerLabel(l) || l.Overflow? || l.LoopExit? || l.CloseLock? || l.CloseReturn?)
    ensures var t := Apply(s, l); Added(s, t, []) && forall r :: Gen(t, r) == Gen(s, r)
  {
    if IsTimerLabel(l) {
      hide TimerEnabled;
    }
  }

  // ----- The source of each timer --------------------------------------------------------------------

  ghost predicate FitsAt(ls: seq<Label>, k: nat, job: Job) { k < |ls| && Fits(After(ls[..k]), ls[k], job) }

  /** The rename away from `o` whose pending timer a `Create` finds at step `k`, nothing having happened to
      `o` in between. */
  ghost predicate WentAway(ls: seq<Label>, k: nat, o: string) {
    exists j: nat :: j < k <= |ls| && ls[j] == RenameAway(o) && Gen(After(ls[..j + 1]), o) == Gen(After(ls[..k]), o)
  }

  /** The step that the timer stands for. */
  ghost predicate Sourced(ls: seq<Label>, k: nat, t: Timer) {
    && FitsAt(ls, k, t.job) && (t.home.PendingSlot? ==> ls[k].RenameAway?)
    && (t.job.Rename? ==> WentAway(ls, k, t.job.oldRel))
  }

  ghost predicate HasSource(ls: seq<Label>, t: Timer) { exists k: nat :: Sourced(ls, k, t) }

  lemma {:induction false} PrefixSourced(ls: seq<Label>, n: nat, k: nat, t: Timer)
    requires n <= |ls| && Sourced(ls[..n], k, t)
    ensures Sourced(ls, k, t)
  {
    hide After, Fits, Gen;
    assert ls[..n][..k] == ls[..k];
    if t.job.Rename? {
      var o := t.job.oldRel;
      var j: nat :| j < k <= n && ls[..n][j] == RenameAway(o)
        && Gen(After(ls[..n][..j + 1]), o) == Gen(After(ls[..n][..k]), o);
      assert ls[..n][..j + 1] == ls[..j + 1];
    }
  }

  lemma SourcedStays(ls: seq<Label>, k: nat, a: Timer, b: Timer)
    requires Sourced(ls, k, a) && b.job == a.job && (b.home.PendingSlot? ==> a.home.PendingSlot?)
    ensures Sourced(ls, k, b)
  {
  }

  /** Every timer stands for an event of the run that fits it. */
  lemma {:induction false} TimerSourced(ls: seq<Label>, id: nat)
    requires IsRun(ls) && id < |After(ls).pool|
    ensures HasSource(ls, After(ls).pool[id])
    decreases |ls|, 1
  {
    hide Apply, Enabled, Sourced, Good;
    if ls != [] {
      var n := |ls| - 1;
      var s, l := After(ls[..n]), ls[n];
      StepAdds(s, l);
      if id < |s.pool| {
        TimerSourced(ls[..n], id);
        OldSource(ls, id, s.pool[id], After(ls).pool[id]);
      } else {
        var added := News(s, l)[id - |s.pool|];
        if l.RenameAway? && !added.slot {
          var p := PendingIn(s);
          TimerSourced(ls[..n], p);
          OldSource(ls, p, s.pool[p], After(ls).pool[id]);
        } else {
          NewSource(ls, After(ls).pool[id]);
        }
      }
    }
  }

  lemma PendingIn(s: State) returns (p: nat)
    requires PendingJob(s).Some?
    ensures s.pending == Some(p) && p < |s.pool| && s.pool[p].job == PendingJob(s).value
  {
    p := s.pending.value;
  }

  lemma {:induction false} OldSource(ls: seq<Label>, id: nat, a: Timer, b: Timer)
    requires ls != [] && HasSource(ls[..|ls| - 1], a)
    requires b.job == a.job && (b.home.PendingSlot? ==> a.home.PendingSlot?)
    ensures HasSource(ls, b)
  {
    var n := |ls| - 1;
    var k: nat :| Sourced(ls[..n], k, a);
    PrefixSourced(ls, n, k, a);
    SourcedStays(ls, k, a, b);
  }

  lemma {:induction false} NewSource(ls: seq<Label>, t: Timer)
    requires IsRun(ls) && ls != []
    requires var n := |ls| - 1;
      exists x :: x in News(After(ls[..n]), ls[n]) && Is(t, x) && (ls[n].RenameAway? ==> x.slot)
    ensures HasSource(ls, t)
    decreases |ls|, 0
  {
    var n := |ls| - 1;
    NewFits(After(ls[..n]), ls[n], t);
    hide After, Enabled, Apply, Good, News, Fits;
    assert FitsAt(ls, n, t.job);
    if t.job.Rename? {
      PendingWent(ls[..n]);
      LongerWent(ls, n, t.job.oldRel);
    }
    assert Sourced(ls, n, t);
  }

  lemma NewFits(s: State, l: Label, t: Timer)
    requires exists x :: x in News(s, l) && Is(t, x) && (l.RenameAway? ==> x.slot)
    ensures Fits(s, l, t.job) && (t.home.PendingSlot? ==> l.RenameAway?)
    ensures t.job.Rename? ==> !s.closed && PendingJob(s).Some? && PendingJob(s).value.rel == t.job.oldRel
  {
  }

  lemma {:induction false} LongerWent(ls: seq<Label>, n: nat, o: string)
    requires n <= |ls| && WentAway(ls[..n], n, o)
    ensures WentAway(ls, n, o)
  {
    hide After, Gen;
    var j: nat :| j < n && ls[..n][j] == RenameAway(o)
      && Gen(After(ls[..n][..j + 1]), o) == Gen(After(ls[..n][..n]), o);
    assert ls[..n][..j + 1] == ls[..j + 1] && ls[..n][..n] == ls[..n];
  }

  /** A pending rename went away with the last event of its path. */
  lemma {:induction false} PendingWent(ls: seq<Label>)
    requires IsRun(ls) && !After(ls).closed && PendingJob(After(ls)).Some?
    ensures WentAway(ls, |ls|, PendingJob(After(ls)).value.rel)
    decreases |ls|, 2
  {
    var s := After(ls);
    var p := PendingIn(s);
    var loose := RunSane(ls);
    TimerSourced(ls, p);
    var k: nat :| Sourced(ls, k, s.pool[p]);
    PrefixRun(ls, k + 1);
    assert ls[..k + 1][..k] == ls[..k] && ls[..|ls|] == ls;
    StepAdds(After(ls[..k]), ls[k]);
    hide After, IsRun, Apply, Enabled, Gen;
    assert ls[k] == RenameAway(PendingJob(s).value.rel);
  }

  // ----- The newest event of a path ------------------------------------------------------------------

  ghost predicate NamedAt(ls: seq<Label>, k: nat, rel: string) { k < |ls| && Names(After(ls[..k]), ls[k], rel) }

  /** The last event of the path. */
  ghost predicate NewestAt(ls: seq<Label>, k: nat, rel: string) {
    NamedAt(ls, k, rel) && forall m: nat | k < m < |ls| :: !NamedAt(ls, m, rel)
  }

  lemma {:induction false} GenAt(ls: seq<Label>, k: nat, rel: string)
    requires IsRun(ls) && k < |ls|
    ensures Gen(After(ls[..k + 1]), rel) == Gen(After(ls[..k]), rel) + (if NamedAt(ls, k, rel) then 1 else 0)
  {
    PrefixRun(ls, k + 1);
    assert ls[..k + 1][..k] == ls[..k];
    StepAdds(After(ls[..k]), ls[k]);
    hide Apply, Enabled, Names, Gen;
  }

  lemma {:induction false} NewestGen(ls: seq<Label>, k: nat, m: nat, rel: string)
    requires IsRun(ls) && NewestAt(ls, k, rel) && k < m <= |ls|
    ensures Gen(After(ls[..m]), rel) == Gen(After(ls[..k]), rel) + 1
  {
    hide IsRun, After, NamedAt;
    GenAt(ls, m - 1, rel);
    if m - 1 > k {
      NewestGen(ls, k, m - 1, rel);
    }
  }

  /** A path and a generation belong to one step. */
  lemma {:induction false} OneStep(ls: seq<Label>, k: nat, m: nat, rel: string)
    requires IsRun(ls) && NamedAt(ls, k, rel) && NamedAt(ls, m, rel)
    requires Gen(After(ls[..k]), rel) == Gen(After(ls[..m]), rel)
    ensures k == m
  {
    hide IsRun, After, Names, Gen;
    if k < m {
      GenAt(ls, k, rel);
      GenBetween(ls, k + 1, m, rel);
    } else if m < k {
      GenAt(ls, m, rel);
      GenBetween(ls, m + 1, k, rel);
    }
  }

  lemma FitsNames(s: State, l: Label, job: Job, rel: string, g: int)
    requires Fits(s, l, job) && Covers(job, rel, g)
    ensures Names(s, l, rel) && g == Gen(s, rel) + 1
  {
  }

  /** Whoever holds the newest event of a path has the job that fits it. */
  lemma {:induction false} HolderFits(ls: seq<Label>, k: nat, rel: string, id: nat)
    requires IsRun(ls) && NewestAt(ls, k, rel) && Holds(After(ls), id, rel, Gen(After(ls), rel))
    ensures FitsAt(ls, k, After(ls).pool[id].job)
  {
    TimerSourced(ls, id);
    assert ls[..|ls|] == ls;
    NewestGen(ls, k, |ls|, rel);
    hide IsRun, After, Fits, Names, Gen, Settled;
    var t := After(ls).pool[id];
    var m: nat :| Sourced(ls, m, t);
    FitsNames(After(ls[..m]), ls[m], t.job, rel, Gen(After(ls), rel));
    OneStep(ls, k, m, rel);
  }

  // ----- What becomes of a timer -----------------------------------------------------------------------

  /** The disk was looked at after a generation check, and the path was there. */
  ghost predicate SeenThere(ls: seq<Label>, id: nat, job: Job) {
    exists i: nat, j: nat :: i < j < |ls| && FirstAt(ls, i, id, job) && ls[j] == DiskCheck(id, false)
  }

  lemma {:induction false} SeenThereStays(ls: seq<Label>, n: nat, id: nat, job: Job)
    requires n <= |ls| && SeenThere(ls[..n], id, job)
    ensures SeenThere(ls, id, job)
  {
    var i: nat, j: nat :| i < j < n && FirstAt(ls[..n], i, id, job) && ls[..n][j] == DiskCheck(id, false);
    PrefixFacts(ls, n, i, id, job);
    PrefixFacts(ls, n, j, id, job);
  }

  /** The only way into these outcomes. */
  lemma OutcomeStep(s: State, l: Label, id: nat, how: Outcome)
    requires Enabled(s, l) && id < |Apply(s, l).pool| && how in {Delivered, Dropped}
    requires Apply(s, l).pool[id].phase in {Returning(how), Over(how)}
    ensures id < |s.pool| && Apply(s, l).pool[id].job == s.pool[id].job
    ensures
      || s.pool[id].phase in {Returning(how), Over(how)}
      || (how.Delivered? && l == Deliver(id))
      || (how.Dropped? && l == DiskCheck(id, false) && s.pool[id].phase == Seen)
  {
    if !IsTimerLabel(l) {
      EventFrame(s, l);
      hide Apply;
      assert id < |s.pool| ==> Evolves(s.pool[id], Apply(s, l).pool[id]);
    } else if !OnTimer(l, id) {
      TimerFrame(s, l, id);
    } else {
      hide ApplyEvent, EventEnabled;
    }
  }

  /** A timer is dropped only if it stands for a delete and its path was seen to be there. */
  lemma {:induction false} DroppedThere(ls: seq<Label>, id: nat)
    requires IsRun(ls) && id < |After(ls).pool| && After(ls).pool[id].phase in {Returning(Dropped), Over(Dropped)}
    ensures After(ls).pool[id].job.Delete? && SeenThere(ls, id, After(ls).pool[id].job)
  {
    var n := |ls| - 1;
    var s, l, t := After(ls[..n]), ls[n], After(ls).pool[id];
    OutcomeStep(s, l, id, Dropped);
    hide Apply, Enabled, Good;
    if s.pool[id].phase == Seen {
      var loose := RunSane(ls[..n]);
      PhaseHistory(ls[..n], id);
      SeenIsDelete(s, id, loose);
      var i: nat :| FirstAt(ls[..n], i, id, t.job);
      PrefixFacts(ls, n, i, id, t.job);
    } else {
      DroppedThere(ls[..n], id);
      SeenThereStays(ls, n, id, t.job);
    }
  }

  lemma SeenIsDelete(s: State, id: nat, loose: set<string>)
    requires Good(s, loose) && id < |s.pool| && s.pool[id].phase == Seen
    ensures s.pool[id].job.Delete?
  {
  }

  /** A timer that counts as delivered has called the handler. */
  lemma {:induction false} DeliveredLogged(ls: seq<Label>, id: nat)
    requires IsRun(ls) && id < |After(ls).pool| && WasDelivered(After(ls).pool[id])
    ensures id in After(ls).log
  {
    var n := |ls| - 1;
    var s, l := After(ls[..n]), ls[n];
    OutcomeStep(s, l, id, Delivered);
    StepLogged(s, l);
    hide Apply, Enabled;
    if WasDelivered(s.pool[id]) {
      DeliveredLogged(ls[..n], id);
    }
  }

  lemma StepLogged(s: State, l: Label)
    requires Enabled(s, l)
    ensures Apply(s, l).log == if l.Deliver? then s.log + [l.id] else s.log
  {
    if !IsTimerLabel(l) {
      EventFrame(s, l);
    }
  }

  // ----- Every event is reported as what it was ------------------------------------------------------

  /** The timer is on its way to the handler, or has called it, or is a delete whose path was there. */
  ghost predicate Reported(ls: seq<Label>, id: nat)
    requires id < |After(ls).pool|
  {
    var s := After(ls);
    || Live(s, id)
    || id in s.log
    || (s.pool[id].job.Delete? && SeenThere(ls, id, s.pool[id].job))
  }

  /** In every run in which no event is lost: the newest event of each path, unless the loop has it in hand,
      has one timer with the job that fits it: a modify after a write or a create, a delete after a removal
      or a rename away, a rename after a paired create. This timer can still call the handler, or has done
      so, or is a delete that found its path there; so a write is never forgotten. */
  lemma {:induction false} EventReported(ls: seq<Label>, k: nat, rel: string)
    requires IsRun(ls) && KeepsEvents(ls) && NewestAt(ls, k, rel)
    requires !After(ls).closed && After(ls).loop != Handling(rel)
    ensures exists id: nat ::
      id < |After(ls).pool| && FitsAt(ls, k, After(ls).pool[id].job) && Reported(ls, id)
  {
    var s := After(ls);
    assert ls[..|ls|] == ls;
    NewestGen(ls, k, |ls|, rel);
    WatcherCoverage(ls, rel);
    hide IsRun, After, NewestAt, KeepsEvents, Fits, Gen, Settled, Live;
    var id: nat :| Holds(s, id, rel, Gen(s, rel));
    HolderFits(ls, k, rel, id);
    SettledReported(ls, id);
  }

  lemma {:induction false} SettledReported(ls: seq<Label>, id: nat)
    requires IsRun(ls) && Settled(After(ls), id)
    ensures Reported(ls, id)
  {
    var s := After(ls);
    hide IsRun, After;
    if s.pool[id].phase in {Returning(Dropped), Over(Dropped)} {
      DroppedThere(ls, id);
    } else if WasDelivered(s.pool[id]) {
      DeliveredLogged(ls, id);
    }
  }

  // ----- Renames are paired --------------------------------------------------------------------------

  /** The step leaves the pending timer `id` of a rename away from `o` in its place. */
  predicate LeavesPending(l: Label, o: string, id: nat) {
    !(l.Create? || l.RenameAway? || l == Write(o) || l == Remove(o) || l == EnterTimer(id) || l == CloseLock)
  }

  predicate PendsFor(s: State, o: string, id: nat) {
    s.pending == Some(id) && id < |s.pool| && s.pool[id].job.Delete? && s.pool[id].job.rel == o && !s.loop.Handling?
  }

  lemma PendingKept(s: State, l: Label, o: string, id: nat)
    requires Enabled(s, l) && PendsFor(s, o, id) && LeavesPending(l, o, id)
    ensures PendsFor(Apply(s, l), o, id)
  {
    StepAdds(s, l);
    if l.Write? {
      CancelAdds(s, Key(DeleteKey, l.rel));
      ScheduleKeeps(Bump(CancelTimer(s, Key(DeleteKey, l.rel)), l.rel), l.rel);
    } else if l.Remove? {
      CancelAdds(s, Key(ModifyKey, l.rel));
      ScheduleKeeps(Bump(CancelTimer(s, Key(ModifyKey, l.rel)), l.rel), l.rel);
    } else {
      hide OnWrite, OnRemove, OnRenameAway, OnCreate, OnCreateRest;
    }
  }

  lemma ScheduleKeeps(s: State, rel: string)
    ensures var t := Schedule(s, Modify(rel, Gen(s, rel))); t.pending == s.pending && t.loop == s.loop
    ensures var t := Schedule(s, Delete(rel, Gen(s, rel))); t.pending == s.pending && t.loop == s.loop
  {
    ScheduleAdds(s, Modify(rel, Gen(s, rel)));
    ScheduleAdds(s, Delete(rel, Gen(s, rel)));
  }

  lemma {:induction false} PendingThrough(ls: seq<Label>, j: nat, n: nat, o: string, id: nat)
    requires IsRun(ls) && j < n <= |ls| && ls[j] == RenameAway(o) && After(ls[..j + 1]).pending == Some(id)
    requires forall m | j < m < n :: LeavesPending(ls[m], o, id)
    ensures PendsFor(After(ls[..n]), o, id)
  {
    hide Apply, Enabled, Gen, LeavesPending, Good;
    PrefixRun(ls, n);
    assert ls[..n][..n - 1] == ls[..n - 1];
    if n == j + 1 {
      RenameAwayPends(After(ls[..j]), o, id);
    } else {
      PendingThrough(ls, j, n - 1, o, id);
      PendingKept(After(ls[..n - 1]), ls[n - 1], o, id);
    }
  }

  lemma RenameAwayPends(s: State, o: string, id: nat)
    requires Enabled(s, RenameAway(o)) && Apply(s, RenameAway(o)).pending == Some(id)
    ensures PendsFor(Apply(s, RenameAway(o)), o, id)
  {
    RenameAwayAdds(s, o);
    FlushLoop(s);
  }

  lemma FlushLoop(s: State)
    ensures forall rel :: OnRenameAway(s, rel).loop == s.loop
  {
  }

  /** A rename away is paired with the next `Create` of another path, as long as its timer `id` has not run, its
      path has no event of its own and the watcher is open: the two become one rename. */
  lemma {:induction false} RenamePaired(ls: seq<Label>, j: nat, id: nat, o: string, n: string)
    requires IsRun(ls) && j < |ls| - 1 && ls[j] == RenameAway(o) && ls[|ls| - 1] == Create(n) && o != n
    requires !After(ls[..|ls| - 1]).closed
    requires After(ls[..j + 1]).pending == Some(id) && forall m | j < m < |ls| - 1 :: LeavesPending(ls[m], o, id)
    ensures var s, armed := After(ls), |After(ls[..|ls| - 1]).pool|;
      armed < |s.pool| && Live(s, armed) && s.pool[armed].job == Rename(o, n, Gen(s, o), Gen(s, n))
  {
    hide *;
    PendingThrough(ls, j, |ls| - 1, o, id);
    CreatePairs(After(ls[..|ls| - 1]), o, id, n);
    CreateApplies(ls, n);
  }

  lemma {:induction false} CreateApplies(ls: seq<Label>, n: string)
    requires IsRun(ls) && ls != [] && ls[|ls| - 1] == Create(n)
    ensures After(ls) == OnCreate(After(ls[..|ls| - 1]), n)
  {
    hide OnCreate;
  }

  lemma CreatePairs(s: State, o: string, pending: nat, n: string)
    requires PendsFor(s, o, pending) && o != n && !s.closed
    ensures var t, id := OnCreate(s, n), |s.pool|;
      id < |t.pool| && Live(t, id) && t.pool[id].job == Rename(o, n, Gen(t, o), Gen(t, n))
  {
    CreateAdds(s, n);
    hide OnCreate, Gen;
  }
}
