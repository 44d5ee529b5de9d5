/** What the watcher hands to its handler: each event at most once, and deletes only with evidence. */
module WatcherDeliveries {
  import opened Watcher
  import opened WatcherProofs
  import opened WatcherRuns

  // ----- At most once -----------------------------------------------------------------------------

  predicate WasDelivered(t: Timer) { t.phase == Returning(Delivered) || t.phase == Over(Delivered) }

  ghost predicate LogOK(s: State) {
    && (forall k | 0 <= k < |s.log| :: s.log[k] < |s.pool| && WasDelivered(s.pool[s.log[k]]))
    && (forall i, j | 0 <= i < j < |s.log| :: s.log[i] != s.log[j])
  }

  /** A delivered timer stays delivered, and the log grows only by one that was not. */
  lemma TimerLog(s: State, l: Label)
    requires LogOK(s) && Enabled(s, l) && IsTimerLabel(l)
    ensures LogOK(Apply(s, l))
  {
    var t := Apply(s, l);
    TimerLogGrows(s, l);
    forall k | 0 <= k < |s.log| ensures s.log[k] < |t.pool| && WasDelivered(t.pool[s.log[k]]) {
      KeepsDelivered(s, l, s.log[k]);
    }
    hide Apply, Enabled;
    if l.Deliver? {
      assert forall k | 0 <= k < |s.log| :: t.log[k] == s.log[k];
    }
  }

  lemma TimerLogGrows(s: State, l: Label)
    requires Enabled(s, l) && IsTimerLabel(l)
    ensures var t := Apply(s, l);
      && |t.pool| == |s.pool|
      && t.log == (if l.Deliver? then s.log + [l.id] else s.log)
      && (l.Deliver? ==> l.id < |s.pool| && !WasDelivered(s.pool[l.id]) && WasDelivered(t.pool[l.id]))
  {
    hide ApplyEvent, EventEnabled, Enter;
  }

  lemma KeepsDelivered(s: State, l: Label, id: nat)
    requires Enabled(s, l) && IsTimerLabel(l) && id < |s.pool| && WasDelivered(s.pool[id])
    ensures id < |Apply(s, l).pool| && WasDelivered(Apply(s, l).pool[id])
  {
    hide ApplyEvent, EventEnabled;
    if !OnTimer(l, id) {
      TimerFrame(s, l, id);
    }
  }

  lemma StepLog(s: State, l: Label)
    requires LogOK(s) && Enabled(s, l)
    ensures LogOK(Apply(s, l))
  {
    if IsTimerLabel(l) {
      TimerLog(s, l);
    } else {
      EventFrame(s, l);
      var t := Apply(s, l);
      hide Apply;
      forall k | 0 <= k < |t.log| ensures t.log[k] < |t.pool| && WasDelivered(t.pool[t.log[k]]) {
        assert Evolves(s.pool[s.log[k]], t.pool[s.log[k]]);
      }
    }
  }

  lemma {:induction false} RunLog(ls: seq<Label>)
    requires IsRun(ls)
    ensures LogOK(After(ls))
  {
    if ls != [] {
      hide Apply, LogOK, Enabled;
      RunLog(ls[..|ls| - 1]);
      StepLog(After(ls[..|ls| - 1]), ls[|ls| - 1]);
    } else {
      assert LogOK(INITIAL);
    }
  }

  /** No event reaches the handler twice, even when a `Stop` comes too late. */
  lemma {:induction false} NeverTwice(ls: seq<Label>, i: nat, j: nat, rel: string, g: int)
    requires IsRun(ls) && var s := After(ls); i < |s.log| && j < |s.log|
    requires var s := After(ls);
      forall k: nat | k == i || k == j :: s.log[k] < |s.pool| && Covers(s.pool[s.log[k]].job, rel, g)
    ensures i == j
  {
    var s := After(ls);
    RunLog(ls);
    var loose := RunSane(ls);
    assert Holds(s, s.log[i], rel, g) && Holds(s, s.log[j], rel, g);
  }

  // ----- Deletes are justified ---------------------------------------------------------------------

  /** At step `i` timer `id` passed its first generation check: under the lock for a pending rename,
      at the start of the callback's work for a keyed delete. */
  ghost predicate FirstAt(ls: seq<Label>, i: nat, id: nat, job: Job) {
    i < |ls| && (ls[i] == EnterTimer(id) || ls[i] == FirstCheck(id)) && Current(After(ls[..i]), job)
  }

  ghost predicate MissingAt(ls: seq<Label>, j: nat, id: nat) { j < |ls| && ls[j] == DiskCheck(id, true) }

  ghost predicate SecondAt(ls: seq<Label>, k: nat, id: nat, job: Job) {
    k < |ls| && ls[k] == SecondCheck(id) && Current(After(ls[..k]), job)
  }

  ghost predicate Evidence(ls: seq<Label>, id: nat, job: Job, phase: Phase) {
    match phase
    case Seen => exists i: nat :: FirstAt(ls, i, id, job)
    case Missing => exists i: nat, j: nat :: i < j && FirstAt(ls, i, id, job) && MissingAt(ls, j, id)
    case Confirmed =>
      exists i: nat, j: nat, k: nat ::
        i < j < k && FirstAt(ls, i, id, job) && MissingAt(ls, j, id) && SecondAt(ls, k, id, job)
    case _ => true
  }

  /** What happened in a prefix happened in the run. */
  lemma {:induction false} PrefixFacts(ls: seq<Label>, n: nat, i: nat, id: nat, job: Job)
    requires n <= |ls| && i < n
    ensures ls[..n][..i] == ls[..i] && ls[..n][i] == ls[i]
    ensures FirstAt(ls[..n], i, id, job) == FirstAt(ls, i, id, job)
    ensures MissingAt(ls[..n], i, id) == MissingAt(ls, i, id)
    ensures SecondAt(ls[..n], i, id, job) == SecondAt(ls, i, id, job)
  {
    assert ls[..n][..i] == ls[..i];
  }

  lemma {:induction false} EvidenceStays(ls: seq<Label>, n: nat, id: nat, job: Job, phase: Phase)
    requires n <= |ls| && Evidence(ls[..n], id, job, phase)
    ensures Evidence(ls, id, job, phase)
  {
    if phase == Seen {
      var i: nat :| FirstAt(ls[..n], i, id, job);
      PrefixFacts(ls, n, i, id, job);
    } else if phase == Missing {
      var i: nat, j: nat :| i < j && FirstAt(ls[..n], i, id, job) && MissingAt(ls[..n], j, id);
      PrefixFacts(ls, n, i, id, job);
      PrefixFacts(ls, n, j, id, job);
    } else if phase == Confirmed {
      var i: nat, j: nat, k: nat :|
        i < j < k && FirstAt(ls[..n], i, id, job) && MissingAt(ls[..n], j, id) && SecondAt(ls[..n], k, id, job);
      PrefixFacts(ls, n, i, id, job);
      PrefixFacts(ls, n, j, id, job);
      PrefixFacts(ls, n, k, id, job);
    }
  }

  /** A step that does not belong to the timer cannot bring it into one of the checked phases. */
  lemma OthersKeepPhase(s: State, l: Label, id: nat)
    requires Enabled(s, l) && !OnTimer(l, id)
    requires id < |Apply(s, l).pool| && Apply(s, l).pool[id].phase in {Seen, Missing, Confirmed}
    ensures id < |s.pool| && Apply(s, l).pool[id] == s.pool[id]
  {
    if IsTimerLabel(l) {
      hide ApplyEvent, EventEnabled;
      assert id < |s.pool|;
      TimerFrame(s, l, id);
    } else {
      EventFrame(s, l);
      hide Apply;
      assert id < |s.pool| ==> Evolves(s.pool[id], Apply(s, l).pool[id]);
    }
  }

  /** The timer's own steps, as far as they lead into a checked phase. */
  lemma OwnStep(s: State, l: Label, id: nat)
    requires Enabled(s, l) && OnTimer(l, id) && id < |s.pool|
    ensures var t := Apply(s, l);
      && |t.pool| == |s.pool| && t.pool[id].job == s.pool[id].job
      && (t.pool[id].phase == Seen ==> (l == EnterTimer(id) || l == FirstCheck(id)) && Current(s, s.pool[id].job))
      && (t.pool[id].phase == Missing ==> l == DiskCheck(id, true) && s.pool[id].phase == Seen)
      && (t.pool[id].phase == Confirmed ==>
            l == SecondCheck(id) && s.pool[id].phase == Missing && Current(s, s.pool[id].job))
  {
    hide ApplyEvent, EventEnabled;
  }

  lemma {:induction false} PhaseHistory(ls: seq<Label>, id: nat)
    requires IsRun(ls) && id < |After(ls).pool|
    ensures Evidence(ls, id, After(ls).pool[id].job, After(ls).pool[id].phase)
  {
    var n := |ls| - 1;
    if ls != [] && After(ls).pool[id].phase in {Seen, Missing, Confirmed} {
      var s, l, job, phase := After(ls[..n]), ls[n], After(ls).pool[id].job, After(ls).pool[id].phase;
      hide Apply, Enabled, Evidence;
      if !OnTimer(l, id) {
        OthersKeepPhase(s, l, id);
        PhaseHistory(ls[..n], id);
        EvidenceStays(ls, n, id, job, phase);
      } else {
        OwnTimerExists(s, l, id);
        OwnStep(s, l, id);
        PhaseHistory(ls[..n], id);
        EvidenceStays(ls, n, id, job, s.pool[id].phase);
        EvidenceGrows(ls, id, job, s.pool[id].phase, phase);
      }
    }
  }

  lemma OwnTimerExists(s: State, l: Label, id: nat)
    requires Enabled(s, l) && OnTimer(l, id)
    ensures id < |s.pool|
  {
  }

  lemma {:induction false} EvidenceGrows(ls: seq<Label>, id: nat, job: Job, before: Phase, phase: Phase)
    requires ls != [] && var n := |ls| - 1;
      && Evidence(ls[..n], id, job, before)
      && (phase == Seen ==> FirstAt(ls, n, id, job))
      && (phase == Missing ==> before == Seen && MissingAt(ls, n, id))
      && (phase == Confirmed ==> before == Missing && SecondAt(ls, n, id, job))
      && phase in {Seen, Missing, Confirmed}
    ensures Evidence(ls, id, job, phase)
  {
    var n := |ls| - 1;
    if phase == Missing {
      var i: nat :| FirstAt(ls[..n], i, id, job);
      PrefixFacts(ls, n, i, id, job);
    } else if phase == Confirmed {
      var i: nat, j: nat :| i < j && FirstAt(ls[..n], i, id, job) && MissingAt(ls[..n], j, id);
      PrefixFacts(ls, n, i, id, job);
      PrefixFacts(ls, n, j, id, job);
    }
  }

  lemma StepGen(s: State, l: Label, rel: string)
    requires Enabled(s, l)
    ensures Gen(Apply(s, l), rel) >= Gen(s, rel)
  {
    if !IsTimerLabel(l) {
      EventFrame(s, l);
      hide Apply;
    }
  }

  lemma {:induction false} GenMonotone(ls: seq<Label>, a: nat, rel: string)
    requires IsRun(ls) && a <= |ls|
    ensures Gen(After(ls[..a]), rel) <= Gen(After(ls), rel)
  {
    hide Apply, Enabled, Gen;
    if a == |ls| {
      assert ls[..a] == ls;
    } else {
      var n := |ls| - 1;
      StepGen(After(ls[..n]), ls[n], rel);
      GenMonotone(ls[..n], a, rel);
      assert ls[..n][..a] == ls[..a];
    }
  }

  lemma GenThroughout(ls: seq<Label>, i: nat, k: nat, rel: string, g: nat)
    requires IsRun(ls) && i <= k <= |ls|
    requires Gen(After(ls[..i]), rel) == g == Gen(After(ls[..k]), rel)
    ensures forall m: nat | i <= m <= k :: Gen(After(ls[..m]), rel) == g
  {
    hide After, IsRun, Gen;
    forall m: nat | i <= m <= k ensures Gen(After(ls[..m]), rel) == g {
      GenBetween(ls, i, m, rel);
      GenBetween(ls, m, k, rel);
    }
  }

  lemma {:induction false} GenBetween(ls: seq<Label>, a: nat, b: nat, rel: string)
    requires IsRun(ls) && a <= b <= |ls|
    ensures Gen(After(ls[..a]), rel) <= Gen(After(ls[..b]), rel)
  {
    hide After, IsRun, Gen;
    PrefixRun(ls, b);
    GenMonotone(ls[..b], a, rel);
    assert ls[..b][..a] == ls[..a];
  }

  /** A delivered delete passed a generation check, then saw the path missing, then passed another
      generation check; no event on the path came in between, so at the second check the delete still
      stood for the latest event. The same holds for all three sources of deletes. */
  lemma {:induction false} DeleteJustified(ls: seq<Label>, n: nat, id: nat)
    requires IsRun(ls) && n < |ls| && ls[n] == Deliver(id)
    requires var s := After(ls[..n]); id < |s.pool| && s.pool[id].job.Delete?
    ensures var job := After(ls[..n]).pool[id].job;
      exists i: nat, j: nat, k: nat ::
        && i < j < k < n && FirstAt(ls, i, id, job) && MissingAt(ls, j, id) && SecondAt(ls, k, id, job)
        && forall m: nat | i <= m <= k :: Gen(After(ls[..m]), job.rel) == job.gen
  {
    var job := After(ls[..n]).pool[id].job;
    PrefixRun(ls, n + 1);
    assert ls[..n + 1][..n] == ls[..n];
    DeletesAreConfirmed(After(ls[..n]), id);
    PrefixRun(ls, n);
    PhaseHistory(ls[..n], id);
    hide After, IsRun;
    var i: nat, j: nat, k: nat :|
      i < j < k && FirstAt(ls[..n], i, id, job) && MissingAt(ls[..n], j, id) && SecondAt(ls[..n], k, id, job);
    PrefixFacts(ls, n, i, id, job);
    PrefixFacts(ls, n, j, id, job);
    PrefixFacts(ls, n, k, id, job);
    GenAtChecks(ls, i, k, id, job);
    hide FirstAt, MissingAt, SecondAt;
    GenThroughout(ls, i, k, job.rel, job.gen);
  }

  lemma {:induction false} GenAtChecks(ls: seq<Label>, i: nat, k: nat, id: nat, job: Job)
    requires FirstAt(ls, i, id, job) && SecondAt(ls, k, id, job) && job.Delete?
    ensures Gen(After(ls[..i]), job.rel) == job.gen == Gen(After(ls[..k]), job.rel)
  {
    hide After;
  }

  lemma {:induction false} PrefixRun(ls: seq<Label>, n: nat)
    requires IsRun(ls) && n <= |ls|
    ensures IsRun(ls[..n])
  {
    assert ls[..|ls|] == ls;
    if n < |ls| {
      PrefixRun(ls[..|ls| - 1], n);
      assert ls[..|ls| - 1][..n] == ls[..n];
    }
  }

  /** A delete is only ever handed over from the confirmed phase. */
  lemma DeletesAreConfirmed(s: State, id: nat)
    requires Enabled(s, Deliver(id)) && s.pool[id].job.Delete?
    ensures s.pool[id].phase == Confirmed
  {
  }
}
