/** Who owns the running sync round, how it ends, and how a watcher overflow gets its full scan
    (`internal/sync/startup.go`, `internal/sync/local_events.go`, `internal/sync/client.go`). */
module SyncRound {
  // ----- State ---------------------------------------------------------------------------------------

  /** A round's goroutines: the scan and the requests, then the polling of `runCheckSyncCompletion`.
      `Completing` and `Stalled` are past its tests, `Marking` is about to set the initial-sync marker. */
  datatype Phase = Scanning | Checking | Completing | Stalled | Marking | Over

  datatype Worker = Worker(round: nat, full: bool, phase: Phase)

  datatype Outcome = Outcome(round: nat, complete: bool)

  /** `handoffs`: spawned `handleSync(false)` that have not run; `errors`: round ids read by the dispatcher
      for a service error; `started`: for each round id, from 1 on, whether it is full; `marks`: the rounds
      that set the marker. */
  datatype State = State(
    isSyncing: bool, roundId: nat, pending: bool, initSync: bool, manual: bool,
    register: bool, conn: bool, open: bool, auth: bool,
    handoffs: nat, errors: set<nat>, workers: seq<Worker>, started: seq<bool>, outcomes: seq<Outcome>, marks: seq<nat>)

  function Initial(initSync: bool, manual: bool): State {
    State(false, 0, false, initSync, manual, true, false, false, false, 0, {}, [], [], [], [])
  }

  predicate Owns(s: State, round: nat) { s.isSyncing && s.roundId == round }

  // ----- Critical sections --------------------------------------------------------------------------

  /** Ids only grow, and only a new round takes the service. */
  predicate Forward(s: State, t: State) {
    s.roundId <= t.roundId && t.manual == s.manual && (t.isSyncing ==> s.isSyncing || t.roundId > s.roundId)
  }

  /** Critical sections only add goroutines and leave the marker alone. */
  predicate Onward(s: State, t: State) {
    Forward(s, t) && t.initSync == s.initSync && t.marks == s.marks && s.workers <= t.workers
  }

  /** `handleSync`; a queued overflow makes the round full. */
  function StartRound(s: State, load: bool): (t: State)
    ensures Onward(s, t)
  {
    if s.isSyncing || s.manual then s
    else
      var full := s.pending || !load;
      s.(pending := false, isSyncing := true, roundId := s.roundId + 1, started := s.started + [full],
         workers := s.workers + [Worker(s.roundId + 1, full, Scanning)])
  }

  /** `go s.handleSync(false)`; `atomic` takes the hand-off as one step. */
  function Spawn(atomic: bool, s: State): (t: State)
    ensures Onward(s, t)
  {
    if atomic then StartRound(s, false) else s.(handoffs := s.handoffs + 1)
  }

  function HandleOverflow(atomic: bool, s: State): (t: State)
    ensures Onward(s, t)
  {
    if s.manual then s else if s.isSyncing then s.(pending := true) else Spawn(atomic, s)
  }

  function OnFailed(atomic: bool, s: State, round: nat): (t: State)
    ensures Onward(s, t)
  {
    if !Owns(s, round) then s
    else
      var now := s.pending && s.register && s.conn && s.open && s.auth;
      var t := s.(isSyncing := false, pending := s.pending && !now, outcomes := s.outcomes + [Outcome(round, false)]);
      if now then Spawn(atomic, t) else t
  }

  function OnComplete(atomic: bool, s: State, round: nat): (t: State)
    ensures Onward(s, t)
  {
    if !Owns(s, round) then s
    else
      var t := s.(isSyncing := false, pending := false, outcomes := s.outcomes + [Outcome(round, true)]);
      if s.pending then Spawn(atomic, t) else t
  }

  /** The end of `connectOnce`, a section of its own after `readLoop` has closed the connection. */
  function TearDown(s: State, stay: bool): State {
    s.(open := false, auth := false, isSyncing := false, register := s.register && stay)
  }

  // ----- Steps ---------------------------------------------------------------------------------------

  /** `ClientInfo`, `Authorized`, `ErrorRead` and `ErrorFails` are handled by the read loop. `Closed`: it
      returns, which it does only between messages. */
  datatype Label =
    | ClientInfo(load: bool) | RunHandoff | Overflow
    | Dialed | Authorized | Closed | Disconnect(stay: bool)
    | ErrorRead | ErrorFails(round: nat)
    | ScanFailed(w: nat) | Requested(w: nat) | Poll(w: nat, complete: bool, stalled: bool)
    | Complete(w: nat) | Stall(w: nat) | Mark(w: nat)

  predicate In(s: State, w: nat, phase: Phase) { w < |s.workers| && s.workers[w].phase == phase }

  predicate Enabled(s: State, l: Label) {
    match l
    case ClientInfo(load) => s.conn && (load ==> s.initSync)
    case Dialed => !s.open
    case Authorized => s.conn
    case Closed => s.conn
    case Disconnect(_) => s.open && !s.conn
    case ErrorRead => s.conn
    case RunHandoff => s.handoffs > 0
    case ErrorFails(round) => s.conn && round in s.errors
    case ScanFailed(w) => In(s, w, Scanning)
    case Requested(w) => In(s, w, Scanning)
    case Poll(w, _, _) => In(s, w, Checking)
    case Complete(w) => In(s, w, Completing)
    case Stall(w) => In(s, w, Stalled)
    case Mark(w) => In(s, w, Marking)
    case _ => true
  }

  function Goto(s: State, w: nat, phase: Phase): State
    requires w < |s.workers|
  {
    s.(workers := s.workers[w := s.workers[w].(phase := phase)])
  }

  function AfterPoll(s: State, w: nat, complete: bool, stalled: bool): Phase
    requires w < |s.workers|
  {
    if !Owns(s, s.workers[w].round) then Over
    else if complete then Completing else if stalled then Stalled else Checking
  }

  predicate IsWorkerLabel(l: Label) {
    l.ScanFailed? || l.Requested? || l.Poll? || l.Complete? || l.Stall? || l.Mark?
  }

  function ApplyService(atomic: bool, s: State, l: Label): State
    requires Enabled(s, l) && !IsWorkerLabel(l)
  {
    match l
    case ClientInfo(load) => StartRound(s, load)
    case RunHandoff => StartRound(s.(handoffs := s.handoffs - 1), false)
    case Overflow => HandleOverflow(atomic, s)
    case Dialed => s.(conn := true, open := true, auth := false)
    case Authorized => s.(auth := true)
    case Closed => s.(conn := false, errors := {})
    case Disconnect(stay) => TearDown(s, stay)
    case ErrorRead => s.(errors := s.errors + {s.roundId})
    case ErrorFails(round) => OnFailed(atomic, s, round)
  }

  function ApplyWorker(atomic: bool, s: State, l: Label): State
    requires Enabled(s, l) && IsWorkerLabel(l)
  {
    var worker := s.workers[l.w];
    match l
    case ScanFailed(w) => Goto(OnFailed(atomic, s, worker.round), w, Over)
    case Requested(w) => Goto(s, w, if Owns(s, worker.round) then Checking else Over)
    case Poll(w, complete, stalled) => Goto(s, w, AfterPoll(s, w, complete, stalled))
    case Complete(w) =>
      Goto(OnComplete(atomic, s, worker.round), w, if Owns(s, worker.round) && worker.full then Marking else Over)
    case Stall(w) => Goto(OnFailed(atomic, s, worker.round), w, Over)
    case Mark(w) => Goto(s, w, Over).(initSync := true, marks := s.marks + [worker.round])
  }

  function Apply(atomic: bool, s: State, l: Label): State
    requires Enabled(s, l)
  {
    if IsWorkerLabel(l) then ApplyWorker(atomic, s, l) else ApplyService(atomic, s, l)
  }

  ghost predicate IsRun(atomic: bool, init: State, ls: seq<Label>) {
    ls == [] || (IsRun(atomic, init, ls[..|ls| - 1]) && Enabled(After(atomic, init, ls[..|ls| - 1]), ls[|ls| - 1]))
  }

  ghost function After(atomic: bool, init: State, ls: seq<Label>): State {
    if ls == [] then init
    else
      var s := After(atomic, init, ls[..|ls| - 1]);
      if Enabled(s, ls[|ls| - 1]) then Apply(atomic, s, ls[|ls| - 1]) else s
  }

  // ----- Ownership -----------------------------------------------------------------------------------

  predicate IsFull(s: State, round: nat) { 1 <= round <= |s.started| && s.started[round - 1] }

  ghost predicate RoundsOK(s: State) {
    && |s.started| == s.roundId && (s.isSyncing ==> s.roundId > 0)
    && (forall w | 0 <= w < |s.workers| :: WorkerOK(s, s.workers[w]))
  }

  predicate WorkerOK(s: State, worker: Worker) {
    && 1 <= worker.round <= |s.started| && worker.full == s.started[worker.round - 1]
    && (worker.phase.Marking? ==> worker.full && Outcome(worker.round, true) in s.outcomes)
  }

  ghost predicate OutcomesOK(s: State) {
    && (forall i | 0 <= i < |s.outcomes| :: s.outcomes[i].round <= s.roundId && !Owns(s, s.outcomes[i].round))
    && (forall i, j | 0 <= i < j < |s.outcomes| :: s.outcomes[i].round != s.outcomes[j].round)
    && (forall i | 0 <= i < |s.marks| :: Outcome(s.marks[i], true) in s.outcomes && IsFull(s, s.marks[i]))
  }

  ghost predicate Good(s: State) { RoundsOK(s) && OutcomesOK(s) }

  lemma StartGood(s: State, load: bool)
    requires Good(s)
    ensures Good(StartRound(s, load))
  {
  }

  lemma SpawnGood(atomic: bool, s: State)
    requires Good(s)
    ensures Good(Spawn(atomic, s))
  {
    hide Good, StartRound, Onward;
    StartGood(s, false);
    QuietGood(s, s.(handoffs := s.handoffs + 1));
  }

  /** Ending a round that owns the service. */
  lemma EndGood(s: State, complete: bool, pending: bool)
    requires Good(s) && s.isSyncing
    ensures
      var t := s.(isSyncing := false, pending := pending, outcomes := s.outcomes + [Outcome(s.roundId, complete)]);
      Good(t) && Outcome(s.roundId, complete) in t.outcomes
  {
    var t := s.(isSyncing := false, pending := pending, outcomes := s.outcomes + [Outcome(s.roundId, complete)]);
    assert forall o | o in s.outcomes :: o in t.outcomes;
    forall w | 0 <= w < |t.workers| ensures WorkerOK(t, t.workers[w]) {
      assert WorkerOK(s, s.workers[w]);
    }
  }

  lemma FailedGood(atomic: bool, s: State, round: nat)
    requires Good(s)
    ensures Good(OnFailed(atomic, s, round))
  {
    if Owns(s, round) {
      var now := s.pending && s.register && s.conn && s.open && s.auth;
      EndGood(s, false, s.pending && !now);
      SpawnGood(atomic, s.(isSyncing := false, pending := s.pending && !now,
        outcomes := s.outcomes + [Outcome(round, false)]));
    }
  }

  lemma GotoGood(s: State, w: nat, phase: Phase)
    requires Good(s) && w < |s.workers| && !phase.Marking?
    ensures Good(Goto(s, w, phase))
  {
    var t := Goto(s, w, phase);
    forall x | 0 <= x < |t.workers| ensures WorkerOK(t, t.workers[x]) {
      assert WorkerOK(s, s.workers[x]);
    }
  }

  lemma OnCompleteGood(atomic: bool, s: State, round: nat)
    requires Good(s)
    ensures var t := OnComplete(atomic, s, round);
      Good(t) && (Owns(s, round) ==> Outcome(round, true) in t.outcomes) && s.started <= t.started
  {
    if Owns(s, round) {
      EndGood(s, true, false);
      hide Good;
      SpawnGood(atomic, s.(isSyncing := false, pending := false, outcomes := s.outcomes + [Outcome(round, true)]));
    }
  }

  lemma MarkingGood(s: State, w: nat)
    requires Good(s) && w < |s.workers| && s.workers[w].full && Outcome(s.workers[w].round, true) in s.outcomes
    ensures Good(Goto(s, w, Marking))
  {
    var t := Goto(s, w, Marking);
    forall x | 0 <= x < |t.workers| ensures WorkerOK(t, t.workers[x]) {
      assert WorkerOK(s, s.workers[x]);
    }
  }

  lemma CompleteGood(atomic: bool, s: State, w: nat)
    requires Good(s) && Enabled(s, Complete(w))
    ensures Good(ApplyWorker(atomic, s, Complete(w)))
  {
    var worker, t := s.workers[w], OnComplete(atomic, s, s.workers[w].round);
    OnCompleteGood(atomic, s, worker.round);
    hide Good, OnComplete;
    assert t.workers[w] == worker;
    if Owns(s, worker.round) && worker.full {
      MarkingGood(t, w);
    } else {
      GotoGood(t, w, Over);
    }
  }

  lemma MarkGood(atomic: bool, s: State, w: nat)
    requires Good(s) && Enabled(s, Mark(w))
    ensures Good(ApplyWorker(atomic, s, Mark(w)))
  {
    hide OnFailed, OnComplete, StartRound, Spawn, Forward, Onward;
    assert WorkerOK(s, s.workers[w]);
    GotoGood(s, w, Over);
  }

  lemma StepGood(atomic: bool, s: State, l: Label)
    requires Good(s) && Enabled(s, l)
    ensures Good(Apply(atomic, s, l))
  {
    if IsWorkerLabel(l) {
      WorkerGood(atomic, s, l);
    } else {
      ServiceGood(atomic, s, l);
    }
    hide ApplyService, ApplyWorker, Good;
  }

  lemma ServiceGood(atomic: bool, s: State, l: Label)
    requires Good(s) && Enabled(s, l) && !IsWorkerLabel(l)
    ensures Good(ApplyService(atomic, s, l))
  {
    hide Good, OnFailed, StartRound, Spawn, Onward, HandleOverflow;
    if l.ClientInfo? {
      StartGood(s, l.load);
    } else if l.RunHandoff? {
      HandoffGood(s);
    } else if l.Overflow? {
      OverflowGood(atomic, s);
    } else if l.ErrorFails? {
      FailedGood(atomic, s, l.round);
    } else {
      ConnectionGood(s, ApplyService(atomic, s, l));
    }
  }

  lemma ConnectionGood(s: State, t: State)
    requires Good(s) && (t.isSyncing ==> s.isSyncing)
    requires t == s.(isSyncing := t.isSyncing, register := t.register, conn := t.conn, open := t.open, auth := t.auth,
        errors := t.errors)
    ensures Good(t)
  {
    hide Good;
    QuietGood(s, t);
  }

  lemma HandoffGood(s: State)
    requires Good(s) && s.handoffs > 0
    ensures Good(StartRound(s.(handoffs := s.handoffs - 1), false))
  {
    hide Good, StartRound, Onward;
    QuietGood(s, s.(handoffs := s.handoffs - 1));
    StartGood(s.(handoffs := s.handoffs - 1), false);
  }

  lemma OverflowGood(atomic: bool, s: State)
    requires Good(s)
    ensures Good(HandleOverflow(atomic, s))
  {
    hide Good, Spawn, Onward;
    QuietGood(s, s.(pending := true));
    SpawnGood(atomic, s);
  }

  lemma WorkerGood(atomic: bool, s: State, l: Label)
    requires Good(s) && Enabled(s, l) && IsWorkerLabel(l)
    ensures Good(ApplyWorker(atomic, s, l))
  {
    hide Good, OnFailed, StartRound, OnComplete, Spawn, Forward, Onward;
    match l
    case ScanFailed(w) => StallGood(atomic, s, w);
    case Requested(w) => GotoGood(s, w, if Owns(s, s.workers[w].round) then Checking else Over);
    case Poll(w, complete, stalled) => GotoGood(s, w, AfterPoll(s, w, complete, stalled));
    case Complete(w) => CompleteGood(atomic, s, w);
    case Stall(w) => StallGood(atomic, s, w);
    case Mark(w) => MarkGood(atomic, s, w);
  }

  lemma StallGood(atomic: bool, s: State, w: nat)
    requires Good(s) && w < |s.workers|
    ensures Good(Goto(OnFailed(atomic, s, s.workers[w].round), w, Over))
  {
    hide Good, OnFailed, Goto;
    assert s.workers <= OnFailed(atomic, s, s.workers[w].round).workers;
    FailedGood(atomic, s, s.workers[w].round);
    GotoGood(OnFailed(atomic, s, s.workers[w].round), w, Over);
  }

  lemma QuietGood(s: State, t: State)
    requires Good(s) && t.roundId == s.roundId && t.started == s.started && t.workers == s.workers
    requires t.outcomes == s.outcomes && t.marks == s.marks && (t.isSyncing ==> s.isSyncing)
    ensures Good(t)
  {
    forall w | 0 <= w < |t.workers| ensures WorkerOK(t, t.workers[w]) {
      assert WorkerOK(s, s.workers[w]);
    }
  }

  lemma {:induction false} RunGood(atomic: bool, initSync: bool, manual: bool, ls: seq<Label>)
    requires IsRun(atomic, Initial(initSync, manual), ls)
    ensures Good(After(atomic, Initial(initSync, manual), ls))
  {
    if ls != [] {
      hide Good, Apply, Enabled;
      RunGood(atomic, initSync, manual, ls[..|ls| - 1]);
      StepGood(atomic, After(atomic, Initial(initSync, manual), ls[..|ls| - 1]), ls[|ls| - 1]);
    } else {
      assert Good(Initial(initSync, manual));
    }
  }

  lemma ServiceForward(atomic: bool, s: State, l: Label)
    requires Enabled(s, l) && !IsWorkerLabel(l)
    ensures var t := ApplyService(atomic, s, l); Forward(s, t) && t.initSync == s.initSync && t.marks == s.marks
  {
    hide StartRound, Spawn, HandleOverflow, OnFailed;
  }

  lemma WorkerForward(atomic: bool, s: State, l: Label)
    requires Enabled(s, l) && IsWorkerLabel(l)
    ensures var t := ApplyWorker(atomic, s, l);
      && Forward(s, t) && t.marks == (if l.Mark? then s.marks + [s.workers[l.w].round] else s.marks)
      && t.initSync == (s.initSync || l.Mark?)
  {
    hide StartRound, Spawn, OnComplete, OnFailed;
  }

  /** A step does not give the service to a round that exists and does not run. */
  lemma StepOwner(atomic: bool, s: State, l: Label, round: nat)
    requires Enabled(s, l) && round <= s.roundId && !Owns(s, round)
    ensures s.roundId <= Apply(atomic, s, l).roundId && !Owns(Apply(atomic, s, l), round)
  {
    if IsWorkerLabel(l) {
      WorkerForward(atomic, s, l);
    } else {
      ServiceForward(atomic, s, l);
    }
    hide ApplyService, ApplyWorker;
  }

  /** A round that has lost the service never gets it back, whatever disconnects, stalls and stale
      checkers follow. */
  lemma {:induction false} LostForGood(atomic: bool, init: State, ls: seq<Label>, n: nat, round: nat)
    requires IsRun(atomic, init, ls) && n <= |ls|
    requires var s := After(atomic, init, ls[..n]); round <= s.roundId && !Owns(s, round)
    ensures var t := After(atomic, init, ls); round <= t.roundId && !Owns(t, round)
  {
    if n == |ls| {
      assert ls[..n] == ls;
    } else {
      var m := |ls| - 1;
      assert ls[..m][..n] == ls[..n];
      LostForGood(atomic, init, ls[..m], n, round);
      StepOwner(atomic, After(atomic, init, ls[..m]), ls[m], round);
    }
  }

  /** Each round ends at most once, and only rounds that are over have ended. */
  lemma {:induction false} OneOutcomeEach(atomic: bool, initSync: bool, manual: bool, ls: seq<Label>)
    requires IsRun(atomic, Initial(initSync, manual), ls)
    ensures var s := After(atomic, Initial(initSync, manual), ls);
      && (forall i, j | 0 <= i < j < |s.outcomes| :: s.outcomes[i].round != s.outcomes[j].round)
      && (forall i | 0 <= i < |s.outcomes| :: s.outcomes[i].round <= s.roundId && !Owns(s, s.outcomes[i].round))
  {
    RunGood(atomic, initSync, manual, ls);
  }

  lemma StepMarker(atomic: bool, s: State, l: Label)
    requires Enabled(s, l)
    ensures s.marks <= Apply(atomic, s, l).marks && Apply(atomic, s, l).manual == s.manual
    ensures Apply(atomic, s, l).initSync == (s.initSync || Apply(atomic, s, l).marks != s.marks)
  {
    if IsWorkerLabel(l) {
      WorkerForward(atomic, s, l);
    } else {
      ServiceForward(atomic, s, l);
    }
    hide ApplyService, ApplyWorker;
  }

  /** The initial-sync marker is set by nothing but full rounds that completed. */
  lemma {:induction false} MarkerNeedsFullRound(atomic: bool, initSync: bool, manual: bool, ls: seq<Label>)
    requires IsRun(atomic, Initial(initSync, manual), ls)
    ensures var s := After(atomic, Initial(initSync, manual), ls);
      && (s.initSync <==> initSync || s.marks != [])
      && forall i | 0 <= i < |s.marks| :: Outcome(s.marks[i], true) in s.outcomes && IsFull(s, s.marks[i])
  {
    RunGood(atomic, initSync, manual, ls);
    MarkerRun(atomic, initSync, manual, ls);
  }

  lemma {:induction false} MarkerRun(atomic: bool, initSync: bool, manual: bool, ls: seq<Label>)
    requires IsRun(atomic, Initial(initSync, manual), ls)
    ensures var s := After(atomic, Initial(initSync, manual), ls); s.initSync <==> initSync || s.marks != []
  {
    if ls != [] {
      MarkerRun(atomic, initSync, manual, ls[..|ls| - 1]);
      StepMarker(atomic, After(atomic, Initial(initSync, manual), ls[..|ls| - 1]), ls[|ls| - 1]);
      hide Apply, Enabled;
    }
  }

  /** A full round that has completed has set the marker, or its goroutine is about to. */
  ghost predicate MarkDue(s: State, round: nat) {
    round in s.marks || exists w: nat :: In(s, w, Marking) && s.workers[w].round == round
  }

  ghost predicate AllMarkDue(s: State) {
    forall round: nat | Outcome(round, true) in s.outcomes && IsFull(s, round) :: MarkDue(s, round)
  }

  /** Steps that complete no round and set no marker. */
  lemma MarkDueStays(s: State, t: State)
    requires AllMarkDue(s) && t.marks == s.marks
    requires forall round: nat | Outcome(round, true) in t.outcomes && IsFull(t, round) ::
      Outcome(round, true) in s.outcomes && IsFull(s, round)
    requires forall w: nat | In(s, w, Marking) :: In(t, w, Marking) && t.workers[w].round == s.workers[w].round
    ensures AllMarkDue(t)
  {
    forall round: nat | Outcome(round, true) in t.outcomes && IsFull(t, round) ensures MarkDue(t, round) {
      assert MarkDue(s, round);
    }
  }

  lemma OnCompleteAdds(s: State, round: nat)
    ensures var t := OnComplete(false, s, round);
      && t.workers == s.workers && t.marks == s.marks && t.started == s.started
      && t.outcomes == if Owns(s, round) then s.outcomes + [Outcome(round, true)] else s.outcomes
  {
    hide Onward;
  }

  /** The outcomes of `t` are those of `s` and one more, whose worker is about to mark. */
  lemma OneMoreDue(s: State, t: State, w: nat, round: nat)
    requires AllMarkDue(s) && t.marks == s.marks && t.started == s.started
    requires t.outcomes == s.outcomes + [Outcome(round, true)]
    requires w < |s.workers| && !In(s, w, Marking) && s.workers[w].round == round
    requires IsFull(s, round) ==> t.workers == s.workers[w := s.workers[w].(phase := Marking)]
    requires !IsFull(s, round) ==> t.workers == s.workers[w := s.workers[w].(phase := Over)]
    ensures AllMarkDue(t)
  {
    forall r: nat | Outcome(r, true) in t.outcomes && IsFull(t, r) ensures MarkDue(t, r) {
      if r == round {
        assert In(t, w, Marking) && t.workers[w].round == r;
      } else {
        assert MarkDue(s, r);
        if r !in s.marks {
          var x: nat :| In(s, x, Marking) && s.workers[x].round == r;
          assert In(t, x, Marking) && t.workers[x].round == r;
        }
      }
    }
  }

  lemma CompleteMarks(s: State, w: nat)
    requires Good(s) && AllMarkDue(s) && Enabled(s, Complete(w))
    ensures AllMarkDue(ApplyWorker(false, s, Complete(w)))
  {
    hide OnComplete, AllMarkDue, OutcomesOK, Onward;
    var worker, t := s.workers[w], ApplyWorker(false, s, Complete(w));
    assert WorkerOK(s, worker);
    OnCompleteAdds(s, worker.round);
    if Owns(s, worker.round) {
      OneMoreDue(s, t, w, worker.round);
    } else {
      OverStays(s, w, t);
    }
  }

  lemma OverStays(s: State, w: nat, t: State)
    requires AllMarkDue(s) && w < |s.workers| && !In(s, w, Marking)
    requires t.marks == s.marks && t.started == s.started && t.outcomes == s.outcomes
    requires t.workers == s.workers[w := s.workers[w].(phase := Over)]
    ensures AllMarkDue(t)
  {
    MarkDueStays(s, t);
  }

  lemma MarkMarks(s: State, w: nat)
    requires AllMarkDue(s) && Enabled(s, Mark(w))
    ensures AllMarkDue(ApplyWorker(false, s, Mark(w)))
  {
    var t := ApplyWorker(false, s, Mark(w));
    forall round: nat | Outcome(round, true) in t.outcomes && IsFull(t, round) ensures MarkDue(t, round) {
      assert MarkDue(s, round);
      if round !in s.marks {
        var x: nat :| In(s, x, Marking) && s.workers[x].round == round;
        assert x == w || (In(t, x, Marking) && t.workers[x].round == round);
        assert x == w ==> t.marks[|s.marks|] == round;
      }
    }
  }

  lemma StepMarks(s: State, l: Label)
    requires Good(s) && AllMarkDue(s) && Enabled(s, l)
    ensures AllMarkDue(Apply(false, s, l))
  {
    if l.Complete? {
      CompleteMarks(s, l.w);
    } else if l.Mark? {
      MarkMarks(s, l.w);
    } else {
      hide Onward, Forward;
      QuietMarks(s, l);
      MarkDueStays(s, Apply(false, s, l));
    }
  }

  /** No round completes, and who is about to mark stays. */
  ghost predicate Calm(s: State, t: State) {
    && s.started <= t.started && t.marks == s.marks && |s.workers| <= |t.workers|
    && (forall o | o in t.outcomes && o.complete :: o in s.outcomes)
    && forall w: nat | In(s, w, Marking) :: t.workers[w] == s.workers[w]
  }

  lemma CalmTrans(s: State, t: State, u: State)
    requires Calm(s, t) && Calm(t, u)
    ensures Calm(s, u)
  {
    forall w: nat | In(s, w, Marking) ensures u.workers[w] == s.workers[w] {
      assert In(t, w, Marking);
    }
  }

  lemma SpawnCalm(s: State)
    ensures Calm(s, Spawn(false, s)) && Calm(s, StartRound(s, false)) && Calm(s, StartRound(s, true))
  {
    hide Onward;
  }

  lemma FailedCalm(s: State, round: nat)
    ensures Calm(s, OnFailed(false, s, round))
  {
    hide Onward;
  }

  lemma GotoCalm(s: State, w: nat, phase: Phase)
    requires w < |s.workers| && !In(s, w, Marking)
    ensures Calm(s, Goto(s, w, phase))
  {
  }

  lemma ServiceCalm(s: State, l: Label)
    requires Enabled(s, l) && !IsWorkerLabel(l)
    ensures Calm(s, ApplyService(false, s, l))
  {
    hide OnFailed, StartRound, Onward;
    if l.ClientInfo? {
      SpawnCalm(s);
    } else if l.RunHandoff? {
      SpawnCalm(s.(handoffs := s.handoffs - 1));
    } else if l.ErrorFails? {
      FailedCalm(s, l.round);
    } else {
    }
  }

  lemma WorkerCalm(s: State, l: Label)
    requires Enabled(s, l) && IsWorkerLabel(l) && !l.Complete? && !l.Mark?
    ensures Calm(s, ApplyWorker(false, s, l))
  {
    hide Onward, OnFailed, Calm;
    if l.ScanFailed? || l.Stall? {
      var t := OnFailed(false, s, s.workers[l.w].round);
      FailedCalm(s, s.workers[l.w].round);
      FailedWorkers(s, s.workers[l.w].round);
      GotoCalm(t, l.w, Over);
      CalmTrans(s, t, Goto(t, l.w, Over));
    } else if l.Requested? {
      GotoCalm(s, l.w, if Owns(s, s.workers[l.w].round) then Checking else Over);
    } else {
      GotoCalm(s, l.w, AfterPoll(s, l.w, l.complete, l.stalled));
    }
  }

  lemma FailedWorkers(s: State, round: nat)
    ensures OnFailed(false, s, round).workers == s.workers
  {
    hide Onward;
  }

  lemma QuietMarks(s: State, l: Label)
    requires Good(s) && Enabled(s, l) && !l.Complete? && !l.Mark?
    ensures var t := Apply(false, s, l);
      && t.marks == s.marks
      && (forall round: nat | Outcome(round, true) in t.outcomes && IsFull(t, round) ::
            Outcome(round, true) in s.outcomes && IsFull(s, round))
      && forall w: nat | In(s, w, Marking) :: In(t, w, Marking) && t.workers[w].round == s.workers[w].round
  {
    hide ApplyWorker, ApplyService;
    if IsWorkerLabel(l) {
      WorkerCalm(s, l);
    } else {
      ServiceCalm(s, l);
    }
  }

  /** Every full round that completes sets the marker, at once or when its goroutine gets to it. */
  lemma {:induction false} FullRoundMarks(initSync: bool, manual: bool, ls: seq<Label>)
    requires IsRun(false, Initial(initSync, manual), ls)
    ensures AllMarkDue(After(false, Initial(initSync, manual), ls))
  {
    hide Apply, Enabled, Good;
    if ls != [] {
      FullRoundMarks(initSync, manual, ls[..|ls| - 1]);
      RunGood(false, initSync, manual, ls[..|ls| - 1]);
      StepMarks(After(false, Initial(initSync, manual), ls[..|ls| - 1]), ls[|ls| - 1]);
    }
  }

  // ----- Overflow recovery ---------------------------------------------------------------------------

  /** Nothing is queued, or nothing has been started yet and it is still queued. */
  predicate Recovers(s: State, t: State) {
    && s.started <= t.started && !t.manual
    && (if |t.started| == |s.started| then t.pending else t.started[|s.started|])
  }

  lemma RecoversStep(s: State, t: State, l: Label)
    requires Recovers(s, t) && Enabled(t, l)
    ensures Recovers(s, Apply(true, t, l))
  {
    if IsWorkerLabel(l) {
      RecoversWorker(s, t, l);
    } else {
      RecoversService(s, t, l);
    }
    hide ApplyService, ApplyWorker, Recovers;
  }

  lemma RecoversWorker(s: State, t: State, l: Label)
    requires Recovers(s, t) && Enabled(t, l) && IsWorkerLabel(l)
    ensures Recovers(s, ApplyWorker(true, t, l))
  {
    hide Onward, Forward;
  }

  lemma RecoversService(s: State, t: State, l: Label)
    requires Recovers(s, t) && Enabled(t, l) && !IsWorkerLabel(l)
    ensures Recovers(s, ApplyService(true, t, l))
  {
    hide Onward, Forward;
  }

  /** With the hand-off in one step: an overflow, if it does not start a round at once, stays queued through
      failures and disconnects until a round is started, and that round is a full scan. */
  lemma {:induction false} OverflowRecovered(init: State, ls: seq<Label>, n: nat)
    requires IsRun(true, init, ls) && n < |ls| && ls[n] == Overflow
    requires !After(true, init, ls[..n]).manual
    ensures var s, t := After(true, init, ls[..n]), After(true, init, ls);
      && s.started <= t.started
      && (if |t.started| == |s.started| then t.pending else t.started[|s.started|])
  {
    var m := |ls| - 1;
    if n == m {
    } else {
      assert ls[..m][..n] == ls[..n] && ls[..m][n] == ls[n];
      OverflowRecovered(init, ls[..m], n);
      ManualStays(true, init, ls[..m], n);
      hide Apply, Enabled;
      RecoversStep(After(true, init, ls[..n]), After(true, init, ls[..m]), ls[m]);
    }
  }

  lemma {:induction false} ManualStays(atomic: bool, init: State, ls: seq<Label>, n: nat)
    requires IsRun(atomic, init, ls) && n <= |ls|
    ensures After(atomic, init, ls).manual == After(atomic, init, ls[..n]).manual
  {
    if n == |ls| {
      assert ls[..n] == ls;
    } else {
      var m := |ls| - 1;
      assert ls[..m][..n] == ls[..n];
      ManualStays(atomic, init, ls[..m], n);
      StepMarker(atomic, After(atomic, init, ls[..m]), ls[m]);
      hide Apply, Enabled;
    }
  }

  /** Overflows during a round collapse to one, and one full round uses them up. */
  lemma OverflowsCollapse(atomic: bool, s: State, load: bool)
    requires s.isSyncing && !s.manual
    ensures var once := HandleOverflow(atomic, s);
      && HandleOverflow(atomic, once) == once
      && var next := StartRound(once.(isSyncing := false), load);
         next.started == s.started + [true] && !next.pending
  {
  }

  /** With the hand-off as the code has it: the recovery is queued, or its goroutine is about to run. */
  predicate Due(s: State) { !s.manual && (s.pending || (!s.isSyncing && s.handoffs > 0)) }

  /** What a step starts, and what it leaves due if it starts nothing. */
  predicate StartsOrOwes(s: State, l: Label, t: State) {
    if t.started == s.started then Due(s) ==> Due(t)
    else t.started == s.started + [s.pending || l != ClientInfo(true)] && !s.manual && !s.isSyncing
  }

  lemma ServiceStarts(s: State, l: Label)
    requires Enabled(s, l) && !IsWorkerLabel(l)
    ensures StartsOrOwes(s, l, ApplyService(false, s, l))
  {
    hide Onward, Forward, OnFailed;
    if l.ErrorFails? {
      FailStarts(s, l.round);
    }
  }

  lemma FailStarts(s: State, round: nat)
    ensures StartsOrOwes(s, ErrorFails(round), OnFailed(false, s, round))
  {
    hide Onward, Forward;
  }

  lemma WorkerStarts(s: State, l: Label)
    requires Enabled(s, l) && IsWorkerLabel(l)
    ensures StartsOrOwes(s, l, ApplyWorker(false, s, l))
  {
    hide Onward, Forward;
  }

  lemma StepStarts(s: State, l: Label)
    requires Enabled(s, l)
    ensures StartsOrOwes(s, l, Apply(false, s, l)) && s.started <= Apply(false, s, l).started
  {
    hide ApplyWorker, ApplyService;
    if IsWorkerLabel(l) {
      WorkerStarts(s, l);
    } else {
      ServiceStarts(s, l);
    }
  }

  /** An overflow stays due, through failures and disconnects, until a round is started. */
  lemma {:induction false} OverflowDue(init: State, ls: seq<Label>, n: nat)
    requires IsRun(false, init, ls) && n < |ls| && ls[n] == Overflow
    requires !After(false, init, ls[..n]).manual
    ensures var s, t := After(false, init, ls[..n]), After(false, init, ls);
      s.started <= t.started && (|t.started| == |s.started| ==> Due(t))
  {
    hide Due, Enabled, Apply;
    var m := |ls| - 1;
    if n == m {
      OverflowRecorded(After(false, init, ls[..n]));
    } else {
      assert ls[..m][..n] == ls[..n] && ls[..m][n] == ls[n];
      OverflowDue(init, ls[..m], n);
      StepStarts(After(false, init, ls[..m]), ls[m]);
    }
  }

  lemma OverflowRecorded(s: State)
    requires !s.manual
    ensures Enabled(s, Overflow) && Due(Apply(false, s, Overflow)) && Apply(false, s, Overflow).started == s.started
  {
  }

  /** In every run of the code as it is: the first round after an overflow is the full scan it needs, unless it
      is an incremental round that a new connection starts while nothing is queued, that is, while the
      goroutine that was to start the full one has not run yet. */
  lemma {:induction false} HandoffExactly(init: State, ls: seq<Label>, n: nat)
    requires IsRun(false, init, ls) && n < |ls| - 1 && ls[n] == Overflow
    requires !After(false, init, ls[..n]).manual
    requires After(false, init, ls[..|ls| - 1]).started == After(false, init, ls[..n]).started
    requires After(false, init, ls).started != After(false, init, ls[..n]).started
    ensures var m := |ls| - 1; var s := After(false, init, ls[..m]);
      IsFull(After(false, init, ls), |s.started| + 1) <==> !(ls[m] == ClientInfo(true) && s.handoffs > 0 && !s.pending)
  {
    hide Enabled, Apply;
    var m := |ls| - 1;
    assert ls[..m][..n] == ls[..n] && ls[..m][n] == ls[n];
    OverflowDue(init, ls[..m], n);
    StepStarts(After(false, init, ls[..m]), ls[m]);
  }

  /** A round that ends, other than with its connection, is reported once, and a queued overflow goes to a goroutine
      at once if the round is complete or the connection is up and authorized; otherwise it stays queued. */
  lemma RoundEnds(s: State, l: Label)
    requires Enabled(s, l) && s.isSyncing && !Apply(false, s, l).isSyncing && !l.Disconnect?
    ensures var t := Apply(false, s, l);
      var now := s.pending && (l.Complete? || (s.register && s.conn && s.open && s.auth));
      && t.outcomes == s.outcomes + [Outcome(s.roundId, l.Complete?)] && t.started == s.started
      && t.handoffs == s.handoffs + (if now then 1 else 0) && t.pending == (s.pending && !now)
  {
    hide Onward, Forward, StartRound;
    if IsWorkerLabel(l) {
      hide ApplyService;
    } else {
      ServiceEnds(s, l);
      hide ApplyWorker;
    }
  }

  lemma ServiceEnds(s: State, l: Label)
    requires Enabled(s, l) && !IsWorkerLabel(l) && s.isSyncing && !ApplyService(false, s, l).isSyncing
    ensures l.Disconnect? || l.ErrorFails?
  {
    hide Onward, Forward;
  }

  /** Such a run: the round completes, the connection is lost and comes back, and the incremental round gets in
      before the goroutine, which then does nothing. The overflow is forgotten. */
  const OVERTAKEN: seq<Label> := [
    Dialed, ClientInfo(true), Requested(0), Overflow, Poll(0, true, false), Complete(0),
    Closed, Disconnect(true), Dialed, ClientInfo(true), RunHandoff]

  /** A shorter one: the overflow comes just before the first round of a connection. */
  const EARLY: seq<Label> := [Dialed, Authorized, Overflow, ClientInfo(true), RunHandoff]

  const INCREMENTAL: State := Initial(true, false)
  const OPEN: State := INCREMENTAL.(conn := true, open := true)
  const RUNNING: State :=
    OPEN.(isSyncing := true, roundId := 1, started := [false], workers := [Worker(1, false, Checking)])
  const HANDED_OFF: State :=
    OPEN.(roundId := 1, started := [false], workers := [Worker(1, false, Over)], handoffs := 1,
      outcomes := [Outcome(1, true)])
  const RESTARTED: State :=
    HANDED_OFF.(isSyncing := true, roundId := 2, started := [false, false],
                workers := [Worker(1, false, Over), Worker(2, false, Scanning)])

  lemma OverflowArrives()
    ensures IsRun(false, INCREMENTAL, OVERTAKEN[..3]) && After(false, INCREMENTAL, OVERTAKEN[..3]) == RUNNING
  {
    hide IsRun, After, OnComplete, OnFailed, TearDown, Onward, Forward;
    var s := RUNNING.(workers := [Worker(1, false, Scanning)]);
    StepAt(INCREMENTAL, OVERTAKEN, 0, INCREMENTAL, OPEN);
    StepAt(INCREMENTAL, OVERTAKEN, 1, OPEN, s);
    StepAt(INCREMENTAL, OVERTAKEN, 2, s, RUNNING);
  }

  lemma OverflowHandedOff()
    ensures IsRun(false, INCREMENTAL, OVERTAKEN[..6]) && After(false, INCREMENTAL, OVERTAKEN[..6]) == HANDED_OFF
  {
    hide IsRun, After, OnFailed, TearDown, Onward, Forward, StartRound;
    OverflowArrives();
    var s := RUNNING.(pending := true);
    var t := s.(workers := [Worker(1, false, Completing)]);
    StepAt(INCREMENTAL, OVERTAKEN, 3, RUNNING, s);
    StepAt(INCREMENTAL, OVERTAKEN, 4, s, t);
    StepAt(INCREMENTAL, OVERTAKEN, 5, t, HANDED_OFF);
  }

  lemma Reconnected()
    ensures IsRun(false, INCREMENTAL, OVERTAKEN[..9]) && After(false, INCREMENTAL, OVERTAKEN[..9]) == HANDED_OFF
  {
    hide IsRun, After, OnComplete, OnFailed, Onward, Forward, StartRound;
    OverflowHandedOff();
    var s := HANDED_OFF.(conn := false);
    var t := s.(open := false);
    StepAt(INCREMENTAL, OVERTAKEN, 6, HANDED_OFF, s);
    StepAt(INCREMENTAL, OVERTAKEN, 7, s, t);
    StepAt(INCREMENTAL, OVERTAKEN, 8, t, HANDED_OFF);
  }

  lemma OverflowOvertaken()
    ensures var s := After(false, INCREMENTAL, OVERTAKEN);
      IsRun(false, INCREMENTAL, OVERTAKEN) && s.started == [false, false] && !s.pending && s.handoffs == 0
  {
    hide IsRun, After, OnComplete, OnFailed, Onward, Forward, TearDown;
    Reconnected();
    StepAt(INCREMENTAL, OVERTAKEN, 9, HANDED_OFF, RESTARTED);
    StepAt(INCREMENTAL, OVERTAKEN, 10, RESTARTED, RESTARTED.(handoffs := 0));
    assert OVERTAKEN[..11] == OVERTAKEN;
  }

  const AT_REST: State := OPEN.(auth := true, handoffs := 1)
  const OVERRUN: State :=
    AT_REST.(isSyncing := true, roundId := 1, started := [false], workers := [Worker(1, false, Scanning)])

  lemma EarlyOverflowArrives()
    ensures IsRun(false, INCREMENTAL, EARLY[..3]) && After(false, INCREMENTAL, EARLY[..3]) == AT_REST
  {
    hide IsRun, After, OnComplete, OnFailed, Onward, Forward, TearDown, StartRound;
    StepAt(INCREMENTAL, EARLY, 0, INCREMENTAL, OPEN);
    StepAt(INCREMENTAL, EARLY, 1, OPEN, OPEN.(auth := true));
    StepAt(INCREMENTAL, EARLY, 2, OPEN.(auth := true), AT_REST);
  }

  lemma EarlyOverflowOvertaken()
    ensures var s := After(false, INCREMENTAL, EARLY);
      IsRun(false, INCREMENTAL, EARLY) && s.started == [false] && !s.pending && s.handoffs == 0
  {
    hide IsRun, After, OnComplete, OnFailed, Onward, Forward, TearDown;
    EarlyOverflowArrives();
    StepAt(INCREMENTAL, EARLY, 3, AT_REST, OVERRUN);
    StepAt(INCREMENTAL, EARLY, 4, OVERRUN, OVERRUN.(handoffs := 0));
    assert EARLY[..5] == EARLY;
  }

  lemma {:induction false} StepAt(init: State, ls: seq<Label>, n: nat, s: State, t: State)
    requires n < |ls| && (n == 0 ==> s == init)
    requires n > 0 ==> IsRun(false, init, ls[..n]) && After(false, init, ls[..n]) == s
    requires Enabled(s, ls[n]) && Apply(false, s, ls[n]) == t
    ensures IsRun(false, init, ls[..n + 1]) && After(false, init, ls[..n + 1]) == t
  {
    if n == 0 {
      assert ls[..n] == [];
      assert IsRun(false, init, []) && After(false, init, []) == init;
    }
    assert ls[..n + 1][..n] == ls[..n];
  }
}
