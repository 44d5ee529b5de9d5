/** Remote operations, local edits, watcher callbacks and expiries on one path, in any interleaving. The content
    hash is a parameter `h` and never assumed injective. */
module EchoRuns {
  import opened Options
  import opened EchoStore

  // ----- State ---------------------------------------------------------------------------------------

  /** `version` counts the changes of the disk; `local` says who made the last one. */
  datatype Disk = Disk(present: bool, bytes: seq<int>, version: nat, local: bool)

  /** The steps of `HandleLocalModify`: `WaitLock` only for rechecks; `Start` to `Aborting` are
      `isWriteEchoed`; `Reading` and `Sending` the send. `seen` is the version that was read. */
  datatype Phase =
    | WaitLock | Start | Snapped(meta: Rec) | Sized(meta: Rec, size: nat)
    | Checked(meta: Rec, same: bool, ambiguous: bool, seen: nat)
    | Aborting(token: nat) | Reading | Sending(seen: nat) | Returning | Over

  datatype Thread = Thread(phase: Phase, recheck: bool)

  /** `Modify`: begin, replace, verify, finish. `Touch`: a new time only. `Landing`: a rename onto the path,
      under another lock. These are handled by the read loop, one after the other. `Merge`, in a goroutine of
      its own: begin, then replace and finish in one critical section. */
  datatype Kind = Modify | Merge | Touch | Landing

  datatype OpPhase = Begun | Written | Verified | Diverged

  datatype Op = Op(kind: Kind, phase: OpPhase, bytes: seq<int>, hash: Option<int>, size: int)

  /** `attempted`: versions handed to the server; `matched`: versions skipped because their hash was the one
      on record; `carried`: the hashes that remote writes came with. */
  datatype State = State(
    echo: Echo, disk: Disk, pending: bool, lock: Option<nat>, ops: map<nat, Op>, threads: seq<Thread>,
    localRechecks: int, attempted: set<nat>, matched: set<nat>, carried: set<int>)

  const INITIAL: State :=
    State(Echo(0, None, None), Disk(false, [], 0, false), false, None, map[], [], 0, {}, {}, {})

  // ----- Steps ---------------------------------------------------------------------------------------

  /** `OtherPath`: a remote write on another path takes a token. `Removed`: the file is deleted, by whomever.
      `Wiped`: a delete or rename of the path clears its evidence. */
  datatype Label =
    | BeginOp(kind: Kind, bytes: seq<int>, hash: Option<int>, size: int, now: int)
    | Replace(token: nat) | Verify(token: nat) | FinishOp(token: nat, mtime: int, size: int)
    | Commit(token: nat, mtime: int, size: int, msgMTime: int)
    | TouchEnd(token: nat, hash: Option<int>, mtime: int, size: int, msgMTime: int)
    | AbortOp(token: nat)
    | ExpireRecord(token: nat) | OtherPath | Removed | Wiped
    | LocalWrite(bytes: seq<int>) | Callback | ThreadStep(id: nat)

  predicate HasOp(s: State, token: nat, kind: Kind, phase: OpPhase) {
    token in s.ops && s.ops[token].kind == kind && s.ops[token].phase == phase
  }

  predicate ReadLoopFree(s: State) { forall token | token in s.ops :: s.ops[token].kind.Merge? }

  predicate Enabled(s: State, l: Label) {
    match l
    case BeginOp(kind, _, hash, _, _) =>
      && (kind.Landing? || s.lock.None?) && (kind.Merge? || ReadLoopFree(s)) && (kind.Modify? ==> hash.Some?)
    case Replace(token) => HasOp(s, token, Modify, Begun) || HasOp(s, token, Landing, Begun)
    case Verify(token) => HasOp(s, token, Modify, Written)
    case FinishOp(token, _, _) => HasOp(s, token, Modify, Verified) || HasOp(s, token, Landing, Written)
    case Commit(token, _, _, _) => HasOp(s, token, Merge, Begun)
    case TouchEnd(token, _, _, _, _) => HasOp(s, token, Touch, Begun)
    case AbortOp(token) =>
      token in s.ops && (s.ops[token].kind.Modify? || (s.ops[token].phase.Begun? && !s.ops[token].kind.Touch?))
    case ThreadStep(id) =>
      id < |s.threads| && !s.threads[id].phase.Over? && (s.threads[id].phase.WaitLock? ==> s.lock.None?)
    case _ => true
  }

  function Carry(carried: set<int>, hash: Option<int>): set<int> {
    if hash.Some? then carried + {hash.value} else carried
  }

  function RemoteWrite(s: State, bytes: seq<int>): State {
    s.(disk := Disk(true, bytes, s.disk.version + 1, false), pending := true)
  }

  /** The recheck that ending the operation `token` starts, if any. */
  function Respawn(s: State, spawn: bool): State {
    if spawn then s.(threads := s.threads + [Thread(WaitLock, true)], localRechecks := s.localRechecks + 1) else s
  }

  function EndOp(s: State, token: nat, echo: Echo): State {
    Respawn(s, Spawns(s.echo, token)).(
      echo := echo, ops := s.ops - {token}, lock := if s.lock == Some(token) then None else s.lock)
  }

  function Goto(s: State, id: nat, phase: Phase): State
    requires id < |s.threads|
  {
    s.(threads := s.threads[id := s.threads[id].(phase := phase)])
  }

  function AfterSnapshot(e: Echo): Phase {
    match Snapshot(e)
    case Echoed => Returning
    case NotEchoed => Reading
    case Check(meta) => Snapped(meta)
  }

  function AfterDecision(e: Echo, meta: Rec, same: bool, ambiguous: bool): Phase {
    match Decide(e, meta, same, ambiguous)
    case Retry => Start
    case Deferred => Returning
    case Skip => Returning
    case AbortAndSend => Aborting(meta.token)
    case SendIt => Reading
  }

  function NextPhase(h: seq<int> -> int, s: State, phase: Phase): (next: Phase)
    ensures next.Over? <==> phase.Returning? || phase.Over?
  {
    match phase
    case WaitLock => Start
    case Start => AfterSnapshot(s.echo)
    case Snapped(meta) => if s.disk.present then Sized(meta, |s.disk.bytes|) else Reading
    case Sized(meta, n) =>
      if s.disk.present then
        Checked(meta, Same(meta, n, h(s.disk.bytes)), Ambiguous(meta, n, h(s.disk.bytes)), s.disk.version)
      else Checked(meta, false, false, s.disk.version)
    case Checked(meta, same, ambiguous, _) => AfterDecision(s.echo, meta, same, ambiguous)
    case Aborting(_) => Reading
    case Reading => if s.disk.present then Sending(s.disk.version) else Returning
    case Sending(_) => Returning
    case _ => Over
  }

  function StepThread(h: seq<int> -> int, s: State, id: nat): State
    requires id < |s.threads|
  {
    var phase := s.threads[id].phase;
    var t := Goto(s, id, NextPhase(h, s, phase));
    match phase
    case Checked(meta, same, ambiguous, seen) =>
      var decision := Decide(s.echo, meta, same, ambiguous);
      if decision.Deferred? then t.(echo := Flag(s.echo))
      else if decision.Skip? then t.(matched := s.matched + {seen})
      else t
    case Aborting(token) => Respawn(t, Spawns(s.echo, token)).(echo := Abort(s.echo, token))
    case Sending(seen) => t.(attempted := s.attempted + {seen})
    case Returning => if s.threads[id].recheck then t.(localRechecks := s.localRechecks - 1) else t
    case _ => t
  }

  function ApplyOp(h: seq<int> -> int, s: State, l: Label): State
    requires Enabled(s, l) && !l.ThreadStep?
  {
    match l
    case BeginOp(kind, bytes, hash, size, now) =>
      var token := s.echo.serial + 1;
      s.(echo := Begin(s.echo, hash, size, now), ops := s.ops[token := Op(kind, Begun, bytes, hash, size)],
         lock := if kind.Landing? then s.lock else Some(token), carried := Carry(s.carried, hash))
    case Replace(token) =>
      RemoteWrite(s, s.ops[token].bytes).(ops := s.ops[token := s.ops[token].(phase := Written)])
    case Verify(token) =>
      var same := s.disk.present && s.ops[token].hash == Some(h(s.disk.bytes));
      s.(ops := s.ops[token := s.ops[token].(phase := if same then Verified else Diverged)])
    case FinishOp(token, mtime, size) =>
      EndOp(s, token, Finish(s.echo, token, s.ops[token].hash, mtime, size))
    case Commit(token, mtime, size, msgMTime) =>
      RemoteWrite(EndOp(s, token, FinishMarked(s.echo, token, s.ops[token].hash, mtime, size, msgMTime)),
        s.ops[token].bytes)
    case TouchEnd(token, hash, mtime, size, msgMTime) =>
      EndOp(s, token, FinishMarked(s.echo, token, hash, mtime, size, msgMTime)).(carried := Carry(s.carried, hash))
    case AbortOp(token) => EndOp(s, token, Abort(s.echo, token))
    case ExpireRecord(token) => s.(echo := Expire(s.echo, token))
    case OtherPath => s.(echo := s.echo.(serial := s.echo.serial + 1))
    case Wiped => s.(echo := Clear(s.echo))
    case Removed => s.(disk := Disk(false, [], s.disk.version + 1, false), pending := true)
    case LocalWrite(bytes) => s.(disk := Disk(true, bytes, s.disk.version + 1, true), pending := true)
    case Callback => s.(pending := false, threads := s.threads + [Thread(Start, false)])
  }

  function Apply(h: seq<int> -> int, s: State, l: Label): State
    requires Enabled(s, l)
  {
    if l.ThreadStep? then StepThread(h, s, l.id) else ApplyOp(h, s, l)
  }

  ghost predicate IsRun(h: seq<int> -> int, ls: seq<Label>) {
    ls == [] || (IsRun(h, ls[..|ls| - 1]) && Enabled(After(h, ls[..|ls| - 1]), ls[|ls| - 1]))
  }

  ghost function After(h: seq<int> -> int, ls: seq<Label>): State {
    if ls == [] then INITIAL
    else
      var s := After(h, ls[..|ls| - 1]);
      if Enabled(s, ls[|ls| - 1]) then Apply(h, s, ls[|ls| - 1]) else s
  }

  /** Nothing is under way. */
  predicate Quiescent(s: State) {
    !s.pending && s.ops == map[] && forall i | 0 <= i < |s.threads| :: s.threads[i].phase.Over?
  }

  // ----- No local edit is lost --------------------------------------------------------------------

  predicate Flagged(s: State) { s.echo.rec.Some? && s.echo.rec.value.recheck }

  /** A callback takes its decision on a marker without a record: it is dropped, whatever is on disk. */
  predicate Swallows(s: State, l: Label) {
    l.ThreadStep? && l.id < |s.threads| && s.threads[l.id].phase.Start? && Stray(s.echo)
  }

  /** The step neither swallows a callback nor wipes the flag of a deferred one. */
  predicate Heeds(s: State, l: Label) { !Swallows(s, l) && (l == Wiped ==> !Flagged(s)) }

  ghost predicate HeedfulRun(h: seq<int> -> int, ls: seq<Label>) {
    forall k | 0 <= k < |ls| :: Heeds(After(h, ls[..k]), ls[k])
  }

  predicate Carried(carried: set<int>, hash: Option<int>) { hash.Some? ==> hash.value in carried }

  predicate RecordOK(s: State) {
    (s.echo.rec.Some? ==>
          var rec := s.echo.rec.value;
          && s.echo.marker.Some? && (rec.inFlight ==> rec.token in s.ops) && (rec.recheck ==> rec.inFlight)
          && Carried(s.carried, rec.hash))
  }

  /** A callback carries evidence that came from a remote write; if it found the current version to be the
      same, the version's hash did. */
  predicate PhaseOK(h: seq<int> -> int, s: State, phase: Phase) {
    match phase
    case Snapped(meta) => Carried(s.carried, meta.hash)
    case Sized(meta, _) => Carried(s.carried, meta.hash)
    case Checked(meta, same, ambiguous, seen) =>
      && Carried(s.carried, meta.hash) && (ambiguous ==> meta.inFlight) && seen <= s.disk.version
      && (same && seen == s.disk.version ==> h(s.disk.bytes) in s.carried)
    case Sending(seen) => seen <= s.disk.version
    case _ => true
  }

  /** Versions are counted up, and a version that matched has a hash that a remote write carried. */
  predicate VersionsOK(h: seq<int> -> int, s: State) {
    && (forall v | v in s.attempted :: v <= s.disk.version) && (forall v | v in s.matched :: v <= s.disk.version)
    && (s.disk.version in s.matched ==> h(s.disk.bytes) in s.carried)
  }

  ghost predicate HashesCarried(h: seq<int> -> int, s: State) {
    && (forall token | token in s.ops :: Carried(s.carried, s.ops[token].hash))
    && (forall i | 0 <= i < |s.threads| :: PhaseOK(h, s, s.threads[i].phase))
    && VersionsOK(h, s)
  }

  /** The callback is going to look at the disk again, or has looked at version `v` and not yet acted. */
  predicate WillReport(phase: Phase, v: nat) {
    match phase
    case WaitLock => true
    case Start => true
    case Snapped(_) => true
    case Sized(_, _) => true
    case Checked(_, _, _, seen) => seen == v
    case Aborting(_) => true
    case Reading => true
    case Sending(seen) => seen == v
    case _ => false
  }

  /** The local version is one the server has been told about, or that was recognised. */
  predicate Settled(s: State) { s.disk.version in s.attempted || s.disk.version in s.matched }

  /** A local version is settled, or somebody will look at it. */
  ghost predicate Owed(s: State) {
    s.disk.present && s.disk.local && !Settled(s) ==>
      || s.pending || Flagged(s)
      || exists i :: 0 <= i < |s.threads| && WillReport(s.threads[i].phase, s.disk.version)
  }

  /** What every run keeps, and what it keeps as long as it is heedful. */
  ghost predicate Good(h: seq<int> -> int, s: State, heedful: bool) {
    RecordOK(s) && HashesCarried(h, s) && (heedful ==> Owed(s))
  }

  /** Threads only get added, and those of `s` that `t` keeps still report. */
  lemma OwedByThreads(s: State, t: State)
    requires Owed(s) && t.disk == s.disk && t.attempted == s.attempted && t.matched == s.matched
    requires |s.threads| <= |t.threads| && t.threads[..|s.threads|] == s.threads
    requires s.pending ==>
      t.pending || exists i :: 0 <= i < |t.threads| && WillReport(t.threads[i].phase, t.disk.version)
    requires Flagged(s) ==>
      Flagged(t) || exists i :: 0 <= i < |t.threads| && WillReport(t.threads[i].phase, t.disk.version)
    ensures Owed(t)
  {
    forall i | 0 <= i < |s.threads| && WillReport(s.threads[i].phase, s.disk.version)
      ensures WillReport(t.threads[i].phase, t.disk.version) {
      assert t.threads[i] == t.threads[..|s.threads|][i];
    }
  }

  lemma SpawnReports(s: State, token: nat, echo: Echo)
    requires Spawns(s.echo, token)
    ensures var t := EndOp(s, token, echo);
      exists i :: 0 <= i < |t.threads| && WillReport(t.threads[i].phase, t.disk.version)
  {
    var t := EndOp(s, token, echo);
    assert WillReport(t.threads[|s.threads|].phase, t.disk.version);
  }

  /** The end of an operation: the record is finished or gone, or belongs to a newer operation. */
  lemma EndGood(h: seq<int> -> int, s: State, token: nat, echo: Echo, carried: set<int>, heedful: bool)
    requires Good(h, s, heedful) && token in s.ops && s.carried <= carried
    requires echo.rec.Some? ==> echo.marker.Some?
    requires
      if Owns(s.echo, token) then
        echo.rec.Some? ==> var rec := echo.rec.value; !rec.inFlight && !rec.recheck && Carried(carried, rec.hash)
      else echo.rec == s.echo.rec
    ensures Good(h, EndOp(s, token, echo).(carried := carried), heedful)
  {
    var t := EndOp(s, token, echo).(carried := carried);
    if Spawns(s.echo, token) {
      SpawnReports(s, token, echo);
      assert t.threads == EndOp(s, token, echo).threads;
    }
    assert t.threads[..|s.threads|] == s.threads;
    if heedful {
      OwedByThreads(s, t);
    }
    forall i | 0 <= i < |t.threads| ensures PhaseOK(h, t, t.threads[i].phase) {
      assert i < |s.threads| ==> t.threads[i] == s.threads[i] && PhaseOK(h, s, s.threads[i].phase);
    }
  }

  lemma RemoteWriteGood(h: seq<int> -> int, s: State, bytes: seq<int>, heedful: bool)
    requires Good(h, s, heedful)
    ensures Good(h, RemoteWrite(s, bytes), heedful)
  {
  }

  lemma BeginGood(h: seq<int> -> int, s: State, l: Label, heedful: bool)
    requires Good(h, s, heedful) && l.BeginOp? && Enabled(s, l)
    ensures Good(h, ApplyOp(h, s, l), heedful)
  {
    var t := ApplyOp(h, s, l);
    if heedful {
      OwedByThreads(s, t);
    }
    forall token | token in t.ops ensures Carried(t.carried, t.ops[token].hash) {
      assert token in s.ops ==> Carried(s.carried, s.ops[token].hash);
    }
  }

  lemma EndingGood(h: seq<int> -> int, s: State, l: Label, heedful: bool)
    requires Good(h, s, heedful) && Enabled(s, l) && (l.FinishOp? || l.Commit? || l.TouchEnd? || l.AbortOp?)
    ensures Good(h, ApplyOp(h, s, l), heedful)
  {
    assert forall token | token in s.ops :: Carried(s.carried, s.ops[token].hash);
    hide Good, EndOp, RemoteWrite;
    match l
    case FinishOp(token, mtime, size) =>
      EndGood(h, s, token, Finish(s.echo, token, s.ops[token].hash, mtime, size), s.carried, heedful);
    case Commit(token, mtime, size, msgMTime) =>
      var echo := FinishMarked(s.echo, token, s.ops[token].hash, mtime, size, msgMTime);
      EndGood(h, s, token, echo, s.carried, heedful);
      RemoteWriteGood(h, EndOp(s, token, echo), s.ops[token].bytes, heedful);
    case TouchEnd(token, hash, mtime, size, msgMTime) =>
      EndGood(h, s, token, FinishMarked(s.echo, token, hash, mtime, size, msgMTime), Carry(s.carried, hash), heedful);
    case AbortOp(token) => EndGood(h, s, token, Abort(s.echo, token), s.carried, heedful);
  }

  /** Steps that change the evidence only. */
  lemma EvidenceGood(h: seq<int> -> int, s: State, l: Label, heedful: bool)
    requires Good(h, s, heedful) && (l.ExpireRecord? || l.OtherPath? || l.Wiped?) && (heedful ==> Heeds(s, l))
    ensures Good(h, ApplyOp(h, s, l), heedful)
  {
    var t := ApplyOp(h, s, l);
    assert t == s.(echo := t.echo);
    if heedful {
      OwedByThreads(s, t);
    }
  }

  /** A version that was just written locally has its event still to come. */
  lemma LocalGood(h: seq<int> -> int, s: State, l: Label, heedful: bool)
    requires Good(h, s, heedful) && (l.Removed? || l.LocalWrite?)
    ensures Good(h, ApplyOp(h, s, l), heedful)
  {
  }

  lemma EventGood(h: seq<int> -> int, s: State, heedful: bool)
    requires Good(h, s, heedful)
    ensures Good(h, ApplyOp(h, s, Callback), heedful)
  {
    var t := ApplyOp(h, s, Callback);
    assert WillReport(t.threads[|s.threads|].phase, t.disk.version);
  }

  lemma WritingGood(h: seq<int> -> int, s: State, l: Label, heedful: bool)
    requires Good(h, s, heedful) && Enabled(s, l) && (l.Replace? || l.Verify?)
    ensures Good(h, ApplyOp(h, s, l), heedful)
  {
    if l.Replace? {
      RemoteWriteGood(h, s, s.ops[l.token].bytes, heedful);
    }
    if heedful && l.Verify? {
      OwedByThreads(s, ApplyOp(h, s, l));
    }
  }

  lemma OpGood(h: seq<int> -> int, s: State, l: Label, heedful: bool)
    requires Good(h, s, heedful) && Enabled(s, l) && !l.ThreadStep? && (heedful ==> Heeds(s, l))
    ensures Good(h, ApplyOp(h, s, l), heedful)
  {
    hide Good, ApplyOp;
    if l.BeginOp? {
      BeginGood(h, s, l, heedful);
    } else if l.Replace? || l.Verify? {
      WritingGood(h, s, l, heedful);
    } else if l.FinishOp? || l.Commit? || l.TouchEnd? || l.AbortOp? {
      EndingGood(h, s, l, heedful);
    } else if l.ExpireRecord? || l.OtherPath? || l.Wiped? {
      EvidenceGood(h, s, l, heedful);
    } else if l.Callback? {
      EventGood(h, s, heedful);
    } else {
      LocalGood(h, s, l, heedful);
    }
  }

  // ----- Callbacks ---------------------------------------------------------------------------------

  /** What a callback that owes a report does next, unless it is swallowed: it still owes it, or has handed
      it on. */
  lemma ReportGoesOn(h: seq<int> -> int, s: State, id: nat)
    requires RecordOK(s) && HashesCarried(h, s) && Enabled(s, ThreadStep(id))
        && WillReport(s.threads[id].phase, s.disk.version)
    requires s.disk.present && !Swallows(s, ThreadStep(id))
    ensures var t := StepThread(h, s, id); Settled(t) || WillReport(t.threads[id].phase, s.disk.version) || Flagged(t)
  {
    assert PhaseOK(h, s, s.threads[id].phase);
  }

  lemma ThreadGood(h: seq<int> -> int, s: State, id: nat, heedful: bool)
    requires Good(h, s, heedful) && Enabled(s, ThreadStep(id)) && (heedful ==> Heeds(s, ThreadStep(id)))
    ensures Good(h, StepThread(h, s, id), heedful)
  {
    var t := StepThread(h, s, id);
    ThreadKeeps(h, s, id);
    if heedful && s.disk.present && s.disk.local && !Settled(t) {
      if WillReport(s.threads[id].phase, s.disk.version) {
        ReportGoesOn(h, s, id);
      } else {
        assert Owed(s);
        forall i | 0 <= i < |s.threads| && WillReport(s.threads[i].phase, s.disk.version)
          ensures WillReport(t.threads[i].phase, s.disk.version) {
        }
      }
    }
  }

  /** What a callback's step leaves alone. */
  lemma ThreadFrame(h: seq<int> -> int, s: State, id: nat)
    requires id < |s.threads|
    ensures var t := StepThread(h, s, id);
      && t.disk == s.disk && t.pending == s.pending && t.carried == s.carried && t.ops == s.ops && t.lock == s.lock
      && |s.threads| <= |t.threads| <= |s.threads| + 1
      && (forall i | 0 <= i < |s.threads| && i != id :: t.threads[i] == s.threads[i])
      && t.threads[id].phase == NextPhase(h, s, s.threads[id].phase)
      && (|t.threads| > |s.threads| ==> t.threads[|s.threads|] == Thread(WaitLock, true))
  {
    hide NextPhase, Decide, Abort;
  }

  lemma ThreadRecord(h: seq<int> -> int, s: State, id: nat)
    requires RecordOK(s) && id < |s.threads| && PhaseOK(h, s, s.threads[id].phase)
    ensures var t := StepThread(h, s, id);
      RecordOK(t) && (Flagged(s) ==> Flagged(t) || |t.threads| > |s.threads|)
  {
    hide NextPhase;
  }

  lemma ThreadVersions(h: seq<int> -> int, s: State, id: nat)
    requires VersionsOK(h, s) && id < |s.threads| && PhaseOK(h, s, s.threads[id].phase)
    ensures var t := StepThread(h, s, id);
      VersionsOK(h, t) && s.attempted <= t.attempted && s.matched <= t.matched
  {
    hide NextPhase, Abort;
  }

  lemma ThreadKeeps(h: seq<int> -> int, s: State, id: nat)
    requires RecordOK(s) && HashesCarried(h, s) && Enabled(s, ThreadStep(id))
    ensures var t := StepThread(h, s, id);
      && RecordOK(t) && HashesCarried(h, t) && t.disk == s.disk && t.pending == s.pending
      && s.attempted <= t.attempted && s.matched <= t.matched && |t.threads| >= |s.threads|
      && (forall i | 0 <= i < |s.threads| && i != id :: t.threads[i] == s.threads[i])
      && (Flagged(s) ==>
            Flagged(t) || (|t.threads| > |s.threads| && t.threads[|s.threads|].phase.WaitLock?))
  {
    var t := StepThread(h, s, id);
    assert PhaseOK(h, s, s.threads[id].phase);
    ThreadFrame(h, s, id);
    ThreadRecord(h, s, id);
    ThreadVersions(h, s, id);
    NextPhaseOK(h, s, s.threads[id].phase);
    hide StepThread, NextPhase, VersionsOK, RecordOK;
    forall i | 0 <= i < |t.threads| ensures PhaseOK(h, t, t.threads[i].phase) {
      assert i < |s.threads| ==> PhaseOK(h, s, s.threads[i].phase);
    }
  }

  lemma NextPhaseOK(h: seq<int> -> int, s: State, phase: Phase)
    requires RecordOK(s) && PhaseOK(h, s, phase)
    ensures PhaseOK(h, s, NextPhase(h, s, phase))
  {
  }

  lemma {:induction false} HeedfulPrefix(h: seq<int> -> int, ls: seq<Label>)
    requires HeedfulRun(h, ls) && ls != []
    ensures var n := |ls| - 1; HeedfulRun(h, ls[..n]) && Heeds(After(h, ls[..n]), ls[n])
  {
    var n := |ls| - 1;
    forall k | 0 <= k < n ensures Heeds(After(h, ls[..n][..k]), ls[..n][k]) {
      assert ls[..n][..k] == ls[..k];
    }
  }

  lemma StepGood(h: seq<int> -> int, s: State, l: Label, heedful: bool)
    requires Good(h, s, heedful) && Enabled(s, l) && (heedful ==> Heeds(s, l))
    ensures Good(h, Apply(h, s, l), heedful)
  {
    hide Good, StepThread, ApplyOp, Heeds;
    if l.ThreadStep? {
      ThreadGood(h, s, l.id, heedful);
    } else {
      OpGood(h, s, l, heedful);
    }
  }

  lemma {:induction false} RunGood(h: seq<int> -> int, ls: seq<Label>, heedful: bool)
    requires IsRun(h, ls) && (heedful ==> HeedfulRun(h, ls))
    ensures Good(h, After(h, ls), heedful)
  {
    hide Apply, Enabled, HeedfulRun, Heeds;
    if ls != [] {
      if heedful {
        HeedfulPrefix(h, ls);
      }
      RunGood(h, ls[..|ls| - 1], heedful);
      StepGood(h, After(h, ls[..|ls| - 1]), ls[|ls| - 1], heedful);
    }
  }

  /** No local edit is lost to echo suppression: once nothing is under way, a version that was written
      locally has been handed to the server, or was recognised by the hash on record at that moment, which a
      remote write had carried. */
  lemma {:induction false} NoLostEdit(h: seq<int> -> int, ls: seq<Label>)
    requires IsRun(h, ls) && HeedfulRun(h, ls)
    requires var s := After(h, ls); Quiescent(s) && s.disk.present && s.disk.local
    ensures var s := After(h, ls);
      s.disk.version in s.attempted || (s.disk.version in s.matched && h(s.disk.bytes) in s.carried)
  {
    RunGood(h, ls, true);
  }
}
