/** Who waits for whom: path locks, upload slots and the rename slot (`internal/sync/runtime_helpers.go`,
    `internal/sync/local_events.go`). Goroutines are the sequences of blocking operations they go through. */
module WaitGraph {
  import opened Options

  // ----- Programs ------------------------------------------------------------------------------------

  /** `Send` and `Work` do not wait: writes have a deadline. Releases never wait either. */
  datatype Op =
    | Lock(key: string) | Unlock(key: string) | WaitSlot | WaitFifo | ReleaseSlot | ReleaseFifo | Send | Work

  /** How an operation that takes a slot ends: `Handed` leaves the slot to the acknowledgement. */
  datatype Ending = Handed | SendFailed | GaveUp

  /** The handlers, with the choices that decide what they wait for. The first six run in the read loop. */
  datatype Handler =
    | Rejected                                   // a message that fails its checks
    | RemoteChange(key: string, work: nat)       // modify, mtime and delete messages of a path
    | RemoteRename(oldRel: string, newRel: string, work: nat)
    | SlotAck | RenameAck
    | ChunkFrame(aborts: bool)                   // a binary frame; an abort may release a slot
    | LocalSend(ending: Ending)                  // local modifies, upload checks, pushes, download requests
    | LocalUpload(chunks: nat, releases: bool)
    | LocalDelete(key: string, usesSlot: bool, missing: bool, cancels: bool, ending: Ending)
    | LocalRename(ending: Ending)
    | LocalMove(gone: Handler, come: Handler) // a rename between categories: a delete, then a modify
    | Recheck(key: string, send: Handler)
    | MergeDownload(key: string, releases: bool)

  predicate InReadLoop(h: Handler) {
    h.Rejected? || h.RemoteChange? || h.RemoteRename? || h.SlotAck? || h.RenameAck? || h.ChunkFrame?
  }

  function Works(n: nat): seq<Op> { if n == 0 then [] else [Work] + Works(n - 1) }

  function Sends(n: nat): seq<Op> { if n == 0 then [] else [Send] + Sends(n - 1) }

  function Locked(key: string, body: seq<Op>): seq<Op> { [Lock(key)] + body + [Unlock(key)] }

  function Releases(yes: bool): seq<Op> { if yes then [ReleaseSlot] else [] }

  /** What a delete does under its second lock. */
  function DeleteEnd(usesSlot: bool, ending: Ending): seq<Op> {
    match ending
    case Handed => [Send]
    case SendFailed => [Send] + Releases(usesSlot)
    case GaveUp => Releases(usesSlot)
  }

  function Program(h: Handler): seq<Op> {
    match h
    case Rejected => []
    case RemoteChange(key, work) => Locked(key, Works(work))
    case RemoteRename(oldRel, newRel, work) => Locked(oldRel + "->" + newRel, Works(work))
    case SlotAck => [ReleaseSlot]
    case RenameAck => [ReleaseFifo]
    case ChunkFrame(aborts) => [Work] + Releases(aborts)
    case LocalSend(ending) =>
      if ending.GaveUp? then [] else [WaitSlot, Send] + Releases(ending.SendFailed?)
    case LocalUpload(chunks, releases) => [WaitSlot] + Sends(chunks) + Releases(releases)
    case LocalDelete(key, usesSlot, missing, cancels, ending) =>
      if !missing then Locked(key, [])
      else
        Locked(key, Releases(cancels)) + (if usesSlot then [WaitSlot] else [])
          + Locked(key, DeleteEnd(usesSlot, ending))
    case LocalRename(ending) =>
      if ending.GaveUp? then [] else [WaitFifo, Send] + (if ending.SendFailed? then [ReleaseFifo] else [])
    case LocalMove(first, second) => Program(first) + Program(second)
    case Recheck(key, send) => Locked(key, []) + Program(send)
    case MergeDownload(key, releases) => Locked(key, [Work] + Releases(releases))
  }

  /** From a state in which `held` is held: one lock at a time, no waiting for a slot under it, and in the
      end nothing is held. */
  predicate Disciplined(prog: seq<Op>, held: Option<string>) {
    if prog == [] then held.None?
    else
      match prog[0]
      case Lock(key) => held.None? && Disciplined(prog[1..], Some(key))
      case Unlock(key) => held == Some(key) && Disciplined(prog[1..], None)
      case WaitSlot => held.None? && Disciplined(prog[1..], None)
      case WaitFifo => held.None? && Disciplined(prog[1..], None)
      case _ => Disciplined(prog[1..], held)
  }

  predicate NeverWaitsForSlot(prog: seq<Op>) { WaitSlot !in prog && WaitFifo !in prog }

  lemma {:induction false} DisciplinedConcat(a: seq<Op>, b: seq<Op>, held: Option<string>)
    requires Disciplined(a, held) && Disciplined(b, None)
    ensures Disciplined(a + b, held)
  {
    if a == [] {
      assert a + b == b;
    } else {
      assert (a + b)[1..] == a[1..] + b;
      var after := match a[0] case Lock(key) => Some(key) case Unlock(_) => None case _ => held;
      DisciplinedConcat(a[1..], b, after);
    }
  }

  predicate Plain(prog: seq<Op>) { forall i | 0 <= i < |prog| :: prog[i] in {Send, Work, ReleaseSlot, ReleaseFifo} }

  lemma {:induction false} LockedDisciplined(key: string, body: seq<Op>)
    requires Plain(body)
    ensures Disciplined(Locked(key, body), None) && NeverWaitsForSlot(Locked(key, body))
  {
    assert Locked(key, body)[1..] == body + [Unlock(key)];
    PlainUnder(key, body);
  }

  lemma {:induction false} PlainUnder(key: string, body: seq<Op>)
    requires Plain(body)
    ensures Disciplined(body + [Unlock(key)], Some(key))
  {
    if body == [] {
      assert [Unlock(key)][1..] == [];
      assert body + [Unlock(key)] == [Unlock(key)];
    } else {
      assert (body + [Unlock(key)])[1..] == body[1..] + [Unlock(key)];
      PlainUnder(key, body[1..]);
    }
  }

  lemma {:induction false} PlainDisciplined(prog: seq<Op>)
    requires Plain(prog)
    ensures Disciplined(prog, None)
  {
    if prog != [] {
      PlainDisciplined(prog[1..]);
    }
  }

  lemma {:induction false} WorksPlain(n: nat)
    ensures Plain(Works(n)) && Plain(Sends(n))
  {
    if n > 0 {
      WorksPlain(n - 1);
    }
  }

  lemma WaitDisciplined(op: Op, rest: seq<Op>)
    requires op in {WaitSlot, WaitFifo} && Plain(rest)
    ensures Disciplined([op] + rest, None)
  {
    PlainDisciplined(rest);
    assert ([op] + rest)[1..] == rest;
  }

  lemma DeleteDisciplined(h: Handler)
    requires h.LocalDelete?
    ensures Disciplined(Program(h), None)
  {
    LockedDisciplined(h.key, []);
    if h.missing {
      var pre, post := Locked(h.key, Releases(h.cancels)), Locked(h.key, DeleteEnd(h.usesSlot, h.ending));
      LockedDisciplined(h.key, Releases(h.cancels));
      LockedDisciplined(h.key, DeleteEnd(h.usesSlot, h.ending));
      var wait := if h.usesSlot then [WaitSlot] else [];
      assert Disciplined(wait, None) by { assert wait != [] ==> wait[1..] == []; }
      DisciplinedConcat(pre, wait, None);
      DisciplinedConcat(pre + wait, post, None);
    }
  }

  /** Every handler keeps the discipline, and those of the read loop never wait for a slot. */
  lemma {:induction false} ProgramDisciplined(h: Handler)
    ensures Disciplined(Program(h), None) && (InReadLoop(h) ==> NeverWaitsForSlot(Program(h)))
    decreases h
  {
    match h
    case Rejected =>
    case RemoteChange(key, work) => WorksPlain(work); LockedDisciplined(key, Works(work));
    case RemoteRename(oldRel, newRel, work) => WorksPlain(work); LockedDisciplined(oldRel + "->" + newRel, Works(work));
    case SlotAck => PlainDisciplined(Program(h));
    case RenameAck => PlainDisciplined(Program(h));
    case ChunkFrame(_) => PlainDisciplined(Program(h));
    case LocalSend(ending) =>
      if !ending.GaveUp? {
        var rest := [Send] + Releases(ending.SendFailed?);
        WaitDisciplined(WaitSlot, rest);
        assert [WaitSlot] + rest == Program(h);
      }
    case LocalUpload(chunks, releases) =>
      WorksPlain(chunks);
      WaitDisciplined(WaitSlot, Sends(chunks) + Releases(releases));
      assert [WaitSlot] + (Sends(chunks) + Releases(releases)) == Program(h);
    case LocalDelete(_, _, _, _, _) => DeleteDisciplined(h);
    case LocalRename(ending) =>
      if !ending.GaveUp? {
        var rest := [Send] + (if ending.SendFailed? then [ReleaseFifo] else []);
        WaitDisciplined(WaitFifo, rest);
        assert [WaitFifo] + rest == Program(h);
      }
    case LocalMove(first, second) =>
      ProgramDisciplined(first);
      ProgramDisciplined(second);
      DisciplinedConcat(Program(first), Program(second), None);
    case Recheck(key, send) =>
      LockedDisciplined(key, []);
      ProgramDisciplined(send);
      DisciplinedConcat(Locked(key, []), Program(send), None);
    case MergeDownload(key, releases) => LockedDisciplined(key, [Work] + Releases(releases));
  }

  // ----- What the handlers do it under --------------------------------------------------------------

  /** From a state in which `held` is held: everything is worked on, and sent if `sends`, under this lock. */
  predicate Under(prog: seq<Op>, held: Option<string>, key: string, sends: bool) {
    prog == [] ||
    match prog[0]
    case Lock(k) => Under(prog[1..], Some(k), key, sends)
    case Unlock(_) => Under(prog[1..], None, key, sends)
    case Work => held == Some(key) && Under(prog[1..], held, key, sends)
    case Send => (sends ==> held == Some(key)) && Under(prog[1..], held, key, sends)
    case _ => Under(prog[1..], held, key, sends)
  }

  /** Nothing is sent before a slot of the right kind has been got. */
  predicate SlotFirst(prog: seq<Op>, wait: Op) {
    prog == [] || prog[0] == wait || (!prog[0].Send? && SlotFirst(prog[1..], wait))
  }

  lemma {:induction false} UnderBody(body: seq<Op>, key: string, sends: bool)
    requires Plain(body)
    ensures Under(body + [Unlock(key)], Some(key), key, sends)
  {
    if body == [] {
      assert [Unlock(key)][1..] == [] && body + [Unlock(key)] == [Unlock(key)];
    } else {
      assert (body + [Unlock(key)])[1..] == body[1..] + [Unlock(key)];
      UnderBody(body[1..], key, sends);
    }
  }

  lemma {:induction false} UnderLocked(body: seq<Op>, rest: seq<Op>, key: string, sends: bool)
    requires Plain(body) && Under(rest, None, key, sends)
    ensures Under(Locked(key, body) + rest, None, key, sends)
  {
    UnderBody(body, key, sends);
    assert Locked(key, body)[1..] == body + [Unlock(key)];
    assert (Locked(key, body) + rest)[1..] == body + [Unlock(key)] + rest;
    UnderConcat(body, rest, key, sends);
  }

  lemma {:induction false} UnderConcat(body: seq<Op>, rest: seq<Op>, key: string, sends: bool)
    requires Plain(body) && Under(rest, None, key, sends)
    ensures Under(body + [Unlock(key)] + rest, Some(key), key, sends)
  {
    if body == [] {
      assert body + [Unlock(key)] + rest == [Unlock(key)] + rest;
      assert ([Unlock(key)] + rest)[1..] == rest;
    } else {
      assert (body + [Unlock(key)] + rest)[1..] == body[1..] + [Unlock(key)] + rest;
      UnderConcat(body[1..], rest, key, sends);
    }
  }

  /** Remote changes and merges work on their path under its lock, and a local delete is sent under it, after the
      second look; uploads and what is sent for a slot wait for it first. */
  lemma HandlersGuard(key: string, work: nat, oldRel: string, newRel: string, chunks: nat, releases: bool,
    ending: Ending, missing: bool, cancels: bool)
    ensures Under(Program(RemoteChange(key, work)), None, key, true)
    ensures Under(Program(RemoteRename(oldRel, newRel, work)), None, oldRel + "->" + newRel, true)
    ensures Under(Program(MergeDownload(key, releases)), None, key, true)
    ensures Under(Program(LocalDelete(key, true, missing, cancels, ending)), None, key, true)
    ensures SlotFirst(Program(LocalDelete(key, true, missing, cancels, ending)), WaitSlot)
    ensures SlotFirst(Program(LocalUpload(chunks, releases)), WaitSlot)
    ensures SlotFirst(Program(LocalSend(ending)), WaitSlot) && SlotFirst(Program(LocalRename(ending)), WaitFifo)
  {
    WorksPlain(work);
    LockedAlone(key, Works(work));
    LockedAlone(oldRel + "->" + newRel, Works(work));
    LockedAlone(key, [Work] + Releases(releases));
    DeleteGuards(key, missing, cancels, ending);
  }

  lemma LockedAlone(key: string, body: seq<Op>)
    requires Plain(body)
    ensures Under(Locked(key, body), None, key, true)
  {
    UnderLocked(body, [], key, true);
    assert Locked(key, body) + [] == Locked(key, body);
  }

  lemma DeleteGuards(key: string, missing: bool, cancels: bool, ending: Ending)
    ensures var prog := Program(LocalDelete(key, true, missing, cancels, ending));
      Under(prog, None, key, true) && SlotFirst(prog, WaitSlot)
  {
    if !missing {
      LockedAlone(key, []);
      assert [Lock(key)] + [] + [Unlock(key)] == [Lock(key), Unlock(key)];
      assert [Lock(key), Unlock(key)][1..] == [Unlock(key)] && [Unlock(key)][1..] == [];
    } else {
      var post := Locked(key, DeleteEnd(true, ending));
      var rest := [WaitSlot] + post;
      LockedAlone(key, DeleteEnd(true, ending));
      assert rest[1..] == post;
      UnderLocked(Releases(cancels), rest, key, true);
      var prog := Program(LocalDelete(key, true, missing, cancels, ending));
      assert prog == Locked(key, Releases(cancels)) + rest;
      SlotAfter(Locked(key, Releases(cancels)), rest);
    }
  }

  lemma {:induction false} SlotAfter(pre: seq<Op>, rest: seq<Op>)
    requires (forall i | 0 <= i < |pre| :: !pre[i].Send?) && SlotFirst(rest, WaitSlot)
    ensures SlotFirst(pre + rest, WaitSlot)
  {
    if pre == [] {
      assert pre + rest == rest;
    } else {
      assert (pre + rest)[1..] == pre[1..] + rest;
      SlotAfter(pre[1..], rest);
    }
  }

  // ----- State ---------------------------------------------------------------------------------------

  datatype Thread = Thread(prog: seq<Op>, held: Option<string>)

  /** `limit` is the number of slots, `None` when the control is switched off; thread 0 is the read loop. */
  datatype State = State(
    limit: Option<nat>, threads: seq<Thread>, locks: map<string, nat>, slots: nat, fifo: nat, inbox: seq<Handler>)

  const READ_LOOP: nat := 0
  const FIFO_LIMIT: nat := 1

  function Initial(limit: Option<nat>): State { State(limit, [Thread([], None)], map[], 0, 0, []) }

  /** `Clear`: a stalled round drains the slots. */
  datatype Label = Spawn(h: Handler) | Arrive(h: Handler) | Dispatch | Step(t: nat) | Clear

  predicate Ready(s: State, op: Op) {
    match op
    case Lock(key) => key !in s.locks
    case WaitSlot => s.limit.Some? ==> s.slots < s.limit.value
    case WaitFifo => s.limit.Some? ==> s.fifo < FIFO_LIMIT
    case _ => true
  }

  predicate Capacities(s: State) { s.limit.Some? ==> s.slots <= s.limit.value && s.fifo <= FIFO_LIMIT }

  predicate Busy(s: State, t: nat) { t < |s.threads| && s.threads[t].prog != [] }

  predicate Enabled(s: State, l: Label) {
    match l
    case Spawn(h) => !InReadLoop(h)
    case Arrive(h) => InReadLoop(h)
    case Dispatch => |s.threads| > READ_LOOP && !Busy(s, READ_LOOP) && s.inbox != []
    case Step(t) => Busy(s, t) && Ready(s, s.threads[t].prog[0])
    case Clear => true
  }

  function Dec(n: nat): nat { if n == 0 then 0 else n - 1 }

  function Run(s: State, t: nat): (u: State)
    requires Busy(s, t)
    ensures |u.threads| == |s.threads| && u.limit == s.limit && u.inbox == s.inbox
    ensures Ready(s, s.threads[t].prog[0]) && Capacities(s) ==> Capacities(u)
  {
    var op, rest := s.threads[t].prog[0], s.threads[t].prog[1..];
    var next := s.(threads := s.threads[t := s.threads[t].(prog := rest)]);
    match op
    case Lock(key) => s.(threads := s.threads[t := Thread(rest, Some(key))], locks := s.locks[key := t])
    case Unlock(key) => s.(threads := s.threads[t := Thread(rest, None)], locks := s.locks - {key})
    case WaitSlot => if s.limit.Some? then next.(slots := s.slots + 1) else next
    case WaitFifo => if s.limit.Some? then next.(fifo := s.fifo + 1) else next
    case ReleaseSlot => next.(slots := Dec(s.slots))
    case ReleaseFifo => next.(fifo := Dec(s.fifo))
    case _ => next
  }

  function Apply(s: State, l: Label): State
    requires Enabled(s, l)
  {
    match l
    case Spawn(h) => s.(threads := s.threads + [Thread(Program(h), None)])
    case Arrive(h) => s.(inbox := s.inbox + [h])
    case Dispatch => s.(threads := s.threads[READ_LOOP := Thread(Program(s.inbox[0]), None)], inbox := s.inbox[1..])
    case Step(t) => Run(s, t)
    case Clear => s.(slots := 0, fifo := 0)
  }

  predicate IsRun(s: State, ls: seq<Label>)
    decreases |ls|
  {
    ls == [] || (Enabled(s, ls[0]) && IsRun(Apply(s, ls[0]), ls[1..]))
  }

  function After(s: State, ls: seq<Label>): State
    requires IsRun(s, ls)
    decreases |ls|
  {
    if ls == [] then s else After(Apply(s, ls[0]), ls[1..])
  }

  // ----- Invariant -----------------------------------------------------------------------------------

  ghost predicate AllDisciplined(s: State) {
    forall t | 0 <= t < |s.threads| :: Disciplined(s.threads[t].prog, s.threads[t].held)
  }

  /** The table of locks and the threads agree on who holds what. */
  ghost predicate LocksAgree(s: State) {
    && (forall t | 0 <= t < |s.threads| && s.threads[t].held.Some? ::
          s.threads[t].held.value in s.locks && s.locks[s.threads[t].held.value] == t)
    && (forall key | key in s.locks :: s.locks[key] < |s.threads| && s.threads[s.locks[key]].held == Some(key))
  }

  ghost predicate Good(s: State) {
    && |s.threads| > READ_LOOP && NeverWaitsForSlot(s.threads[READ_LOOP].prog)
    && AllDisciplined(s) && LocksAgree(s)
    && (forall h | h in s.inbox :: InReadLoop(h))
    && Capacities(s)
  }

  lemma RunLocks(s: State, t: nat)
    requires AllDisciplined(s) && LocksAgree(s) && Enabled(s, Step(t))
    ensures LocksAgree(Run(s, t))
  {
    var u := Run(s, t);
    assert Disciplined(s.threads[t].prog, s.threads[t].held);
    assert forall i | 0 <= i < |s.threads| && i != t :: u.threads[i] == s.threads[i];
  }

  lemma RunDiscipline(s: State, t: nat)
    requires AllDisciplined(s) && Busy(s, t)
    ensures AllDisciplined(Run(s, t))
  {
    var u := Run(s, t);
    assert Disciplined(s.threads[t].prog, s.threads[t].held);
    assert forall i | 0 <= i < |s.threads| && i != t :: u.threads[i] == s.threads[i];
  }

  lemma RunKeeps(s: State, t: nat)
    requires Good(s) && Enabled(s, Step(t))
    ensures Good(Run(s, t))
  {
    RunLocks(s, t);
    RunDiscipline(s, t);
    RunReadLoop(s, t);
    hide AllDisciplined, LocksAgree, NeverWaitsForSlot, Run;
  }

  lemma RunReadLoop(s: State, t: nat)
    requires Busy(s, t) && NeverWaitsForSlot(s.threads[READ_LOOP].prog)
    ensures NeverWaitsForSlot(Run(s, t).threads[READ_LOOP].prog)
  {
    var prog := Run(s, t).threads[READ_LOOP].prog;
    assert prog == if t == READ_LOOP then s.threads[READ_LOOP].prog[1..] else s.threads[READ_LOOP].prog;
  }

  lemma StepGood(s: State, l: Label)
    requires Good(s) && Enabled(s, l)
    ensures Good(Apply(s, l))
  {
    if l.Step? {
      RunKeeps(s, l.t);
    } else if l.Spawn? {
      ProgramDisciplined(l.h);
    } else if l.Dispatch? {
      assert s.inbox[0] in s.inbox;
      ProgramDisciplined(s.inbox[0]);
    }
  }

  lemma {:induction false} RunGood(s: State, ls: seq<Label>)
    requires Good(s) && IsRun(s, ls)
    ensures Good(After(s, ls))
    decreases |ls|
  {
    if ls != [] {
      StepGood(s, ls[0]);
      RunGood(Apply(s, ls[0]), ls[1..]);
    }
  }

  lemma InitialGood(limit: Option<nat>)
    ensures Good(Initial(limit))
  {
  }

  // ----- How many are let in -------------------------------------------------------------------------

  predicate Executes(s: State, l: Label, op: Op) { l.Step? && Busy(s, l.t) && s.threads[l.t].prog[0] == op }

  /** The steps of the run that execute the operation. */
  function Executed(s: State, ls: seq<Label>, op: Op): nat
    requires IsRun(s, ls)
    decreases |ls|
  {
    if ls == [] then 0 else (if Executes(s, ls[0], op) then 1 else 0) + Executed(Apply(s, ls[0]), ls[1..], op)
  }

  lemma StepBalance(s: State, l: Label)
    requires Enabled(s, l) && l != Clear && s.limit.Some?
    ensures var t := Apply(s, l);
      && t.limit == s.limit
      && s.slots + (if Executes(s, l, WaitSlot) then 1 else 0) <=
         t.slots + (if Executes(s, l, ReleaseSlot) then 1 else 0)
      && s.fifo + (if Executes(s, l, WaitFifo) then 1 else 0) <=
         t.fifo + (if Executes(s, l, ReleaseFifo) then 1 else 0)
  {
  }

  lemma {:induction false} RunBalance(s: State, ls: seq<Label>)
    requires IsRun(s, ls) && Clear !in ls && s.limit.Some?
    ensures s.slots + Executed(s, ls, WaitSlot) <= After(s, ls).slots + Executed(s, ls, ReleaseSlot)
    ensures s.fifo + Executed(s, ls, WaitFifo) <= After(s, ls).fifo + Executed(s, ls, ReleaseFifo)
    decreases |ls|
  {
    if ls != [] {
      hide Apply, Enabled, Executes;
      StepBalance(s, ls[0]);
      RunBalance(Apply(s, ls[0]), ls[1..]);
    }
  }

  /** Over any run in which the slots are not drained, no more threads have got a slot than there are slots and
      releases, and no more have got the rename slot than one and its releases. */
  lemma {:induction false} SlotsBound(limit: nat, ls: seq<Label>)
    requires IsRun(Initial(Some(limit)), ls) && Clear !in ls
    ensures Executed(Initial(Some(limit)), ls, WaitSlot) <= limit + Executed(Initial(Some(limit)), ls, ReleaseSlot)
    ensures Executed(Initial(Some(limit)), ls, WaitFifo) <= 1 + Executed(Initial(Some(limit)), ls, ReleaseFifo)
  {
    var s := Initial(Some(limit));
    InitialGood(Some(limit));
    RunGood(s, ls);
    LimitStays(s, ls);
    RunBalance(s, ls);
    hide IsRun, After, Executed;
  }

  // ----- The wait-for relation is acyclic ---------------------------------------------------------

  predicate Blocked(s: State, t: nat) { Busy(s, t) && !Ready(s, s.threads[t].prog[0]) }

  predicate OnSlot(s: State, t: nat) { Blocked(s, t) && s.threads[t].prog[0] in {WaitSlot, WaitFifo} }

  /** A thread waits for the holder of its lock; for a slot it waits for the read loop, which handles the
      acknowledgements. */
  predicate WaitsFor(s: State, a: nat, b: nat) {
    Blocked(s, a) &&
    match s.threads[a].prog[0]
    case Lock(key) => key in s.locks && s.locks[key] == b
    case _ => b == READ_LOOP
  }

  /** Running threads, then threads that wait for a lock, then threads that wait for a slot. */
  function Rank(s: State, t: nat): nat { if !Blocked(s, t) then 0 else if OnSlot(s, t) then 2 else 1 }

  /** Whoever is waited for is closer to running: nobody waits for a slot under a lock, holders of a lock
      do not wait at all, and the read loop never waits for a slot. */
  lemma WaitsDown(s: State, a: nat, b: nat)
    requires Good(s) && WaitsFor(s, a, b)
    ensures Rank(s, b) < Rank(s, a)
    ensures OnSlot(s, a) ==> s.threads[a].held.None?
  {
    assert Disciplined(s.threads[a].prog, s.threads[a].held);
    if s.threads[a].prog[0].Lock? {
      assert Disciplined(s.threads[b].prog, s.threads[b].held);
    } else if Blocked(s, READ_LOOP) {
      assert s.threads[READ_LOOP].prog[0] in s.threads[READ_LOOP].prog;
    }
  }

  ghost predicate WaitChain(s: State, chain: seq<nat>) {
    forall i | 0 <= i < |chain| - 1 :: WaitsFor(s, chain[i], chain[i + 1])
  }

  lemma {:induction false} ChainDescends(s: State, chain: seq<nat>)
    requires Good(s) && WaitChain(s, chain) && |chain| > 1
    ensures Rank(s, chain[|chain| - 1]) + |chain| - 1 <= Rank(s, chain[0])
  {
    WaitsDown(s, chain[0], chain[1]);
    if |chain| > 2 {
      forall i | 0 <= i < |chain[1..]| - 1 ensures WaitsFor(s, chain[1..][i], chain[1..][i + 1]) {
        assert WaitsFor(s, chain[i + 1], chain[i + 2]);
      }
      ChainDescends(s, chain[1..]);
    }
  }

  /** In every reachable state, waiting never goes round in a circle; chains have at most three threads. */
  lemma {:induction false} NoCircle(limit: Option<nat>, ls: seq<Label>, chain: seq<nat>)
    requires IsRun(Initial(limit), ls) && WaitChain(After(Initial(limit), ls), chain) && |chain| > 1
    ensures chain[0] != chain[|chain| - 1] && |chain| <= 3
  {
    InitialGood(limit);
    RunGood(Initial(limit), ls);
    ChainDescends(After(Initial(limit), ls), chain);
  }

  // ----- Some step is enabled -----------------------------------------------------------------------

  predicate CanMove(s: State) { Enabled(s, Dispatch) || exists t: nat :: t < |s.threads| && Enabled(s, Step(t)) }

  /** The threads and the read loop are stuck exactly if nothing has arrived, the read loop is idle, and
      everybody else has finished or waits for a slot that is taken. */
  lemma {:induction false} StuckExactly(limit: Option<nat>, ls: seq<Label>)
    requires IsRun(Initial(limit), ls)
    ensures var s := After(Initial(limit), ls);
      !CanMove(s) <==> s.inbox == [] && !Busy(s, READ_LOOP) && forall t: nat | Busy(s, t) :: OnSlot(s, t)
  {
    var s := After(Initial(limit), ls);
    InitialGood(limit);
    RunGood(Initial(limit), ls);
    hide After, IsRun, Disciplined;
    if !CanMove(s) {
      forall t: nat | Busy(s, t) ensures OnSlot(s, t) {
        assert !Enabled(s, Step(t));
        if !OnSlot(s, t) {
          HolderMoves(s, t);
        }
      }
      if Busy(s, READ_LOOP) {
        ReadLoopNotOnSlot(s);
      }
    } else if Enabled(s, Dispatch) {
    } else {
      var t: nat :| t < |s.threads| && Enabled(s, Step(t));
      assert !OnSlot(s, t);
    }
  }

  lemma ReadLoopNotOnSlot(s: State)
    requires Good(s)
    ensures !OnSlot(s, READ_LOOP)
  {
    if Busy(s, READ_LOOP) {
      assert s.threads[READ_LOOP].prog[0] in s.threads[READ_LOOP].prog;
    }
  }

  /** A thread that waits for a lock waits for a thread that can move. */
  lemma HolderMoves(s: State, t: nat)
    requires Good(s) && Blocked(s, t) && !OnSlot(s, t)
    ensures s.threads[t].prog[0].Lock?
    ensures var key := s.threads[t].prog[0].key;
      key in s.locks && s.locks[key] < |s.threads| && s.locks[key] != t && Enabled(s, Step(s.locks[key]))
      && s.threads[s.locks[key]].prog[0] !in {WaitSlot, WaitFifo} && !s.threads[s.locks[key]].prog[0].Lock?
  {
    var key := s.threads[t].prog[0].key;
    var b := s.locks[key];
    assert Disciplined(s.threads[b].prog, s.threads[b].held);
    assert Disciplined(s.threads[t].prog, s.threads[t].held);
  }

  // ----- Acknowledgements get through -----------------------------------------------------------

  /** Who has to move for the read loop to get on. */
  function Mover(s: State): nat {
    if Blocked(s, READ_LOOP) && s.threads[READ_LOOP].prog[0].Lock? && s.threads[READ_LOOP].prog[0].key in s.locks
    then s.locks[s.threads[READ_LOOP].prog[0].key] else READ_LOOP
  }

  /** `t` is further than `s`, no slot has been taken, and waiting threads have stayed where they were. */
  ghost predicate Freer(s: State, t: State) {
    && t.limit == s.limit && t.slots <= s.slots && t.fifo <= s.fifo && t.inbox == s.inbox && |t.threads| == |s.threads|
    && (forall i: nat | i < |s.threads| && i != READ_LOOP && s.threads[i].prog != [] &&
          s.threads[i].prog[0] in {WaitSlot, WaitFifo} ::
          t.threads[i] == s.threads[i])
  }

  lemma MoverMoves(s: State)
    requires Good(s) && Busy(s, READ_LOOP)
    ensures Enabled(s, Step(Mover(s)))
    ensures Good(Run(s, Mover(s))) && Freer(s, Run(s, Mover(s)))
  {
    var m := Mover(s);
    ReadLoopNotOnSlot(s);
    if Blocked(s, READ_LOOP) {
      HolderMoves(s, READ_LOOP);
    } else {
      assert s.threads[READ_LOOP].prog[0] in s.threads[READ_LOOP].prog;
    }
    RunKeeps(s, m);
  }

  /** The total number of operations left; every step takes one off. */
  function Left(threads: seq<Thread>): nat {
    if threads == [] then 0 else Left(threads[..|threads| - 1]) + |threads[|threads| - 1].prog|
  }

  lemma {:induction false} LeftUpdate(threads: seq<Thread>, t: nat, thread: Thread)
    requires t < |threads|
    ensures Left(threads[t := thread]) + |threads[t].prog| == Left(threads) + |thread.prog|
  {
    var n := |threads| - 1;
    if t < n {
      LeftUpdate(threads[..n], t, thread);
      assert threads[t := thread][..n] == threads[..n][t := thread];
    } else {
      assert threads[t := thread][..n] == threads[..n];
    }
  }

  lemma RunTakesOne(s: State, t: nat)
    requires Busy(s, t)
    ensures Left(Run(s, t).threads) == Left(s.threads) - 1
  {
    LeftUpdate(s.threads, t, Run(s, t).threads[t]);
    assert Run(s, t).threads == s.threads[t := Run(s, t).threads[t]];
  }

  lemma FreerTrans(s: State, t: State, u: State)
    requires Freer(s, t) && Freer(t, u)
    ensures Freer(s, u)
  {
  }

  /** The read loop always comes to the end of what it is doing, without anybody getting a slot. */
  lemma {:induction false} ReadLoopFinishes(s: State) returns (ls: seq<Label>)
    requires Good(s)
    ensures IsRun(s, ls) && var t := After(s, ls); Good(t) && Freer(s, t) && !Busy(t, READ_LOOP)
    decreases Left(s.threads)
  {
    if !Busy(s, READ_LOOP) {
      ls := [];
    } else {
      var m := Mover(s);
      MoverMoves(s);
      RunTakesOne(s, m);
      hide Run, Good, Mover, Freer;
      var more := ReadLoopFinishes(Run(s, m));
      FreerTrans(s, Run(s, m), After(Run(s, m), more));
      ls := [Step(m)] + more;
      assert ls[1..] == more;
    }
  }

  lemma {:induction false} RunConcat(s: State, a: seq<Label>, b: seq<Label>)
    requires IsRun(s, a) && IsRun(After(s, a), b)
    ensures IsRun(s, a + b) && After(s, a + b) == After(After(s, a), b)
    decreases |a|
  {
    if a == [] {
      assert a + b == b;
    } else {
      assert (a + b)[1..] == a[1..] + b;
      RunConcat(Apply(s, a[0]), a[1..], b);
    }
  }

  /** The acknowledgement that gives back what the operation waits for. */
  function AckOf(op: Op): Handler { if op == WaitFifo then RenameAck else SlotAck }

  /** A waiting thread is never stuck while an acknowledgement of its kind is on its way: from any reachable
      state in which one has arrived, behind whatever other messages, there is a way on that lets the
      waiting thread have its slot. */
  lemma {:induction false} AckLetsWaiterOn(limit: Option<nat>, ls: seq<Label>, t: nat) returns (more: seq<Label>)
    requires IsRun(Initial(limit), ls)
    requires limit.Some? && limit.value > 0
    requires var s := After(Initial(limit), ls); OnSlot(s, t) && AckOf(s.threads[t].prog[0]) in s.inbox
    ensures IsRun(After(Initial(limit), ls), more)
    ensures Enabled(After(After(Initial(limit), ls), more), Step(t))
  {
    var s := After(Initial(limit), ls);
    InitialGood(limit);
    RunGood(Initial(limit), ls);
    LimitStays(Initial(limit), ls);
    ReadLoopNotOnSlot(s);
    hide IsRun, After, Good;
    var i :| 0 <= i < |s.inbox| && s.inbox[i] == AckOf(s.threads[t].prog[0]);
    var first := HandlesBefore(s, i);
    more := AckHandled(s, i, first, t);
  }

  /** The read loop handles the messages before the one at `i`, again without anybody getting a slot. */
  lemma {:induction false} HandlesBefore(s: State, i: nat) returns (ls: seq<Label>)
    requires Good(s) && i < |s.inbox|
    ensures IsRun(s, ls) && var u := After(s, ls);
      Good(u) && !Busy(u, READ_LOOP) && u.inbox == s.inbox[i..] && Freer(s, u.(inbox := s.inbox))
    decreases i
  {
    ls := ReadLoopFinishes(s);
    if i > 0 {
      var u := After(s, ls);
      var v := Apply(u, Dispatch);
      StepGood(u, Dispatch);
      assert Freer(u, v.(inbox := u.inbox));
      hide Good, Freer, Apply;
      var rest := HandlesBefore(v, i - 1);
      var more := [Dispatch] + rest;
      assert more[1..] == rest;
      RunConcat(s, ls, more);
      FreerThrough(s, u, v, After(v, rest));
      ls := ls + more;
    }
  }

  lemma FreerThrough(s: State, t: State, u: State, v: State)
    requires Freer(s, t) && Freer(t, u.(inbox := t.inbox)) && Freer(u, v.(inbox := u.inbox))
    ensures Freer(s, v.(inbox := s.inbox))
  {
  }

  /** Draining the slots, as a stalled round does, lets everybody on who waits for one. */
  lemma DrainLetsOn(s: State, t: nat)
    requires OnSlot(s, t) && (s.limit.Some? ==> s.limit.value > 0)
    ensures Enabled(s, Clear) && Enabled(Apply(s, Clear), Step(t))
  {
  }

  lemma {:induction false} LimitStays(s: State, ls: seq<Label>)
    requires IsRun(s, ls)
    ensures After(s, ls).limit == s.limit
    decreases |ls|
  {
    if ls != [] {
      LimitStays(Apply(s, ls[0]), ls[1..]);
    }
  }

  lemma AckHandled(s: State, i: nat, first: seq<Label>, t: nat) returns (more: seq<Label>)
    requires i < |s.inbox| && IsRun(s, first) && !Busy(After(s, first), READ_LOOP)
    requires var u := After(s, first); u.inbox == s.inbox[i..] && Freer(s, u.(inbox := s.inbox))
    requires s.limit.Some? && s.limit.value > 0 && Capacities(s)
    requires OnSlot(s, t) && t != READ_LOOP && s.inbox[i] == AckOf(s.threads[t].prog[0])
    ensures IsRun(s, more) && Enabled(After(s, more), Step(t))
  {
    var u := After(s, first);
    hide IsRun, After;
    var v, w := AckDispatched(u, s.threads[t].prog, t);
    var rest := [Dispatch, Step(READ_LOOP)];
    TwoSteps(u, Dispatch, Step(READ_LOOP), v, w);
    RunConcat(s, first, rest);
    more := first + rest;
  }

  lemma AckDispatched(u: State, prog: seq<Op>, t: nat) returns (v: State, w: State)
    requires u.limit.Some? && u.limit.value > 0 && Capacities(u)
    requires READ_LOOP < t < |u.threads| && u.threads[t].prog == prog && !Busy(u, READ_LOOP)
    requires prog != [] && prog[0] in {WaitSlot, WaitFifo} && u.inbox != [] && u.inbox[0] == AckOf(prog[0])
    ensures Enabled(u, Dispatch) && v == Apply(u, Dispatch)
    ensures Enabled(v, Step(READ_LOOP)) && w == Apply(v, Step(READ_LOOP)) && Enabled(w, Step(t))
  {
    v := Apply(u, Dispatch);
    assert Program(SlotAck) == [ReleaseSlot] && Program(RenameAck) == [ReleaseFifo];
    assert v.threads[READ_LOOP].prog == Program(u.inbox[0]) && v.threads[t] == u.threads[t];
    w := Run(v, READ_LOOP);
    assert w.threads[t] == u.threads[t];
  }

  lemma TwoSteps(s: State, a: Label, b: Label, t: State, u: State)
    requires Enabled(s, a) && Apply(s, a) == t && Enabled(t, b) && Apply(t, b) == u
    ensures IsRun(s, [a, b]) && After(s, [a, b]) == u
  {
    assert [a, b][1..] == [b] && [b][1..] == [];
    assert IsRun(t, [b]) && After(t, [b]) == u;
  }

  // ----- The service's part ---------------------------------------------------------------------------

  /** The slots as buffered channels: entering is only possible while there is room. */
  class ConcurrencyManager {
    const enabled: bool
    const max: nat
    var slots: nat
    var fifo: nat

    ghost predicate Valid()
      reads this
    {
      max > 0 && slots <= max && fifo <= FIFO_LIMIT
    }

    constructor (configured: bool, maxUploads: int)
      ensures Valid() && slots == 0 == fifo && enabled == configured
          && max == (if maxUploads > 0 then maxUploads else 1)
    {
      enabled, max, slots, fifo := configured, if maxUploads > 0 then maxUploads else 1, 0, 0;
    }

    /** What the goroutine waits for. */
    predicate Room(rename: bool)
      reads this
    {
      !enabled || (if rename then fifo < FIFO_LIMIT else slots < max)
    }

    method WaitForSlot(rename: bool)
      requires Valid() && Room(rename)
      modifies this
      ensures Valid()
      ensures slots == (if enabled && !rename then old(slots) + 1 else old(slots))
      ensures fifo == (if enabled && rename then old(fifo) + 1 else old(fifo))
    {
      if !enabled {
        return;
      }
      if rename {
        fifo := fifo + 1;
        return;
      }
      slots := slots + 1;
    }

    /** A release without a taken slot is lost. */
    method ReleaseSlot()
      requires Valid()
      modifies `slots
      ensures Valid() && slots == if enabled then Dec(old(slots)) else old(slots)
    {
      if enabled && slots > 0 {
        slots := slots - 1;
      }
    }

    method ReleaseFifoSlot()
      requires Valid()
      modifies `fifo
      ensures Valid() && fifo == if enabled then Dec(old(fifo)) else old(fifo)
    {
      if enabled && fifo > 0 {
        fifo := fifo - 1;
      }
    }

    /** Drains both channels, one token at a time. */
    method Clear()
      requires Valid()
      modifies this
      ensures Valid() && slots == 0 == fifo && Room(false) && Room(true)
    {
      while slots > 0
        invariant Valid()
      {
        slots := slots - 1;
      }
      while fifo > 0
        invariant Valid() && slots == 0
      {
        fifo := fifo - 1;
      }
    }
  }
}
