/** The debounced watcher of `internal/watcher/watcher.go` as a state machine: keyed timers, one
    pending rename, per-path generations, and the wait group that `Close` waits for. */
module Watcher {
  import opened Options

  // ----- State -------------------------------------------------------------------------------------

  datatype Kind = ModifyKey | DeleteKey | RenameKey

  /** `kind + ":" + rel`; for renames `rel` is `oldRel + "->" + newRel`. */
  datatype Key = Key(kind: Kind, rel: string)

  /** What a timer delivers. The generations say which events it stands for; only `Delete` looks at
      its generation when it runs. */
  datatype Job =
    | Modify(rel: string, gen: nat)
    | Delete(rel: string, gen: nat)
    | Rename(oldRel: string, newRel: string, oldGen: nat, newGen: nat)

  /** `Stopped`: a successful `Stop`; `Stale`: superseded or closed; `Dropped`: the path exists. */
  datatype Outcome = Delivered | Dropped | Stale | Stopped

  /** `Fired`: the callback runs but has not reached its critical section. `Started`, `Seen`,
      `Missing`, `Confirmed`: past it, past the first generation check, past the disk check, past
      the second generation check. `Returning`: only the deferred `done` is left. */
  datatype Phase = Armed | Fired | Started | Seen | Missing | Confirmed | Returning(how: Outcome) | Over(how: Outcome)

  datatype Home = Keyed(key: Key) | PendingSlot

  datatype Timer = Timer(home: Home, job: Job, phase: Phase, done: bool)

  /** `Handling(rel)`: between the two critical sections of an unpaired `Create`. */
  datatype Loop = Idle | Handling(rel: string) | Exited

  datatype State = State(
    timers: map<Key, nat>, pathGen: map<string, nat>, pending: Option<nat>, closed: bool,
    pool: seq<Timer>, wg: int, loop: Loop, returned: bool, log: seq<nat>)

  const INITIAL: State := State(map[], map[], None, false, [], 1, Idle, false, [])

  function GenIn(pathGen: map<string, nat>, rel: string): nat {
    if rel in pathGen then pathGen[rel] else 0
  }

  function Gen(s: State, rel: string): nat { GenIn(s.pathGen, rel) }

  function RenameKeyOf(oldRel: string, newRel: string): Key { Key(RenameKey, oldRel + "->" + newRel) }

  function KeyOf(job: Job): Key {
    match job
    case Modify(rel, _) => Key(ModifyKey, rel)
    case Delete(rel, _) => Key(DeleteKey, rel)
    case Rename(o, n, _, _) => RenameKeyOf(o, n)
  }

  // ----- Primitive operations under the mutex ---------------------------------------------------

  function StoppedTimer(t: Timer): Timer {
    if t.phase == Armed then t.(phase := Over(Stopped), done := true) else t
  }

  /** `Stop`, and if it wins, `done.Do(wg.Done)`. */
  function StopTimer(s: State, id: nat): (t: State)
    ensures t.loop == s.loop && t.closed == s.closed
  {
    if id < |s.pool| && s.pool[id].phase == Armed then
      s.(pool := s.pool[id := StoppedTimer(s.pool[id])], wg := if s.pool[id].done then s.wg else s.wg - 1)
    else s
  }

  function CancelTimer(s: State, key: Key): (t: State)
    ensures t.loop == s.loop && t.closed == s.closed
  {
    if key in s.timers then StopTimer(s, s.timers[key]).(timers := s.timers - {key}) else s
  }

  function CancelPending(s: State): (t: State)
    ensures t.loop == s.loop && t.closed == s.closed
  {
    if s.pending.Some? then StopTimer(s, s.pending.value).(pending := None) else s
  }

  function Bump(s: State, rel: string): State { s.(pathGen := s.pathGen[rel := Gen(s, rel) + 1]) }

  function Arm(s: State, home: Home, job: Job): State {
    s.(pool := s.pool + [Timer(home, job, Armed, false)], wg := s.wg + 1)
  }

  function Schedule(s: State, job: Job): (t: State)
    ensures t.loop == s.loop && t.closed == s.closed
  {
    if s.closed then s
    else
      var t := CancelTimer(s, KeyOf(job));
      Arm(t, Keyed(KeyOf(job)), job).(timers := t.timers[KeyOf(job) := |t.pool|])
  }

  /** The delete that the pending rename turns into when it stays alone. */
  function PendingJob(s: State): (job: Option<Job>)
    ensures job.Some? ==> job.value.Delete? && s.pending.Some?
  {
    if s.pending.Some? && s.pending.value < |s.pool| && s.pool[s.pending.value].job.Delete?
    then Some(s.pool[s.pending.value].job) else None
  }

  predicate PendingOn(s: State, rel: string) { PendingJob(s).Some? && PendingJob(s).value.rel == rel }

  function Flush(s: State): State {
    if PendingJob(s).Some? then Schedule(CancelPending(s), PendingJob(s).value) else s
  }

  // ----- Events, handled by the loop -----------------------------------------------------------

  function CancelPendingOn(s: State, rel: string): State {
    if PendingOn(s, rel) then CancelPending(s) else s
  }

  function OnWrite(s: State, rel: string): State {
    var t := Bump(CancelPendingOn(CancelTimer(s, Key(DeleteKey, rel)), rel), rel);
    Schedule(t, Modify(rel, Gen(t, rel)))
  }

  function OnRemove(s: State, rel: string): State {
    var t := Bump(CancelPendingOn(CancelTimer(s, Key(ModifyKey, rel)), rel), rel);
    Schedule(t, Delete(rel, Gen(t, rel)))
  }

  function OnRenameAway(s: State, rel: string): State {
    var t := Bump(CancelTimer(Flush(s), Key(ModifyKey, rel)), rel);
    Arm(t, PendingSlot, Delete(rel, Gen(t, rel))).(pending := Some(|t.pool|))
  }

  /** `pairRename`; without a partner the loop goes on with the second critical section. */
  function OnCreate(s: State, rel: string): State {
    var t := CancelTimer(s, Key(DeleteKey, rel));
    match PendingJob(t)
    case None => t.(loop := Handling(rel))
    case Some(away) =>
      var u := CancelPending(t);
      if away.rel == rel then u.(loop := Handling(rel))
      else
        var v := Bump(Bump(CancelTimer(u, Key(ModifyKey, away.rel)), away.rel), rel);
        Schedule(v, Rename(away.rel, rel, Gen(v, away.rel), Gen(v, rel)))
  }

  function OnCreateRest(s: State, rel: string): State {
    var t := Bump(CancelTimer(s.(loop := Idle), Key(DeleteKey, rel)), rel);
    Schedule(t, Modify(rel, Gen(t, rel)))
  }

  // ----- Timer callbacks -------------------------------------------------------------------------

  predicate InHome(s: State, id: nat) {
    id < |s.pool| &&
    match s.pool[id].home
    case Keyed(key) => key in s.timers && s.timers[key] == id
    case PendingSlot => s.pending == Some(id)
  }

  predicate Current(s: State, job: Job) {
    !s.closed && (job.Delete? ==> Gen(s, job.rel) == job.gen)
  }

  function Goto(s: State, id: nat, phase: Phase): (t: State)
    requires id < |s.pool|
  {
    s.(pool := s.pool[id := s.pool[id].(phase := phase)])
  }

  /** The critical section at the start of both kinds of callback. */
  function Enter(s: State, id: nat): (t: State)
    requires id < |s.pool|
  {
    match s.pool[id].home
    case Keyed(key) =>
      if !InHome(s, id) || s.closed then Goto(s, id, Returning(Stale))
      else Goto(s, id, Started).(timers := s.timers - {key})
    case PendingSlot =>
      if !InHome(s, id) || !Current(s, s.pool[id].job) then Goto(s, id, Returning(Stale))
      else Goto(s, id, Seen).(pending := None)
  }

  // ----- Close -------------------------------------------------------------------------------------

  function Undone(pool: seq<Timer>): nat {
    if pool == [] then 0 else Undone(pool[..|pool| - 1]) + (if pool[|pool| - 1].done then 0 else 1)
  }

  function StopAll(pool: seq<Timer>): seq<Timer> {
    seq(|pool|, i requires 0 <= i < |pool| => StoppedTimer(pool[i]))
  }

  function CloseLocked(s: State): State {
    s.(closed := true, timers := map[], pending := None, pool := StopAll(s.pool),
       wg := s.wg - (Undone(s.pool) - Undone(StopAll(s.pool))))
  }

  // ----- Steps -------------------------------------------------------------------------------------

  datatype Label =
    | Write(rel: string) | Remove(rel: string) | RenameAway(rel: string)
    | Create(rel: string) | CreateRest | Overflow | LoopExit
    | Fire(id: nat) | EnterTimer(id: nat) | FirstCheck(id: nat) | DiskCheck(id: nat, missing: bool)
    | SecondCheck(id: nat) | Deliver(id: nat) | Return(id: nat)
    | CloseLock | CloseReturn

  predicate InPhase(s: State, id: nat, phase: Phase) { id < |s.pool| && s.pool[id].phase == phase }

  /** Steps of one timer; the others are steps of the loop or of `Close`. */
  predicate IsTimerLabel(l: Label) {
    l.Fire? || l.EnterTimer? || l.FirstCheck? || l.DiskCheck? || l.SecondCheck? || l.Deliver? || l.Return?
  }

  predicate TimerEnabled(s: State, l: Label)
    requires IsTimerLabel(l)
  {
    match l
    case Fire(id) => InPhase(s, id, Armed)
    case EnterTimer(id) => InPhase(s, id, Fired)
    case FirstCheck(id) => InPhase(s, id, Started) && s.pool[id].job.Delete?
    case DiskCheck(id, _) => InPhase(s, id, Seen)
    case SecondCheck(id) => InPhase(s, id, Missing)
    case Deliver(id) => InPhase(s, id, Confirmed) || (InPhase(s, id, Started) && !s.pool[id].job.Delete?)
    case Return(id) => id < |s.pool| && s.pool[id].phase.Returning?
  }

  predicate EventEnabled(s: State, l: Label) {
    if l.CreateRest? then s.loop.Handling?
    else if l.CloseLock? then !s.closed
    else if l.CloseReturn? then s.closed && s.wg == 0
    else s.loop == Idle
  }

  predicate Enabled(s: State, l: Label) {
    if IsTimerLabel(l) then TimerEnabled(s, l) else EventEnabled(s, l)
  }

  function NextPhase(s: State, l: Label): Phase
    requires IsTimerLabel(l) && TimerEnabled(s, l) && !l.EnterTimer?
  {
    match l
    case Fire(_) => Fired
    case FirstCheck(id) => if Current(s, s.pool[id].job) then Seen else Returning(Stale)
    case DiskCheck(_, missing) => if missing then Missing else Returning(Dropped)
    case SecondCheck(id) => if Current(s, s.pool[id].job) then Confirmed else Returning(Stale)
    case Deliver(_) => Returning(Delivered)
    case Return(id) => Over(s.pool[id].phase.how)
  }

  function ApplyTimer(s: State, l: Label): (t: State)
    requires IsTimerLabel(l) && TimerEnabled(s, l)
    ensures l.id < |s.pool| == |t.pool| && forall i | 0 <= i < |s.pool| && i != l.id :: t.pool[i] == s.pool[i]
    ensures t.pool[l.id].job == s.pool[l.id].job && t.pool[l.id].home == s.pool[l.id].home
    ensures t.pathGen == s.pathGen && t.closed == s.closed && t.loop == s.loop && t.wg <= s.wg
    ensures t.log == if l.Deliver? then s.log + [l.id] else s.log
  {
    if l.EnterTimer? then Enter(s, l.id)
    else
      var timer := s.pool[l.id];
      s.(pool := s.pool[l.id := timer.(phase := NextPhase(s, l), done := timer.done || l.Return?)],
         log := if l.Deliver? then s.log + [l.id] else s.log,
         wg := if l.Return? && !timer.done then s.wg - 1 else s.wg)
  }

  function ApplyEvent(s: State, l: Label): State
    requires !IsTimerLabel(l) && EventEnabled(s, l)
  {
    match l
    case Write(rel) => OnWrite(s, rel)
    case Remove(rel) => OnRemove(s, rel)
    case RenameAway(rel) => OnRenameAway(s, rel)
    case Create(rel) => OnCreate(s, rel)
    case CreateRest => OnCreateRest(s, s.loop.rel)
    case Overflow => s
    case LoopExit => s.(loop := Exited, wg := s.wg - 1)
    case CloseLock => CloseLocked(s)
    case CloseReturn => s.(returned := true)
  }

  function Apply(s: State, l: Label): State
    requires Enabled(s, l)
  {
    if IsTimerLabel(l) then ApplyTimer(s, l) else ApplyEvent(s, l)
  }

  ghost predicate IsRun(ls: seq<Label>) {
    ls == [] || (IsRun(ls[..|ls| - 1]) && Enabled(After(ls[..|ls| - 1]), ls[|ls| - 1]))
  }

  ghost function After(ls: seq<Label>): State {
    if ls == [] then INITIAL
    else
      var s := After(ls[..|ls| - 1]);
      if Enabled(s, ls[|ls| - 1]) then Apply(s, ls[|ls| - 1]) else s
  }
}
