/** Download sessions from announcement to commit (`internal/sync/file_sync.go`, `internal/sync/startup.go`):
    supersession, aborts, time-outs and merges in any interleaving. What a merge finds in the temporary
    directory is any bytes at all; the path lock, which only removes interleavings, is left out. An
    announcement is a `FileSyncUpdate`; what it is worth to its page is to be counted once. */
module Downloads {
  import opened ByteTypes
  import opened ChunkTransfer
  import opened Options

  // ----- State ---------------------------------------------------------------------------------------

  /** A session object; `key` is its key in `fileDownloadSessions`, `hash` is `None` for "", `page` is the
      announcement whose page it completes when it ends. */
  datatype Download = Download(
    key: string, totalChunks: int, hash: Option<int>, size: int, page: Option<nat>, received: set<nat>, merging: bool,
    cancelled: bool)

  /** `Failed`: the goroutine has found an error and is about to abort. */
  datatype Phase = Reading | Assembled(bytes: Bytes) | Staged(bytes: Bytes) | Failed | Over

  /** A goroutine running `mergeDownloadSession` for the object `id`. */
  datatype Merge = Merge(id: nat, phase: Phase)

  datatype Commit = Commit(id: nat, bytes: Bytes)

  /** A goroutine between the update of the map and the result of its request; `created` tells a new
      temporary entry from a live session that was retargeted. */
  datatype Ask = Ask(id: nat, created: bool)

  /** `ended` lists the objects that an abort or a commit took out of the map; those in `owing` have not
      completed their page yet. `announced` counts announcements, `asking` has those with a request on its way,
      `pages` lists those completed. */
  datatype State = State(
    pool: seq<Download>, current: map<string, nat>, merges: seq<Merge>, commits: seq<Commit>, ended: seq<nat>,
    owing: set<nat>, announced: nat, asking: map<nat, Ask>, pages: seq<nat>)

  const INITIAL: State := State([], map[], [], [], [], {}, 0, map[], [])

  const TEMP: string := "temp_"

  function TempKey(path: string): string { TEMP + path }

  predicate IsTemp(key: string) { TEMP <= key }

  predicate IsCurrent(s: State, id: nat) {
    id < |s.pool| && s.pool[id].key in s.current && s.current[s.pool[id].key] == id
  }

  // ----- Critical sections --------------------------------------------------------------------------

  function Enter(s: State, key: string, totalChunks: int, hash: Option<int>, size: int, page: Option<nat>): State {
    s.(pool := s.pool + [Download(key, totalChunks, hash, size, page, {}, false, false)],
       current := s.current[key := |s.pool|])
  }

  /** `handleFileSyncUpdate` without a live session, up to its request. */
  function Expecting(s: State, path: string, hash: Option<int>, size: int): State {
    Enter(s, TempKey(path), 0, hash, size, Some(s.announced)).(
      announced := s.announced + 1, asking := s.asking[s.announced := Ask(|s.pool|, true)])
  }

  /** `handleFileSyncUpdate` with a live session; an empty one needs no request. */
  function Retargeted(s: State, id: nat, hash: Option<int>, size: int): State
    requires id < |s.pool|
  {
    s.(pool := s.pool[id := s.pool[id].(hash := hash, size := size, page := Some(s.announced))],
       announced := s.announced + 1,
       asking := if s.pool[id].totalChunks == 0 then s.asking else s.asking[s.announced := Ask(id, false)])
  }

  /** A new entry is taken back, or whatever has its place by now. */
  function TakeBack(s: State, a: Ask): State {
    if a.created && a.id < |s.pool| then s.(current := s.current - {s.pool[a.id].key}) else s
  }

  /** The request for the announcement `p` could not be sent. */
  function FailRequest(s: State, p: nat): State
    requires p in s.asking
  {
    TakeBack(s, s.asking[p]).(asking := s.asking - {p}, pages := s.pages + [p])
  }

  /** `handleFileSyncChunkDownload`: the announced temporary entry gives way to the session. */
  function Announce(s: State, path: string, sessionId: string, totalChunks: int, hash: Option<int>, size: int): State {
    if TempKey(path) in s.current && s.current[TempKey(path)] < |s.pool| then
      var t := Enter(s, sessionId, totalChunks, hash, size, s.pool[s.current[TempKey(path)]].page);
      t.(current := t.current - {TempKey(path)})
    else Enter(s, sessionId, totalChunks, hash, size, None)
  }

  /** The locked section of `abortDownloadSession`. */
  function Abort(s: State, key: string): State {
    if key !in s.current || s.current[key] >= |s.pool| then s
    else
      var id := s.current[key];
      s.(current := s.current - {key}, pool := s.pool[id := s.pool[id].(cancelled := true)], ended := s.ended + [id],
         owing := s.owing + {id})
  }

  /** `completeSyncPage` at the end of an abort or a merge: it reads the page of the object outside the
      section that took the object out. */
  function CompletePage(s: State, id: nat): State
    requires id < |s.pool|
  {
    s.(owing := s.owing - {id}, pages := if s.pool[id].page.Some? then s.pages + [s.pool[id].page.value] else s.pages)
  }

  function StartMerge(s: State, id: nat): State
    requires id < |s.pool|
  {
    s.(pool := s.pool[id := s.pool[id].(merging := true)], merges := s.merges + [Merge(id, Reading)])
  }

  function CompleteEmpty(s: State, id: nat): State
    requires id < |s.pool|
  {
    if IsCurrent(s, id) then StartMerge(s, id) else s
  }

  /** The second critical section of `handleFileBinaryChunk`. */
  function RecordChunk(s: State, key: string, index: nat): State {
    if key !in s.current || s.current[key] >= |s.pool| || s.pool[s.current[key]].cancelled then s
    else
      var id := s.current[key];
      var d := s.pool[id].(received := s.pool[id].received + {index});
      var t := s.(pool := s.pool[id := d]);
      if |d.received| == d.totalChunks && !d.merging then StartMerge(t, id) else t
  }

  /** `handleFileBinaryChunk` without an interruption between its two critical sections. */
  function HandleChunk(s: State, key: string, index: nat): State {
    if key !in s.current || s.current[key] >= |s.pool| then s
    else
      var d := s.pool[s.current[key]];
      if index >= d.totalChunks % UINT32 then Abort(s, key)
      else if index in d.received then s
      else RecordChunk(s, key, index)
  }

  /** The object does the bookkeeping of the receiving session `session`. */
  predicate Mirrors(d: Download, session: Session) {
    && d.totalChunks == session.totalChunks && d.received == session.received && d.merging == session.merging
    && d.cancelled == session.aborted
  }

  /** Handling a chunk of a live session is what its receiving session does. */
  lemma ChunkAgrees(s: State, key: string, index: nat, session: Session, data: Bytes)
    requires key in s.current && s.current[key] < |s.pool|
    requires !session.aborted && Mirrors(s.pool[s.current[key]], session)
    ensures var id, t, after := s.current[key], HandleChunk(s, key, index), Accept(session, index, data);
      && Mirrors(t.pool[id], after) && (after.aborted <==> key !in t.current)
      && |t.merges| - |s.merges| == after.merges - session.merges
  {
  }

  function Cancelled(pool: seq<Download>, ids: set<nat>): seq<Download> {
    seq(|pool|, i requires 0 <= i < |pool| => if i in ids then pool[i].(cancelled := true) else pool[i])
  }

  function Cancel(s: State, key: string): State
    requires key in s.current
  {
    var id := s.current[key];
    s.(pool := if id < |s.pool| then s.pool[id := s.pool[id].(cancelled := true)] else s.pool,
       current := s.current - {key})
  }

  /** `cleanupActiveFileTransfersOnTimeout`. */
  function Cleanup(s: State): State {
    s.(pool := Cancelled(s.pool, s.current.Values), current := map[])
  }

  function Goto(s: State, m: nat, phase: Phase): State
    requires m < |s.merges|
  {
    s.(merges := s.merges[m := s.merges[m].(phase := phase)])
  }

  /** The size and hash checks; a session without a hash takes the one it got. */
  function CheckMerge(h: Bytes -> int, s: State, m: nat, bytes: Bytes): State
    requires m < |s.merges| && s.merges[m].id < |s.pool|
  {
    var id, d := s.merges[m].id, s.pool[s.merges[m].id];
    if |bytes| != d.size || (d.hash.Some? && d.hash.value != h(bytes)) then Goto(s, m, Failed)
    else Goto(s, m, Staged(bytes)).(pool := s.pool[id := d.(hash := Some(h(bytes)))])
  }

  /** The last critical section: the guard, the replacement, the removal of the session. */
  function CommitMerge(s: State, m: nat, bytes: Bytes, replaced: bool): State
    requires m < |s.merges| && s.merges[m].id < |s.pool|
  {
    var id := s.merges[m].id;
    if !IsCurrent(s, id) || s.pool[id].cancelled then Goto(s, m, Over)
    else if !replaced then Goto(s, m, Failed)
    else
      Goto(s, m, Over).(commits := s.commits + [Commit(id, bytes)], current := s.current - {s.pool[id].key},
        ended := s.ended + [id], owing := s.owing + {id})
  }

  // ----- Steps ---------------------------------------------------------------------------------------

  /** `Refused`, `Expect`, `Retarget`: the ways through `handleFileSyncUpdate`, the last two up to the
      request, which is then sent or fails. Each announcement has its own goroutine. */
  datatype Label =
    | Refused
    | Expect(path: string, hash: Option<int>, size: int)
    | Retarget(id: nat, hash: Option<int>, size: int)
    | RequestSent(p: nat) | RequestFailed(p: nat)
    | Announced(path: string, sessionId: string, totalChunks: int, hash: Option<int>, size: int)
    | Empty(id: nat) | ChunkStored(key: string, index: nat) | Aborted(key: string) | PageDone(id: nat) | TimedOut
    | MergeRead(m: nat, bytes: Bytes) | MergeFails(m: nat) | MergeCheck(m: nat) | MergeCommit(m: nat, replaced: bool)

  predicate Running(s: State, m: nat) {
    m < |s.merges| && s.merges[m].id < |s.pool| && !s.merges[m].phase.Over?
  }

  predicate Enabled(s: State, l: Label) {
    match l
    case Retarget(id, _, _) => id < |s.pool| && !IsTemp(s.pool[id].key)
    case RequestSent(p) => p in s.asking
    case RequestFailed(p) => p in s.asking
    case Empty(id) => id < |s.pool| && !IsTemp(s.pool[id].key) && s.pool[id].totalChunks == 0
    case PageDone(id) => id < |s.pool| && id in s.owing
    case MergeRead(m, _) => Running(s, m) && s.merges[m].phase.Reading?
    case MergeFails(m) => Running(s, m)
    case MergeCheck(m) => Running(s, m) && s.merges[m].phase.Assembled?
    case MergeCommit(m, _) => Running(s, m) && s.merges[m].phase.Staged?
    case _ => true
  }

  function Apply(h: Bytes -> int, s: State, l: Label): State
    requires Enabled(s, l)
  {
    match l
    case Refused => s.(announced := s.announced + 1, pages := s.pages + [s.announced])
    case Expect(path, hash, size) => Expecting(s, path, hash, size)
    case Retarget(id, hash, size) => Retargeted(s, id, hash, size)
    case RequestSent(p) => s.(asking := s.asking - {p})
    case RequestFailed(p) => FailRequest(s, p)
    case Announced(path, sessionId, totalChunks, hash, size) => Announce(s, path, sessionId, totalChunks, hash, size)
    case Empty(id) => CompleteEmpty(s, id)
    case ChunkStored(key, index) => RecordChunk(s, key, index)
    case Aborted(key) => Abort(s, key)
    case PageDone(id) => CompletePage(s, id)
    case TimedOut => Cleanup(s)
    case MergeRead(m, bytes) => Goto(s, m, Assembled(bytes))
    case MergeFails(m) => Abort(Goto(s, m, Over), s.pool[s.merges[m].id].key)
    case MergeCheck(m) => CheckMerge(h, s, m, s.merges[m].phase.bytes)
    case MergeCommit(m, replaced) => CommitMerge(s, m, s.merges[m].phase.bytes, replaced)
  }

  ghost predicate IsRun(h: Bytes -> int, ls: seq<Label>) {
    ls == [] || (IsRun(h, ls[..|ls| - 1]) && Enabled(After(h, ls[..|ls| - 1]), ls[|ls| - 1]))
  }

  ghost function After(h: Bytes -> int, ls: seq<Label>): State {
    if ls == [] then INITIAL
    else
      var s := After(h, ls[..|ls| - 1]);
      if Enabled(s, ls[|ls| - 1]) then Apply(h, s, ls[|ls| - 1]) else s
  }

  // ----- The service's part ---------------------------------------------------------------------------

  ghost predicate Keyed(s: State) {
    forall key | key in s.current :: s.current[key] < |s.pool| && s.pool[s.current[key]].key == key
  }

  class Transfers {
    var pool: seq<Download>
    var sessions: map<string, nat>
    var merges: seq<Merge>
    var commits: seq<Commit>
    var ended: seq<nat>
    var owing: set<nat>
    var announced: nat
    var asking: map<nat, Ask>
    var pages: seq<nat>

    ghost function Snapshot(): State
      reads this
    {
      State(pool, sessions, merges, commits, ended, owing, announced, asking, pages)
    }

    ghost predicate Valid()
      reads this
    {
      Keyed(Snapshot())
    }

    constructor ()
      ensures Snapshot() == INITIAL && Valid()
    {
      pool, sessions, merges, commits, ended, owing := [], map[], [], [], [], {};
      announced, asking, pages := 0, map[], [];
    }

    method CancelSession(key: string)
      requires Valid() && key in sessions
      modifies this
      ensures Valid() && Snapshot() == Cancel(old(Snapshot()), key)
    {
      pool := pool[sessions[key] := pool[sessions[key]].(cancelled := true)];
      sessions := sessions - {key};
    }

    /** The loop over the map, one session after the other. */
    method CleanupActiveFileTransfersOnTimeout()
      requires Valid()
      modifies this
      ensures Valid() && Snapshot() == Cleanup(old(Snapshot()))
    {
      ghost var was := Snapshot();
      assert Cleaning(was, was);
      hide Cleaning, Cleanup, Cancel;
      while sessions != map[]
        invariant Valid() && Cleaning(was, Snapshot())
        decreases sessions.Keys
      {
        var key :| key in sessions;
        CleanStep(was, Snapshot(), key);
        CancelSession(key);
      }
      Cleaned(was, Snapshot());
    }
  }

  /** The sessions taken out so far are cancelled, and nothing else has changed. */
  ghost predicate Cleaning(was: State, s: State) {
    && |s.pool| == |was.pool| && s == was.(pool := s.pool, current := s.current)
    && (forall id | id in s.current.Values :: id in was.current.Values)
    && (forall i | 0 <= i < |s.pool| :: s.pool[i] ==
          if i in was.current.Values && i !in s.current.Values then was.pool[i].(cancelled := true) else was.pool[i])
  }

  lemma CleanStep(was: State, s: State, key: string)
    requires Cleaning(was, s) && key in s.current
    requires Keyed(s)
    ensures Cleaning(was, Cancel(s, key)) && Cancel(s, key).current.Keys == s.current.Keys - {key}
  {
    TakeOut(s.current, key, s.pool);
  }

  lemma Cleaned(was: State, s: State)
    requires Cleaning(was, s) && s.current == map[]
    ensures s == Cleanup(was)
  {
    assert s.pool == Cancelled(was.pool, was.current.Values);
  }

  /** Objects have one key each, so taking a key out takes out exactly its object. */
  lemma TakeOut(sessions: map<string, nat>, key: string, pool: seq<Download>)
    requires key in sessions && forall k | k in sessions :: sessions[k] < |pool| && pool[sessions[k]].key == k
    ensures (sessions - {key}).Values == sessions.Values - {sessions[key]} && sessions[key] in sessions.Values
  {
    var rest := sessions - {key};
    forall v ensures v in rest.Values <==> v in sessions.Values && v != sessions[key] {
      if v in sessions.Values && v != sessions[key] {
        var k :| k in sessions && sessions[k] == v;
        assert k in rest && rest[k] == v;
      }
      if v in rest.Values {
        var k :| k in rest && rest[k] == v;
        assert sessions[k] == v;
      }
    }
  }
}
