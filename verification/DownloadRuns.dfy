/** What every run of the download sessions keeps: who may replace a file, when, and how often. */
module DownloadRuns {
  import opened ByteTypes
  import opened ChunkTransfer
  import opened Downloads
  import opened Options

  // ----- Invariant -----------------------------------------------------------------------------------

  ghost predicate Distinct(list: seq<nat>) { forall i, j | 0 <= i < j < |list| :: list[i] != list[j] }

  ghost predicate EntriesOK(s: State) {
    forall key | key in s.current ::
      s.current[key] < |s.pool| && s.pool[s.current[key]].key == key && !s.pool[s.current[key]].cancelled
  }

  /** The object has left the map for good: aborted, timed out, superseded or committed. */
  predicate Gone(s: State, id: nat) { id < |s.pool| && !IsCurrent(s, id) }

  ghost predicate EndedOK(s: State) {
    && Distinct(s.ended) && (forall i | 0 <= i < |s.ended| :: Gone(s, s.ended[i]))
    && forall id | id in s.owing :: id in s.ended
  }

  ghost predicate CommitsOK(s: State) {
    && (forall i | 0 <= i < |s.commits| :: Gone(s, s.commits[i].id) && s.commits[i].id in s.ended)
    && (forall i, j | 0 <= i < j < |s.commits| :: s.commits[i].id != s.commits[j].id)
  }

  ghost predicate Owned(s: State) { EntriesOK(s) && EndedOK(s) && CommitsOK(s) }

  /** `t` may have more objects; those it shares with `s` have kept their keys, and what has left the
      map of `s` has not come back. */
  ghost predicate Later(s: State, t: State) {
    && |t.pool| >= |s.pool| && (forall i | 0 <= i < |s.pool| :: t.pool[i].key == s.pool[i].key)
    && (forall id | Gone(s, id) :: Gone(t, id))
  }

  /** Steps that end no session. */
  lemma KeepsEnded(s: State, t: State)
    requires Owned(s) && EntriesOK(t) && Later(s, t) && t.commits == s.commits
    requires t.ended == s.ended && t.owing <= s.owing
    ensures Owned(t)
  {
  }

  lemma EnterOwned(s: State, key: string, totalChunks: int, hash: Option<int>, size: int, page: Option<nat>)
    requires Owned(s)
    ensures var t := Enter(s, key, totalChunks, hash, size, page); Owned(t) && Later(s, t)
  {
    var t := Enter(s, key, totalChunks, hash, size, page);
    assert forall i | 0 <= i < |s.pool| :: t.pool[i] == s.pool[i];
    KeepsEnded(s, t);
  }

  lemma RemoveOwned(s: State, key: string)
    requires Owned(s)
    ensures var t := s.(current := s.current - {key}); Owned(t) && Later(s, t)
  {
    KeepsEnded(s, s.(current := s.current - {key}));
  }

  /** The announcement counter and the pages are nobody's business here. */
  lemma FrameOwned(s: State, announced: nat, asking: map<nat, Ask>, pages: seq<nat>)
    requires Owned(s)
    ensures var t := s.(announced := announced, asking := asking, pages := pages); Owned(t) && Later(s, t)
  {
    KeepsEnded(s, s.(announced := announced, asking := asking, pages := pages));
  }

  lemma AbortOwned(s: State, key: string)
    requires Owned(s)
    ensures Owned(Abort(s, key)) && Later(s, Abort(s, key))
  {
    var t := Abort(s, key);
    if key in s.current {
      var id := s.current[key];
      assert IsCurrent(s, id) && Gone(t, id) && id !in s.ended;
      assert Later(s, t);
    }
  }

  lemma StartOwned(s: State, id: nat)
    requires Owned(s) && id < |s.pool|
    ensures Owned(StartMerge(s, id)) && Later(s, StartMerge(s, id))
  {
    KeepsEnded(s, StartMerge(s, id));
  }

  lemma RecordOwned(s: State, key: string, index: nat)
    requires Owned(s)
    ensures Owned(RecordChunk(s, key, index)) && Later(s, RecordChunk(s, key, index))
  {
    if key in s.current {
      var id := s.current[key];
      var t := s.(pool := s.pool[id := s.pool[id].(received := s.pool[id].received + {index})]);
      KeepsEnded(s, t);
      StartOwned(t, id);
    }
  }

  lemma CleanupOwned(s: State)
    requires Owned(s)
    ensures Owned(Cleanup(s)) && Later(s, Cleanup(s))
  {
    KeepsEnded(s, Cleanup(s));
  }

  lemma GotoOwned(s: State, m: nat, phase: Phase)
    requires Owned(s) && m < |s.merges|
    ensures Owned(Goto(s, m, phase)) && Later(s, Goto(s, m, phase))
  {
    KeepsEnded(s, Goto(s, m, phase));
  }

  lemma CheckOwned(h: Bytes -> int, s: State, m: nat, bytes: Bytes)
    requires Owned(s) && m < |s.merges| && s.merges[m].id < |s.pool|
    ensures Owned(CheckMerge(h, s, m, bytes)) && Later(s, CheckMerge(h, s, m, bytes))
  {
    var id, d := s.merges[m].id, s.pool[s.merges[m].id];
    GotoOwned(s, m, Failed);
    KeepsEnded(s, Goto(s, m, Staged(bytes)).(pool := s.pool[id := d.(hash := Some(h(bytes)))]));
  }

  lemma CommitOwned(s: State, m: nat, bytes: Bytes, replaced: bool)
    requires Owned(s) && m < |s.merges| && s.merges[m].id < |s.pool|
    ensures Owned(CommitMerge(s, m, bytes, replaced)) && Later(s, CommitMerge(s, m, bytes, replaced))
  {
    var id, t := s.merges[m].id, CommitMerge(s, m, bytes, replaced);
    GotoOwned(s, m, Over);
    GotoOwned(s, m, Failed);
    if IsCurrent(s, id) && !s.pool[id].cancelled && replaced {
      assert Gone(t, id) && id !in s.ended;
      assert Later(s, t);
    }
  }

  lemma StepOwned(h: Bytes -> int, s: State, l: Label)
    requires Owned(s) && Enabled(s, l)
    ensures Owned(Apply(h, s, l)) && Later(s, Apply(h, s, l))
  {
    hide Owned, Later, Abort, RecordChunk, CheckMerge, CommitMerge, Enter, Cleanup, Announce;
    match l
    case Refused => FrameOwned(s, s.announced + 1, s.asking, s.pages + [s.announced]);
    case Expect(path, hash, size) => ExpectOwned(s, path, hash, size);
    case Retarget(id, hash, size) => RetargetOwned(s, id, hash, size);
    case RequestSent(p) => FrameOwned(s, s.announced, s.asking - {p}, s.pages);
    case RequestFailed(p) => FailOwned(s, p);
    case Announced(path, sessionId, totalChunks, hash, size) =>
      AnnounceOwned(s, path, sessionId, totalChunks, hash, size);
    case Empty(id) => StartOwned(s, id); SameLater(s);
    case ChunkStored(key, index) => RecordOwned(s, key, index);
    case Aborted(key) => AbortOwned(s, key);
    case PageDone(id) => PageOwned(s, id);
    case TimedOut => CleanupOwned(s);
    case MergeRead(m, bytes) => GotoOwned(s, m, Assembled(bytes));
    case MergeFails(m) =>
      GotoOwned(s, m, Over);
      AbortOwned(Goto(s, m, Over), s.pool[s.merges[m].id].key);
      LaterTrans(s, Goto(s, m, Over), Apply(h, s, l));
    case MergeCheck(m) => CheckOwned(h, s, m, s.merges[m].phase.bytes);
    case MergeCommit(m, replaced) => CommitOwned(s, m, s.merges[m].phase.bytes, replaced);
  }

  lemma SameLater(s: State)
    ensures Later(s, s)
  {
  }

  lemma LaterTrans(s: State, t: State, u: State)
    requires Later(s, t) && Later(t, u)
    ensures Later(s, u)
  {
  }

  lemma ExpectOwned(s: State, path: string, hash: Option<int>, size: int)
    requires Owned(s)
    ensures var t := Expecting(s, path, hash, size); Owned(t) && Later(s, t)
  {
    var t := Enter(s, TempKey(path), 0, hash, size, Some(s.announced));
    EnterOwned(s, TempKey(path), 0, hash, size, Some(s.announced));
    FrameOwned(t, s.announced + 1, s.asking[s.announced := Ask(|s.pool|, true)], t.pages);
    LaterTrans(s, t, Expecting(s, path, hash, size));
  }

  lemma RetargetOwned(s: State, id: nat, hash: Option<int>, size: int)
    requires Owned(s) && id < |s.pool|
    ensures var t := Retargeted(s, id, hash, size); Owned(t) && Later(s, t)
  {
    KeepsEnded(s, Retargeted(s, id, hash, size));
  }

  lemma FailOwned(s: State, p: nat)
    requires Owned(s) && p in s.asking
    ensures Owned(FailRequest(s, p)) && Later(s, FailRequest(s, p))
  {
    KeepsEnded(s, FailRequest(s, p));
  }

  lemma PageOwned(s: State, id: nat)
    requires Owned(s) && id < |s.pool|
    ensures Owned(CompletePage(s, id)) && Later(s, CompletePage(s, id))
  {
    KeepsEnded(s, CompletePage(s, id));
  }

  lemma AnnounceOwned(s: State, path: string, sessionId: string, totalChunks: int, hash: Option<int>, size: int)
    requires Owned(s)
    ensures var t := Announce(s, path, sessionId, totalChunks, hash, size); Owned(t) && Later(s, t)
  {
    var u := Announce(s, path, sessionId, totalChunks, hash, size);
    var page := u.pool[|s.pool|].page;
    EnterOwned(s, sessionId, totalChunks, hash, size, page);
    var t := Enter(s, sessionId, totalChunks, hash, size, page);
    RemoveOwned(t, TempKey(path));
    LaterTrans(s, t, t.(current := t.current - {TempKey(path)}));
  }

  lemma {:induction false} RunOwned(h: Bytes -> int, ls: seq<Label>)
    requires IsRun(h, ls)
    ensures Owned(After(h, ls))
  {
    if ls != [] {
      hide Apply, Owned, Enabled;
      RunOwned(h, ls[..|ls| - 1]);
      StepOwned(h, After(h, ls[..|ls| - 1]), ls[|ls| - 1]);
    } else {
      assert Owned(INITIAL);
    }
  }

  // ----- Commit safety ---------------------------------------------------------------------------------

  /** Each session replaces its destination at most once and ends at most once, over any run, however
      many merges were started for it. */
  lemma {:induction false} AtMostOnce(h: Bytes -> int, ls: seq<Label>)
    requires IsRun(h, ls)
    ensures var s := After(h, ls);
      && (forall i, j | 0 <= i < j < |s.commits| :: s.commits[i].id != s.commits[j].id)
      && (forall i, j | 0 <= i < j < |s.ended| :: s.ended[i] != s.ended[j])
      && (forall i | 0 <= i < |s.commits| :: s.commits[i].id in s.ended)
  {
    RunOwned(h, ls);
  }

  /** Only one step replaces a file, and only for the current, uncancelled session under its id, with
      bytes that are past the checks. */
  lemma CommitNeedsGuard(h: Bytes -> int, s: State, l: Label)
    requires Enabled(s, l) && Apply(h, s, l).commits != s.commits
    ensures l.MergeCommit? && s.merges[l.m].phase.Staged?
    ensures var id := s.merges[l.m].id;
      && IsCurrent(s, id) && !s.pool[id].cancelled
      && Apply(h, s, l).commits == s.commits + [Commit(id, s.merges[l.m].phase.bytes)]
  {
    hide Cancelled;
  }

  ghost predicate Committed(s: State, id: nat) { exists i :: 0 <= i < |s.commits| && s.commits[i].id == id }

  /** A session that was aborted, timed out or superseded before it committed never commits. */
  lemma {:induction false} NeverAgain(h: Bytes -> int, ls: seq<Label>, n: nat, id: nat)
    requires IsRun(h, ls) && n <= |ls| && Gone(After(h, ls[..n]), id)
    ensures Gone(After(h, ls), id) && (Committed(After(h, ls), id) <==> Committed(After(h, ls[..n]), id))
  {
    if n == |ls| {
      assert ls[..n] == ls;
    } else {
      var m := |ls| - 1;
      var s, t := After(h, ls[..m]), After(h, ls);
      assert ls[..m][..n] == ls[..n];
      NeverAgain(h, ls[..m], n, id);
      RunOwned(h, ls[..m]);
      StepOwned(h, s, ls[m]);
      if t.commits != s.commits {
        CommitNeedsGuard(h, s, ls[m]);
        hide Apply, Enabled, Owned;
        assert Committed(s, id) ==> Committed(t, id) by {
          assert forall i | 0 <= i < |s.commits| :: t.commits[i] == s.commits[i];
        }
      }
    }
  }

  /** Cancelled sessions are gone, and entering a session under a taken key makes the old one gone. */
  lemma {:induction false} CancelledIsGone(h: Bytes -> int, ls: seq<Label>, id: nat)
    requires IsRun(h, ls) && id < |After(h, ls).pool|
    ensures After(h, ls).pool[id].cancelled ==> Gone(After(h, ls), id)
  {
    RunOwned(h, ls);
  }

  lemma SupersededIsGone(s: State, id: nat, path: string, totalChunks: int, hash: Option<int>, size: int)
    requires Owned(s) && IsCurrent(s, id)
    ensures Gone(Announce(s, path, s.pool[id].key, totalChunks, hash, size), id)
  {
  }

  // ----- The checks --------------------------------------------------------------------------------------

  /** A second announcement only changes what a merge has not begun to look at. */
  ghost predicate Fixed(s: State, l: Label) { l.Retarget? ==> l.id < |s.pool| && !s.pool[l.id].merging }

  ghost predicate FixedRun(h: Bytes -> int, ls: seq<Label>) {
    forall k | 0 <= k < |ls| :: Fixed(After(h, ls[..k]), ls[k])
  }

  predicate Passed(h: Bytes -> int, d: Download, bytes: Bytes) {
    |bytes| == d.size && d.hash == Some(h(bytes)) && d.merging
  }

  ghost predicate Checked(h: Bytes -> int, s: State) {
    && (forall m | 0 <= m < |s.merges| :: MergeChecked(h, s, s.merges[m]))
    && (forall i | 0 <= i < |s.commits| ::
          s.commits[i].id < |s.pool| && Passed(h, s.pool[s.commits[i].id], s.commits[i].bytes))
  }

  predicate MergeChecked(h: Bytes -> int, s: State, merge: Merge) {
    && merge.id < |s.pool| && s.pool[merge.id].merging
    && (merge.phase.Staged? ==> Passed(h, s.pool[merge.id], merge.phase.bytes))
  }

  /** Objects under merge keep their size, and their hash once they have one. */
  ghost predicate Kept(s: State, t: State) {
    && |t.pool| >= |s.pool|
    && forall i | 0 <= i < |s.pool| && s.pool[i].merging ::
         && t.pool[i].merging && t.pool[i].size == s.pool[i].size
         && (s.pool[i].hash.Some? ==> t.pool[i].hash == s.pool[i].hash)
  }

  lemma KeptChecked(h: Bytes -> int, s: State, t: State)
    requires Checked(h, s) && Kept(s, t) && t.commits == s.commits
    requires forall m | 0 <= m < |t.merges| ::
      (m < |s.merges| && t.merges[m] == s.merges[m]) || MergeChecked(h, t, t.merges[m])
    ensures Checked(h, t)
  {
    forall m | 0 <= m < |t.merges| ensures MergeChecked(h, t, t.merges[m]) {
      assert m < |s.merges| ==> MergeChecked(h, s, s.merges[m]);
    }
  }

  lemma StepKept(h: Bytes -> int, s: State, l: Label)
    requires Enabled(s, l) && Fixed(s, l)
    ensures Kept(s, Apply(h, s, l))
  {
    match l
    case TimedOut => assert Kept(s, Cleanup(s));
    case MergeCheck(m) => CheckKept(h, s, m, s.merges[m].phase.bytes);
    case _ =>
  }

  lemma CheckKept(h: Bytes -> int, s: State, m: nat, bytes: Bytes)
    requires m < |s.merges| && s.merges[m].id < |s.pool|
    ensures Kept(s, CheckMerge(h, s, m, bytes))
  {
  }

  /** What is new or has moved on is checked. */
  lemma MergesChecked(h: Bytes -> int, s: State, l: Label)
    requires Checked(h, s) && Enabled(s, l)
    ensures var t := Apply(h, s, l);
      forall m | 0 <= m < |t.merges| ::
        (m < |s.merges| && t.merges[m] == s.merges[m]) || MergeChecked(h, t, t.merges[m])
  {
    hide Cancelled, TempKey;
  }

  lemma StepChecked(h: Bytes -> int, s: State, l: Label)
    requires Checked(h, s) && Enabled(s, l) && Fixed(s, l)
    ensures Checked(h, Apply(h, s, l))
  {
    var t := Apply(h, s, l);
    MergesChecked(h, s, l);
    StepKept(h, s, l);
    if t.commits != s.commits {
      CommitNeedsGuard(h, s, l);
      assert MergeChecked(h, s, s.merges[l.m]);
      hide Apply, Kept;
      KeptChecked(h, s, t.(commits := s.commits));
    } else {
      hide Apply, Kept, MergeChecked;
      KeptChecked(h, s, t);
    }
  }

  lemma {:induction false} RunChecked(h: Bytes -> int, ls: seq<Label>)
    requires IsRun(h, ls) && FixedRun(h, ls)
    ensures Checked(h, After(h, ls))
  {
    if ls != [] {
      var n := |ls| - 1;
      forall k | 0 <= k < n ensures Fixed(After(h, ls[..n][..k]), ls[..n][k]) {
        assert ls[..n][..k] == ls[..k] && Fixed(After(h, ls[..k]), ls[k]);
      }
      assert Fixed(After(h, ls[..n]), ls[n]);
      RunChecked(h, ls[..n]);
      hide Checked, Fixed, Apply, Enabled;
      StepChecked(h, After(h, ls[..n]), ls[n]);
    } else {
      assert Checked(h, INITIAL);
    }
  }

  /** Whatever is committed has the size and the hash of its session. */
  lemma {:induction false} CommitsPassedChecks(h: Bytes -> int, ls: seq<Label>, i: nat)
    requires IsRun(h, ls) && FixedRun(h, ls) && i < |After(h, ls).commits|
    ensures var s := After(h, ls); var c := s.commits[i];
      c.id < |s.pool| && |c.bytes| == s.pool[c.id].size && s.pool[c.id].hash == Some(h(c.bytes))
  {
    RunChecked(h, ls);
  }

  // ----- What the server said --------------------------------------------------------------------------

  /** Step `j` makes the object or changes what it is checked against. */
  ghost predicate TellsAt(h: Bytes -> int, ls: seq<Label>, j: nat, id: nat) {
    j < |ls| && Tells(After(h, ls[..j]), ls[j], id)
  }

  predicate Tells(s: State, l: Label, id: nat) {
    (l.Retarget? && l.id == id) || ((l.Announced? || l.Expect?) && id == |s.pool|)
  }

  ghost predicate LastTold(h: Bytes -> int, ls: seq<Label>, j: nat, id: nat) {
    TellsAt(h, ls, j, id) && forall m: nat | j < m < |ls| :: !TellsAt(h, ls, m, id)
  }

  /** The object still has what the label said; a hash may have come in where the label had none. */
  predicate AsTold(d: Download, l: Label) {
    && (l.Retarget? || l.Announced? || l.Expect?)
    && d.size == l.size && (l.hash.Some? ==> d.hash == l.hash)
    && (l.Expect? ==> IsTemp(d.key) && d.totalChunks == 0)
    && (l.Announced? ==> d.key == l.sessionId && d.totalChunks == l.totalChunks)
  }

  /** Only sessions are merged: a temporary entry has no chunks to wait for. */
  ghost predicate SessionsMerge(s: State) {
    forall i | 0 <= i < |s.pool| && s.pool[i].merging :: !(IsTemp(s.pool[i].key) && s.pool[i].totalChunks == 0)
  }

  lemma StepSessions(h: Bytes -> int, s: State, l: Label)
    requires Enabled(s, l) && SessionsMerge(s)
    ensures SessionsMerge(Apply(h, s, l))
  {
    hide IsTemp;
    if l.ChunkStored? && l.key in s.current && s.current[l.key] < |s.pool| {
      assert l.index in s.pool[s.current[l.key]].received + {l.index};
    }
  }

  lemma {:induction false} RunSessions(h: Bytes -> int, ls: seq<Label>)
    requires IsRun(h, ls)
    ensures SessionsMerge(After(h, ls))
  {
    hide Apply, Enabled, SessionsMerge;
    if ls == [] {
      assert SessionsMerge(INITIAL) by { NoSessions(); }
    } else {
      RunSessions(h, ls[..|ls| - 1]);
      StepSessions(h, After(h, ls[..|ls| - 1]), ls[|ls| - 1]);
    }
  }

  lemma NoSessions()
    ensures SessionsMerge(INITIAL)
  {
  }

  lemma ToldNow(h: Bytes -> int, s: State, l: Label, id: nat)
    requires Enabled(s, l) && Tells(s, l, id) && id < |Apply(h, s, l).pool|
    ensures AsTold(Apply(h, s, l).pool[id], l)
  {
  }

  lemma ToldStill(h: Bytes -> int, s: State, l: Label, id: nat, told: Label)
    requires Enabled(s, l) && !Tells(s, l, id) && id < |Apply(h, s, l).pool|
    requires id < |s.pool| ==> AsTold(s.pool[id], told)
    ensures id < |s.pool| && AsTold(Apply(h, s, l).pool[id], told)
  {
  }

  /** Every object has what the last label about it said. */
  lemma {:induction false} RunTold(h: Bytes -> int, ls: seq<Label>, id: nat) returns (j: nat)
    requires IsRun(h, ls) && id < |After(h, ls).pool|
    ensures LastTold(h, ls, j, id) && AsTold(After(h, ls).pool[id], ls[j])
  {
    hide Apply, Enabled, Tells, AsTold;
    var n := |ls| - 1;
    var s := After(h, ls[..n]);
    if Tells(s, ls[n], id) {
      j := n;
      ToldNow(h, s, ls[n], id);
    } else {
      PoolGrows(h, s, ls[n], id);
      j := RunTold(h, ls[..n], id);
      ToldStill(h, s, ls[n], id, ls[j]);
      forall m: nat | m < |ls| ensures m < n ==> (TellsAt(h, ls, m, id) <==> TellsAt(h, ls[..n], m, id)) {
        assert m < n ==> ls[..n][..m] == ls[..m];
      }
    }
  }

  lemma PoolGrows(h: Bytes -> int, s: State, l: Label, id: nat)
    requires Enabled(s, l) && !Tells(s, l, id) && id < |Apply(h, s, l).pool|
    ensures id < |s.pool|
  {
  }

  lemma {:induction false} OneLast(h: Bytes -> int, ls: seq<Label>, id: nat, i: nat, j: nat)
    requires LastTold(h, ls, i, id) && LastTold(h, ls, j, id)
    ensures i == j
  {
  }

  /** What is committed is what the server announced: the last label that spoke of the session, an announcement
      of its chunks or a second announcement of its file, gave this size, and this hash if it gave one. */
  lemma {:induction false} CommitsAsTold(h: Bytes -> int, ls: seq<Label>, i: nat, j: nat)
    requires IsRun(h, ls) && FixedRun(h, ls) && i < |After(h, ls).commits|
    requires LastTold(h, ls, j, After(h, ls).commits[i].id)
    ensures var bytes := After(h, ls).commits[i].bytes;
      && (ls[j].Retarget? || ls[j].Announced?)
      && |bytes| == ls[j].size && (ls[j].hash.Some? ==> ls[j].hash.value == h(bytes))
  {
    CommitsPassedChecks(h, ls, i);
    RunChecked(h, ls);
    RunSessions(h, ls);
    var id := After(h, ls).commits[i].id;
    var k := RunTold(h, ls, id);
    OneLast(h, ls, id, j, k);
  }
}
