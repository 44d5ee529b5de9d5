/** That uploads resume (`internal/sync/file_sync.go`): the next attempt goes on after the last noted chunk, also
    after a crash, if the note was saved. */
module UploadCrashes {
  import opened ByteTypes
  import opened ChunkTransfer
  import opened UploadResume
  import opened Options

  // ----- Looking up a checkpoint ---------------------------------------------------------------------

  /** The checkpoint says that the chunks up to `k` of this upload are sent. */
  predicate Says(h: Bytes -> int, cps: Checkpoints, u: Attempt, k: nat) {
    u.pathHash in cps && cps[u.pathHash] == Checkpoint(u.sessionId, h(u.content), k)
  }

  predicate SameFile(u: Attempt, v: Attempt) {
    u.pathHash == v.pathHash && u.sessionId == v.sessionId && u.content == v.content && u.chunkSize == v.chunkSize
  }

  /** A new attempt goes on after a fresh checkpoint of the same upload that leaves a chunk to send; it rejects and
      then deletes any other one, and starts from the beginning. */
  lemma LookupExactly(h: Bytes -> int, s: State, a: nat, expired: bool)
    requires Enabled(s, Lookup(a, expired))
    ensures
      var u, next := s.attempts[a], Apply(h, s, Lookup(a, expired)).attempts[a].phase;
      && (u.pathHash !in s.checkpoints <==> next == Looping(0))
      && (forall k: nat | next == Looping(k + 1) :: !expired && Says(h, s.checkpoints, u, k) && k < Total(u) - 1)
      && (forall k: nat | !expired && Says(h, s.checkpoints, u, k) && k < Total(u) - 1 :: next == Looping(k + 1))
      && (next.Looping? || next == Rejected)
  {
  }

  lemma RejectedStartsOver(h: Bytes -> int, s: State, a: nat)
    requires Enabled(s, Reject(a))
    ensures var u, t := s.attempts[a], Apply(h, s, Reject(a));
      t.attempts[a].phase == Looping(0) && t.checkpoints == s.checkpoints - {u.pathHash}
  {
  }

  // ----- After a note -----------------------------------------------------------------------------------

  /** The step leaves the checkpoint of this file in memory alone. */
  predicate LeavesAlone(s: State, l: Label, pathHash: string) {
    match l
    case Note(a) => a < |s.attempts| && s.attempts[a].pathHash != pathHash
    case Reject(a) => a < |s.attempts| && s.attempts[a].pathHash != pathHash
    case Forget(p) => p != pathHash
    case Crash => false
    case _ => true
  }

  ghost predicate Untouched(h: Bytes -> int, ls: seq<Label>, from: nat, to: nat, pathHash: string) {
    forall m | from <= m < to <= |ls| :: LeavesAlone(After(h, ls[..m]), ls[m], pathHash)
  }

  lemma {:induction false} PrefixRun(h: Bytes -> int, ls: seq<Label>, n: nat)
    requires IsRun(h, ls) && n <= |ls|
    ensures IsRun(h, ls[..n])
  {
    assert ls[..|ls|] == ls;
    if n < |ls| {
      PrefixRun(h, ls[..|ls| - 1], n);
      assert ls[..|ls| - 1][..n] == ls[..n];
    }
  }

  lemma {:induction false} AfterNext(h: Bytes -> int, ls: seq<Label>, n: nat)
    requires IsRun(h, ls) && n < |ls|
    ensures Enabled(After(h, ls[..n]), ls[n]) && After(h, ls[..n + 1]) == Apply(h, After(h, ls[..n]), ls[n])
  {
    PrefixRun(h, ls, n + 1);
    assert ls[..n + 1][..n] == ls[..n];
  }

  lemma SaysStill(h: Bytes -> int, s: State, l: Label, u: Attempt, k: nat)
    requires Enabled(s, l) && LeavesAlone(s, l, u.pathHash) && Says(h, s.checkpoints, u, k)
    ensures Says(h, Apply(h, s, l).checkpoints, u, k)
  {
  }

  lemma {:induction false} SaysThrough(h: Bytes -> int, ls: seq<Label>, from: nat, to: nat, u: Attempt, k: nat)
    requires IsRun(h, ls) && from <= to <= |ls| && Untouched(h, ls, from, to, u.pathHash)
    requires Says(h, After(h, ls[..from]).checkpoints, u, k)
    ensures Says(h, After(h, ls[..to]).checkpoints, u, k)
  {
    hide IsRun, After, Apply, Enabled, LeavesAlone, Says;
    if from < to {
      SaysThrough(h, ls, from, to - 1, u, k);
      AfterNext(h, ls, to - 1);
      SaysStill(h, After(h, ls[..to - 1]), ls[to - 1], u, k);
    }
  }

  /** At step `n` the attempt `u` notes chunk `k`. */
  ghost predicate NotesAt(h: Bytes -> int, ls: seq<Label>, n: nat, u: Attempt, k: nat) {
    n < |ls| && ls[n].Note? && ls[n].a < |After(h, ls[..n]).attempts|
    && After(h, ls[..n]).attempts[ls[n].a] == u && u.phase == Noting(k)
  }

  lemma {:induction false} NoteSays(h: Bytes -> int, ls: seq<Label>, n: nat, u: Attempt, k: nat)
    requires IsRun(h, ls) && NotesAt(h, ls, n, u, k)
    ensures Says(h, After(h, ls[..n + 1]).checkpoints, u, k)
  {
    AfterNext(h, ls, n);
    hide IsRun, After;
  }

  /** The attempt `a` is about to note chunk `i`, or has done so. */
  ghost predicate NotedBy(h: Bytes -> int, ls: seq<Label>, a: nat, i: nat) {
    || In(After(h, ls), a, Noting(i))
    || exists m: nat :: m < |ls| && ls[m] == Note(a) && In(After(h, ls[..m]), a, Noting(i))
  }

  lemma SendStep(h: Bytes -> int, s: State, l: Label, w: Wire)
    requires Enabled(s, l) && w in Apply(h, s, l).sent && w !in s.sent
    requires w.attempt < |s.attempts|
    requires var u := s.attempts[w.attempt]; u.chunkSize > 0 && w.index < Total(u) - 1
    ensures In(Apply(h, s, l), w.attempt, Noting(w.index))
  {
  }

  /** Only noting leads out of `Noting`, unless the attempt ends, and an ended attempt stays so. */
  lemma NotingStep(h: Bytes -> int, s: State, l: Label, a: nat, i: nat)
    requires Enabled(s, l) && a < |s.attempts| && !In(Apply(h, s, l), a, Ended)
    ensures !In(s, a, Ended)
    ensures In(s, a, Noting(i)) ==> In(Apply(h, s, l), a, Noting(i)) || l == Note(a)
  {
  }

  /** Every chunk but the last is noted after it is sent: whoever has sent it is about to note it, has noted it, or
      has ended. */
  lemma {:induction false} SentIsNoted(h: Bytes -> int, ls: seq<Label>, w: Wire)
    requires IsRun(h, ls) && w in After(h, ls).sent
    requires w.attempt < |After(h, ls).attempts|
    requires var u := After(h, ls).attempts[w.attempt]; u.chunkSize > 0 && w.index < Total(u) - 1
    requires !In(After(h, ls), w.attempt, Ended)
    ensures NotedBy(h, ls, w.attempt, w.index)
  {
    hide Apply, Enabled, Good;
    var n := |ls| - 1;
    var s := After(h, ls[..n]);
    StepLater(h, s, ls[n]);
    RunGood(h, ls);
    RunGood(h, ls[..n]);
    SentExists(h, s, ls[n], w);
    if w !in s.sent {
      SendStep(h, s, ls[n], w);
    } else {
      NotingStep(h, s, ls[n], w.attempt, w.index);
      SentIsNoted(h, ls[..n], w);
      if m: nat :| m < n && ls[..n][m] == Note(w.attempt) && In(After(h, ls[..n][..m]), w.attempt, Noting(w.index)) {
        assert ls[..n][..m] == ls[..m];
      }
    }
  }

  /** What is sent is sent by an attempt that was there. */
  lemma SentExists(h: Bytes -> int, s: State, l: Label, w: Wire)
    requires Good(h, s) && Enabled(s, l) && w in Apply(h, s, l).sent
    ensures w.attempt < |s.attempts|
  {
    if w in s.sent {
      var k :| 0 <= k < |s.sent| && s.sent[k] == w;
      assert WireOK(s, s.sent[k]);
    }
  }

  /** If nothing has touched the checkpoint since chunk `k` was noted, a new attempt of the same upload goes on with
      chunk `k + 1`, unless the checkpoint has expired; then it is rejected. */
  lemma {:induction false} ResumesAfterNote(h: Bytes -> int, ls: seq<Label>, n: nat, u: Attempt, k: nat, a: nat)
    requires IsRun(h, ls) && NotesAt(h, ls, n, u, k) && Untouched(h, ls, n + 1, |ls|, u.pathHash)
    requires In(After(h, ls), a, Opening) && SameFile(After(h, ls).attempts[a], u)
    ensures Enabled(After(h, ls), Lookup(a, false)) && Enabled(After(h, ls), Lookup(a, true))
    ensures Apply(h, After(h, ls), Lookup(a, false)).attempts[a].phase == Looping(k + 1)
    ensures Apply(h, After(h, ls), Lookup(a, true)).attempts[a].phase == Rejected
  {
    hide IsRun, After;
    NoteSays(h, ls, n, u, k);
    NoteSizes(h, ls, n, u, k);
    SaysThrough(h, ls, n + 1, |ls|, u, k);
    assert ls[..|ls|] == ls;
    FreshResumes(h, After(h, ls), a, u, k);
  }

  lemma FreshResumes(h: Bytes -> int, s: State, a: nat, u: Attempt, k: nat)
    requires Says(h, s.checkpoints, u, k) && u.chunkSize > 0 && k < Total(u) - 1
    requires In(s, a, Opening) && SameFile(s.attempts[a], u)
    ensures Enabled(s, Lookup(a, false)) && Enabled(s, Lookup(a, true))
    ensures Apply(h, s, Lookup(a, false)).attempts[a].phase == Looping(k + 1)
    ensures Apply(h, s, Lookup(a, true)).attempts[a].phase == Rejected
  {
    LookupExactly(h, s, a, false);
    LookupExactly(h, s, a, true);
  }

  /** Nothing notes a chunk of this file, and there is no crash. */
  ghost predicate NothingNoted(h: Bytes -> int, ls: seq<Label>, from: nat, to: nat, pathHash: string) {
    forall m | from <= m < to <= |ls| :: Unnoted(After(h, ls[..m]), ls[m], pathHash)
  }

  predicate Unnoted(s: State, l: Label, pathHash: string) {
    !l.Crash? && (l.Note? ==> l.a < |s.attempts| && s.attempts[l.a].pathHash != pathHash)
  }

  lemma AbsentStill(h: Bytes -> int, s: State, l: Label, pathHash: string)
    requires Enabled(s, l) && Unnoted(s, l, pathHash) && pathHash !in s.checkpoints
    ensures pathHash !in Apply(h, s, l).checkpoints
  {
  }

  lemma {:induction false} AbsentThrough(h: Bytes -> int, ls: seq<Label>, n: nat, to: nat, pathHash: string)
    requires IsRun(h, ls) && n < to <= |ls| && ls[n] == Forget(pathHash) && NothingNoted(h, ls, n + 1, to, pathHash)
    ensures pathHash !in After(h, ls[..to]).checkpoints
  {
    hide IsRun, After, Enabled, Unnoted;
    AfterNext(h, ls, to - 1);
    if n < to - 1 {
      AbsentThrough(h, ls, n, to - 1, pathHash);
      hide Apply;
      AbsentStill(h, After(h, ls[..to - 1]), ls[to - 1], pathHash);
    }
  }

  /** After an acknowledgement, a cancellation or a time-out, and as long as no chunk has been noted since, an upload of
      the file starts from the beginning. */
  lemma {:induction false} ForgottenStartsOver(
    h: Bytes -> int, ls: seq<Label>, n: nat, a: nat, pathHash: string, expired: bool)
    requires IsRun(h, ls) && n < |ls| && ls[n] == Forget(pathHash) && NothingNoted(h, ls, n + 1, |ls|, pathHash)
    requires Enabled(After(h, ls), Lookup(a, expired)) && After(h, ls).attempts[a].pathHash == pathHash
    ensures Apply(h, After(h, ls), Lookup(a, expired)).attempts[a].phase == Looping(0)
  {
    AbsentThrough(h, ls, n, |ls|, pathHash);
    assert ls[..|ls|] == ls;
    hide IsRun, After;
    LookupExactly(h, After(h, ls), a, expired);
  }

  // ----- After a crash ----------------------------------------------------------------------------------

  /** No save ends, and there is no crash. */
  ghost predicate DiskUntouched(ls: seq<Label>, from: nat, to: nat) {
    forall m | from <= m < to <= |ls| :: !ls[m].SaveEnd? && !ls[m].Crash?
  }

  lemma {:induction false} SnapshotStays(h: Bytes -> int, ls: seq<Label>, from: nat, to: nat, j: nat)
    requires IsRun(h, ls) && from <= to <= |ls| && forall m | from <= m < to :: !ls[m].Crash?
    requires j < |After(h, ls[..from]).saves|
    ensures j < |After(h, ls[..to]).saves| && After(h, ls[..to]).saves[j] == After(h, ls[..from]).saves[j]
  {
    hide IsRun, After, Enabled;
    if from < to {
      SnapshotStays(h, ls, from, to - 1, j);
      AfterNext(h, ls, to - 1);
    }
  }

  lemma {:induction false} DiskStays(h: Bytes -> int, ls: seq<Label>, from: nat, to: nat)
    requires IsRun(h, ls) && from <= to <= |ls| && DiskUntouched(ls, from, to)
    ensures After(h, ls[..to]).disk == After(h, ls[..from]).disk
  {
    hide IsRun, After, Enabled;
    if from < to {
      DiskStays(h, ls, from, to - 1);
      AfterNext(h, ls, to - 1);
    }
  }

  /** The note at `n` is in the snapshot taken at `p`, which is written at `q` and is the last one written before
      the crash that ends the run. */
  ghost predicate SavedBeforeCrash(h: Bytes -> int, ls: seq<Label>, n: nat, p: nat, q: nat) {
    && n < p < q < |ls| - 1 && ls[p] == SaveStart && ls[q] == SaveEnd(|After(h, ls[..p]).saves|)
    && ls[|ls| - 1] == Crash && (forall m | p < m < q :: !ls[m].Crash?) && DiskUntouched(ls, q + 1, |ls| - 1)
  }

  lemma SaveSteps(h: Bytes -> int, s: State, k: nat)
    ensures Apply(h, s, SaveStart).saves == s.saves + [s.checkpoints]
    ensures k < |s.saves| ==> Enabled(s, SaveEnd(k)) && Apply(h, s, SaveEnd(k)).disk == s.saves[k]
    ensures Apply(h, s, Crash).checkpoints == s.disk
  {
  }

  lemma {:induction false} DiskAtCrash(h: Bytes -> int, ls: seq<Label>, n: nat, p: nat, q: nat)
    requires IsRun(h, ls) && SavedBeforeCrash(h, ls, n, p, q)
    ensures After(h, ls).checkpoints == After(h, ls[..p]).checkpoints
  {
    hide IsRun, After, Apply, Enabled;
    var c, j := |ls| - 1, |After(h, ls[..p]).saves|;
    AfterNext(h, ls, p);
    SaveSteps(h, After(h, ls[..p]), j);
    SnapshotStays(h, ls, p + 1, q, j);
    AfterNext(h, ls, q);
    SaveSteps(h, After(h, ls[..q]), j);
    DiskStays(h, ls, q + 1, c);
    AfterNext(h, ls, c);
    SaveSteps(h, After(h, ls[..c]), j);
    assert ls[..|ls|] == ls;
  }

  /** A note that was saved survives the crash: the checkpoints are those of the last snapshot written. */
  lemma {:induction false} CrashKeepsNote(
    h: Bytes -> int, ls: seq<Label>, n: nat, p: nat, q: nat, u: Attempt, k: nat)
    requires IsRun(h, ls) && NotesAt(h, ls, n, u, k) && Untouched(h, ls, n + 1, p, u.pathHash)
    requires SavedBeforeCrash(h, ls, n, p, q)
    ensures Says(h, After(h, ls).checkpoints, u, k)
  {
    hide IsRun, After, Untouched, Says;
    NoteSays(h, ls, n, u, k);
    SaysThrough(h, ls, n + 1, p, u, k);
    DiskAtCrash(h, ls, n, p, q);
  }

  /** So a new attempt of the same upload goes on after the noted chunk. */
  lemma {:induction false} ResumesAfterCrash(
    h: Bytes -> int, ls: seq<Label>, n: nat, p: nat, q: nat, u: Attempt, k: nat)
    requires IsRun(h, ls) && NotesAt(h, ls, n, u, k) && Untouched(h, ls, n + 1, p, u.pathHash)
    requires SavedBeforeCrash(h, ls, n, p, q)
    ensures ResumesAt(h, After(h, ls), u, k)
  {
    hide *;
    CrashKeepsNote(h, ls, n, p, q, u, k);
    NoteSizes(h, ls, n, u, k);
    BeginsAnew(h, After(h, ls), u, k);
  }

  /** A new attempt of the upload `u` starts with chunk `k + 1`. */
  predicate ResumesAt(h: Bytes -> int, s: State, u: Attempt, k: nat) {
    var l := Begin(u.pathHash, u.sessionId, u.content, u.chunkSize);
    Enabled(s, l) &&
    var t, a := Apply(h, s, l), |s.attempts|;
    Enabled(t, Lookup(a, false)) && Apply(h, t, Lookup(a, false)).attempts[a].phase == Looping(k + 1)
  }

  lemma {:induction false} NoteSizes(h: Bytes -> int, ls: seq<Label>, n: nat, u: Attempt, k: nat)
    requires IsRun(h, ls) && NotesAt(h, ls, n, u, k)
    ensures u.chunkSize > 0 && k < Total(u) - 1 && Total(u) < UINT32
  {
    PrefixRun(h, ls, n);
    RunGood(h, ls[..n]);
    assert AttemptOK(h, After(h, ls[..n]), ls[n].a);
    hide IsRun, After, Good;
  }

  lemma BeginsAnew(h: Bytes -> int, s: State, u: Attempt, k: nat)
    requires Says(h, s.checkpoints, u, k) && u.chunkSize > 0 && k < Total(u) - 1 && Total(u) < UINT32
    ensures ResumesAt(h, s, u, k)
  {
    var t := Apply(h, s, Begin(u.pathHash, u.sessionId, u.content, u.chunkSize));
    FreshResumes(h, t, |s.attempts|, u, k);
  }
}
