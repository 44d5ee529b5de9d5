/** Uploads that resume after crashes (`internal/sync/file_sync.go`): attempts, checkpoints, state saves that may
    overtake each other, cancellation, acknowledgement and restart in any interleaving. */
module UploadResume {
  import opened ByteTypes
  import opened ChunkTransfer
  import opened Options

  // ----- State ---------------------------------------------------------------------------------------

  datatype Checkpoint = Checkpoint(sessionId: Bytes, contentHash: int, last: int)

  type Checkpoints = map<string, Checkpoint>

  /** `Opening`: before `uploadStartChunk`; `Rejected`: its checkpoint does not fit and is about to be
      deleted; `Looping`: before chunk `next`; `Noting`: chunk `i` is sent, its checkpoint not written. */
  datatype Phase = Opening | Rejected | Looping(next: nat) | Noting(i: nat) | Finished | Ended

  datatype Attempt = Attempt(pathHash: string, sessionId: Bytes, content: Bytes, chunkSize: nat, phase: Phase)

  /** A chunk handed to the connection, with the attempt it came from. */
  datatype Wire = Wire(attempt: nat, index: nat, payload: Bytes)

  /** `disk` is the saved state, `saves` the snapshots that are being written. */
  datatype State = State(
    checkpoints: Checkpoints, disk: Checkpoints, saves: seq<Checkpoints>, attempts: seq<Attempt>, sent: seq<Wire>)

  const INITIAL: State := State(map[], map[], [], [], [])

  function Total(a: Attempt): nat
    requires a.chunkSize > 0
  {
    TotalChunks(|a.content|, a.chunkSize)
  }

  /** The test of `uploadStartChunk`; `expired` stands for the age check. */
  predicate Fits(cp: Checkpoint, sessionId: Bytes, contentHash: int, total: nat, expired: bool) {
    !expired && cp.sessionId == sessionId && cp.contentHash == contentHash && 0 <= cp.last < total - 1
  }

  // ----- Steps ---------------------------------------------------------------------------------------

  /** `Forget`: an acknowledgement, a cancellation or a time-out deletes the checkpoint. `GiveUp`: the
      attempt sees its cancellation or a failed send. */
  datatype Label =
    | Begin(pathHash: string, sessionId: Bytes, content: Bytes, chunkSize: nat)
    | Lookup(a: nat, expired: bool) | Reject(a: nat) | Send(a: nat) | Note(a: nat) | Finish(a: nat) | GiveUp(a: nat)
    | Forget(pathHash: string) | SaveStart | SaveEnd(k: nat) | Crash

  predicate In(s: State, a: nat, phase: Phase) { a < |s.attempts| && s.attempts[a].phase == phase }

  predicate Enabled(s: State, l: Label) {
    match l
    case Begin(_, _, content, chunkSize) => chunkSize > 0 && TotalChunks(|content|, chunkSize) < UINT32
    case Lookup(a, _) => In(s, a, Opening) && s.attempts[a].chunkSize > 0
    case Reject(a) => In(s, a, Rejected)
    case Send(a) =>
      && a < |s.attempts| && s.attempts[a].phase.Looping? && s.attempts[a].chunkSize > 0
      && s.attempts[a].phase.next < Total(s.attempts[a]) < UINT32 && |s.attempts[a].sessionId| == SESSION_ID_LENGTH
    case Note(a) => a < |s.attempts| && s.attempts[a].phase.Noting?
    case Finish(a) =>
      && a < |s.attempts| && s.attempts[a].phase.Looping? && s.attempts[a].chunkSize > 0
      && s.attempts[a].phase.next >= Total(s.attempts[a])
    case GiveUp(a) => a < |s.attempts| && !s.attempts[a].phase.Finished?
    case SaveEnd(k) => k < |s.saves|
    case _ => true
  }

  function Goto(s: State, a: nat, phase: Phase): State
    requires a < |s.attempts|
  {
    s.(attempts := s.attempts[a := s.attempts[a].(phase := phase)])
  }

  /** After chunk `i`: all chunks but the last leave a checkpoint. */
  function AfterSend(i: nat, total: nat): Phase { if i < total - 1 then Noting(i) else Looping(i + 1) }

  function Killed(attempts: seq<Attempt>): seq<Attempt> {
    seq(|attempts|, i requires 0 <= i < |attempts| =>
      if attempts[i].phase.Finished? then attempts[i] else attempts[i].(phase := Ended))
  }

  function Apply(h: Bytes -> int, s: State, l: Label): State
    requires Enabled(s, l)
  {
    match l
    case Begin(pathHash, sessionId, content, chunkSize) =>
      s.(attempts := s.attempts + [Attempt(pathHash, sessionId, content, chunkSize, Opening)])
    case Lookup(a, expired) =>
      var u := s.attempts[a];
      if u.pathHash !in s.checkpoints then Goto(s, a, Looping(0))
      else if Fits(s.checkpoints[u.pathHash], u.sessionId, h(u.content), Total(u), expired)
      then Goto(s, a, Looping(s.checkpoints[u.pathHash].last + 1))
      else Goto(s, a, Rejected)
    case Reject(a) => Goto(s, a, Looping(0)).(checkpoints := s.checkpoints - {s.attempts[a].pathHash})
    case Send(a) =>
      var u, i := s.attempts[a], s.attempts[a].phase.next;
      var payload := Payload(u.sessionId, i, ChunkAt(u.content, u.chunkSize, i));
      Goto(s, a, AfterSend(i, Total(u))).(sent := s.sent + [Wire(a, i, payload)])
    case Note(a) =>
      var u, i := s.attempts[a], s.attempts[a].phase.i;
      Goto(s, a, Looping(i + 1)).(checkpoints := s.checkpoints[u.pathHash := Checkpoint(u.sessionId, h(u.content), i)])
    case Finish(a) => Goto(s, a, Finished)
    case GiveUp(a) => Goto(s, a, Ended)
    case Forget(pathHash) => s.(checkpoints := s.checkpoints - {pathHash})
    case SaveStart => s.(saves := s.saves + [s.checkpoints])
    case SaveEnd(k) => s.(disk := s.saves[k])
    case Crash => s.(checkpoints := s.disk, saves := [], attempts := Killed(s.attempts))
  }

  ghost predicate IsRun(h: Bytes -> int, ls: seq<Label>) {
    ls == [] || (IsRun(h, ls[..|ls| - 1]) && Enabled(After(h, ls[..|ls| - 1]), ls[|ls| - 1]))
  }

  ghost function After(h: Bytes -> int, ls: seq<Label>): State {
    if ls == [] then INITIAL
    else
      var s := After(h, ls[..|ls| - 1]);
      if Enabled(s, ls[|ls| - 1]) then Apply(h, s, ls[|ls| - 1]) else s
  }

  // ----- Checkpoints are sound ----------------------------------------------------------------------

  /** The attempt uploads this content of this file in this session, as far as hashes tell. */
  predicate SameUpload(h: Bytes -> int, u: Attempt, pathHash: string, sessionId: Bytes, hash: int) {
    u.pathHash == pathHash && u.sessionId == sessionId && h(u.content) == hash
  }

  ghost predicate WasSent(h: Bytes -> int, s: State, pathHash: string, sessionId: Bytes, hash: int, index: nat) {
    exists k :: 0 <= k < |s.sent| && s.sent[k].index == index && s.sent[k].attempt < |s.attempts|
      && SameUpload(h, s.attempts[s.sent[k].attempt], pathHash, sessionId, hash)
  }

  ghost predicate SentBelow(h: Bytes -> int, s: State, pathHash: string, sessionId: Bytes, hash: int, n: int) {
    forall i: nat | i < n :: WasSent(h, s, pathHash, sessionId, hash, i)
  }

  ghost predicate Sound(h: Bytes -> int, s: State, cps: Checkpoints) {
    forall p | p in cps :: SentBelow(h, s, p, cps[p].sessionId, cps[p].contentHash, cps[p].last + 1)
  }

  /** Attempt `a` has sent the chunk of this index itself. */
  ghost predicate SentBy(s: State, a: nat, index: int) {
    exists k :: 0 <= k < |s.sent| && s.sent[k].index == index && s.sent[k].attempt == a
  }

  ghost predicate AttemptOK(h: Bytes -> int, s: State, a: nat)
    requires a < |s.attempts|
  {
    var u := s.attempts[a];
    u.chunkSize > 0 && Total(u) < UINT32 &&
    match u.phase
    case Looping(next) =>
      && next <= Total(u) && SentBelow(h, s, u.pathHash, u.sessionId, h(u.content), next)
      && (next == Total(u) ==> SentBy(s, a, Total(u) - 1))
    case Noting(i) => i < Total(u) - 1 && SentBelow(h, s, u.pathHash, u.sessionId, h(u.content), i + 1)
    case Finished => SentBelow(h, s, u.pathHash, u.sessionId, h(u.content), Total(u)) && SentBy(s, a, Total(u) - 1)
    case _ => true
  }

  /** The log holds what the attempts sent. */
  predicate WireOK(s: State, w: Wire) {
    w.attempt < |s.attempts| &&
    var u := s.attempts[w.attempt];
    && u.chunkSize > 0 && w.index < Total(u) < UINT32 && |u.sessionId| == SESSION_ID_LENGTH
    && w.payload == Payload(u.sessionId, w.index, ChunkAt(u.content, u.chunkSize, w.index))
  }

  ghost predicate Good(h: Bytes -> int, s: State) {
    && Sound(h, s, s.checkpoints) && Sound(h, s, s.disk) && (forall k | 0 <= k < |s.saves| :: Sound(h, s, s.saves[k]))
    && (forall a: nat | a < |s.attempts| :: AttemptOK(h, s, a))
    && (forall k | 0 <= k < |s.sent| :: WireOK(s, s.sent[k]))
  }

  /** Attempts keep what they upload and the log only grows, so what was sent stays sent. */
  ghost predicate Later(s: State, t: State) {
    && |s.attempts| <= |t.attempts| && s.sent <= t.sent
    && forall a | 0 <= a < |s.attempts| :: s.attempts[a].(phase := t.attempts[a].phase) == t.attempts[a]
  }

  lemma StepLater(h: Bytes -> int, s: State, l: Label)
    requires Enabled(s, l)
    ensures Later(s, Apply(h, s, l))
  {
  }

  lemma SentStays(h: Bytes -> int, s: State, t: State, pathHash: string, sessionId: Bytes, hash: int, n: int)
    requires Later(s, t) && SentBelow(h, s, pathHash, sessionId, hash, n)
    ensures SentBelow(h, t, pathHash, sessionId, hash, n)
  {
    forall i: nat | i < n ensures WasSent(h, t, pathHash, sessionId, hash, i) {
      assert WasSent(h, s, pathHash, sessionId, hash, i);
      var k :| 0 <= k < |s.sent| && s.sent[k].index == i && s.sent[k].attempt < |s.attempts|
        && SameUpload(h, s.attempts[s.sent[k].attempt], pathHash, sessionId, hash);
      assert t.sent[k] == s.sent[k];
    }
  }

  lemma SoundStays(h: Bytes -> int, s: State, t: State, cps: Checkpoints)
    requires Later(s, t) && Sound(h, s, cps)
    ensures Sound(h, t, cps)
  {
    forall p | p in cps ensures SentBelow(h, t, p, cps[p].sessionId, cps[p].contentHash, cps[p].last + 1) {
      SentStays(h, s, t, p, cps[p].sessionId, cps[p].contentHash, cps[p].last + 1);
    }
  }

  lemma SentByStays(s: State, t: State, a: nat, index: int)
    requires Later(s, t) && SentBy(s, a, index)
    ensures SentBy(t, a, index)
  {
    var k :| 0 <= k < |s.sent| && s.sent[k].index == index && s.sent[k].attempt == a;
    assert t.sent[k] == s.sent[k];
  }

  /** An attempt in the same phase, or cut off, is as good as before. */
  lemma AttemptStays(h: Bytes -> int, s: State, t: State, a: nat)
    requires Later(s, t) && a < |s.attempts| && AttemptOK(h, s, a)
    requires t.attempts[a].phase == s.attempts[a].phase || t.attempts[a].phase in {Ended, Rejected}
    ensures AttemptOK(h, t, a)
  {
    var u := s.attempts[a];
    if t.attempts[a].phase == u.phase {
      match u.phase
      case Looping(next) =>
        SentStays(h, s, t, u.pathHash, u.sessionId, h(u.content), next);
        if next == Total(u) {
          SentByStays(s, t, a, Total(u) - 1);
        }
      case Noting(i) => SentStays(h, s, t, u.pathHash, u.sessionId, h(u.content), i + 1);
      case Finished =>
        SentStays(h, s, t, u.pathHash, u.sessionId, h(u.content), Total(u));
        SentByStays(s, t, a, Total(u) - 1);
      case _ =>
    }
  }

  predicate Actor(l: Label, a: nat) {
    match l
    case Lookup(x, _) => x == a
    case Reject(x) => x == a
    case Send(x) => x == a
    case Note(x) => x == a
    case Finish(x) => x == a
    case _ => false
  }

  /** The attempt that takes the step. */
  lemma ActorGood(h: Bytes -> int, s: State, l: Label, a: nat)
    requires Good(h, s) && Enabled(s, l) && Actor(l, a)
    ensures a < |Apply(h, s, l).attempts| && AttemptOK(h, Apply(h, s, l), a)
  {
    var t, u := Apply(h, s, l), s.attempts[a];
    assert AttemptOK(h, s, a);
    StepLater(h, s, l);
    match l
    case Lookup(_, expired) =>
      if t.attempts[a].phase.Looping? {
        SentStays(h, s, t, u.pathHash, u.sessionId, h(u.content), t.attempts[a].phase.next);
      }
    case Send(_) => SendGood(h, s, a);
    case Note(_) => SentStays(h, s, t, u.pathHash, u.sessionId, h(u.content), u.phase.i + 1);
    case Finish(_) =>
      SentStays(h, s, t, u.pathHash, u.sessionId, h(u.content), Total(u));
      SentByStays(s, t, a, Total(u) - 1);
    case Reject(_) =>
  }

  lemma SendGood(h: Bytes -> int, s: State, a: nat)
    requires Good(h, s) && Enabled(s, Send(a))
    ensures AttemptOK(h, Apply(h, s, Send(a)), a)
    ensures forall w | w in Apply(h, s, Send(a)).sent :: WireOK(Apply(h, s, Send(a)), w)
  {
    var t, u := Apply(h, s, Send(a)), s.attempts[a];
    var i := u.phase.next;
    assert AttemptOK(h, s, a);
    StepLater(h, s, Send(a));
    SentStays(h, s, t, u.pathHash, u.sessionId, h(u.content), i);
    var last := t.sent[|s.sent|];
    assert last.index == i && last.attempt == a;
    assert WasSent(h, t, u.pathHash, u.sessionId, h(u.content), i);
    assert SentBy(t, a, i);
    forall w | w in t.sent ensures WireOK(t, w) {
      assert w in s.sent ==> WireOK(s, w);
    }
  }

  lemma StepGood(h: Bytes -> int, s: State, l: Label)
    requires Good(h, s) && Enabled(s, l)
    ensures Good(h, Apply(h, s, l))
  {
    var t := Apply(h, s, l);
    StepLater(h, s, l);
    CheckpointsGood(h, s, l);
    forall a: nat | a < |t.attempts| ensures AttemptOK(h, t, a) {
      if Actor(l, a) {
        ActorGood(h, s, l, a);
      } else if a < |s.attempts| {
        AttemptStays(h, s, t, a);
      }
    }
    if l.Send? {
      SendGood(h, s, l.a);
    } else {
      assert forall k | 0 <= k < |s.sent| :: WireOK(s, s.sent[k]);
    }
  }

  lemma CheckpointsGood(h: Bytes -> int, s: State, l: Label)
    requires Good(h, s) && Enabled(s, l)
    ensures var t := Apply(h, s, l);
      Sound(h, t, t.checkpoints) && Sound(h, t, t.disk) && forall k | 0 <= k < |t.saves| :: Sound(h, t, t.saves[k])
  {
    var t := Apply(h, s, l);
    StepLater(h, s, l);
    SoundStays(h, s, t, s.checkpoints);
    SoundStays(h, s, t, s.disk);
    forall k | 0 <= k < |s.saves| ensures Sound(h, t, s.saves[k]) {
      SoundStays(h, s, t, s.saves[k]);
    }
    if l.Note? {
      var u := s.attempts[l.a];
      assert AttemptOK(h, s, l.a);
      SentStays(h, s, t, u.pathHash, u.sessionId, h(u.content), u.phase.i + 1);
    }
  }

  lemma {:induction false} RunGood(h: Bytes -> int, ls: seq<Label>)
    requires IsRun(h, ls)
    ensures Good(h, After(h, ls))
  {
    if ls != [] {
      hide Good, Apply, Enabled;
      RunGood(h, ls[..|ls| - 1]);
      StepGood(h, After(h, ls[..|ls| - 1]), ls[|ls| - 1]);
    } else {
      assert Good(h, INITIAL);
    }
  }

  // ----- Main results ----------------------------------------------------------------------------------

  /** A checkpoint, in memory, on disk or on its way there, with last index `k` means that the chunks
      0 to `k` were sent in its session with its content hash, whatever crashes and saves came between. */
  lemma {:induction false} CheckpointMeansSent(h: Bytes -> int, ls: seq<Label>, pathHash: string)
    requires IsRun(h, ls)
    ensures var s := After(h, ls);
      forall cps: Checkpoints | cps == s.checkpoints || cps == s.disk || cps in s.saves ::
        pathHash in cps ==> forall i: nat | i <= cps[pathHash].last ::
          WasSent(h, s, pathHash, cps[pathHash].sessionId, cps[pathHash].contentHash, i)
  {
    RunGood(h, ls);
    var s := After(h, ls);
    forall cps: Checkpoints | cps == s.checkpoints || cps == s.disk || cps in s.saves ensures Sound(h, s, cps) {
    }
  }

  /** After any number of cut-off attempts, an attempt that finishes leaves every index sent, and it has
      sent the last one itself. */
  lemma {:induction false} FinishedMeansSent(h: Bytes -> int, ls: seq<Label>, a: nat)
    requires IsRun(h, ls) && In(After(h, ls), a, Finished) && After(h, ls).attempts[a].chunkSize > 0
    ensures var s := After(h, ls); var u := s.attempts[a];
      && (forall i: nat | i < Total(u) :: WasSent(h, s, u.pathHash, u.sessionId, h(u.content), i))
      && SentBy(s, a, Total(u) - 1)
  {
    RunGood(h, ls);
    assert AttemptOK(h, After(h, ls), a);
  }

  /** The session's content and chunk size are the same in all its attempts. */
  ghost predicate Unchanged(s: State, sessionId: Bytes, content: Bytes, chunkSize: nat) {
    forall a | 0 <= a < |s.attempts| && s.attempts[a].sessionId == sessionId ::
      s.attempts[a].content == content && s.attempts[a].chunkSize == chunkSize
  }

  /** The indices sent in the session, in the order they were sent. */
  function SentIndices(s: State, sent: seq<Wire>, sessionId: Bytes): seq<nat> {
    if sent == [] then []
    else
      var w := sent[|sent| - 1];
      var before := SentIndices(s, sent[..|sent| - 1], sessionId);
      if w.attempt < |s.attempts| && s.attempts[w.attempt].sessionId == sessionId then before + [w.index] else before
  }

  predicate IsSent(s: State, sent: seq<Wire>, sessionId: Bytes, index: nat, k: nat) {
    && k < |sent| && sent[k].index == index
    && sent[k].attempt < |s.attempts| && s.attempts[sent[k].attempt].sessionId == sessionId
  }

  lemma {:induction false} SentIndicesAre(s: State, sent: seq<Wire>, sessionId: Bytes)
    ensures forall i :: i in SentIndices(s, sent, sessionId) <==> exists k: nat :: IsSent(s, sent, sessionId, i, k)
  {
    if sent != [] {
      var n := |sent| - 1;
      SentIndicesAre(s, sent[..n], sessionId);
      forall i
        ensures i in SentIndices(s, sent, sessionId) <==> exists k: nat :: IsSent(s, sent, sessionId, i, k)
      {
        if k: nat :| IsSent(s, sent, sessionId, i, k) {
          assert k < n ==> IsSent(s, sent[..n], sessionId, i, k);
        }
        if k: nat :| IsSent(s, sent[..n], sessionId, i, k) {
          assert IsSent(s, sent, sessionId, i, k);
        }
        if sent[n].attempt < |s.attempts| && s.attempts[sent[n].attempt].sessionId == sessionId {
          assert IsSent(s, sent, sessionId, sent[n].index, n);
        }
      }
    }
  }

  lemma SentIs(h: Bytes -> int, s: State, u: Attempt, i: nat)
    requires WasSent(h, s, u.pathHash, u.sessionId, h(u.content), i)
    ensures exists k: nat :: IsSent(s, s.sent, u.sessionId, i, k)
  {
    var k :| 0 <= k < |s.sent| && s.sent[k].index == i && s.sent[k].attempt < |s.attempts|
      && SameUpload(h, s.attempts[s.sent[k].attempt], u.pathHash, u.sessionId, h(u.content));
    assert IsSent(s, s.sent, u.sessionId, i, k);
  }

  lemma SentFits(h: Bytes -> int, s: State, sessionId: Bytes, content: Bytes, chunkSize: nat, i: nat)
    requires Good(h, s) && chunkSize > 0 && Unchanged(s, sessionId, content, chunkSize)
    requires exists k: nat :: IsSent(s, s.sent, sessionId, i, k)
    ensures i < TotalChunks(|content|, chunkSize)
  {
    var k: nat :| IsSent(s, s.sent, sessionId, i, k);
    assert WireOK(s, s.sent[k]);
  }

  /** With unchanged content and chunk size, what a session has sent when one of its attempts finishes
      puts the original content together again at the receiver, whatever was sent twice. */
  lemma {:induction false} ResumedUploadArrives(h: Bytes -> int, ls: seq<Label>, a: nat, content: Bytes, chunkSize: nat)
    requires IsRun(h, ls) && In(After(h, ls), a, Finished)
    requires var s := After(h, ls);
      Sendable(content, chunkSize, s.attempts[a].sessionId) && Unchanged(s, s.attempts[a].sessionId, content, chunkSize)
    ensures var s := After(h, ls); var sessionId := s.attempts[a].sessionId;
      var order := SentIndices(s, s.sent, sessionId);
      && Indices(order, TotalChunks(|content|, chunkSize))
      && Delivered(content, chunkSize, sessionId, order).merges == 1
      && Merged(Delivered(content, chunkSize, sessionId, order).files, TotalChunks(|content|, chunkSize)) ==
           Some(content)
  {
    var s := After(h, ls);
    var u, n := s.attempts[a], TotalChunks(|content|, chunkSize);
    var order := SentIndices(s, s.sent, u.sessionId);
    RunGood(h, ls);
    FinishedMeansSent(h, ls, a);
    SentIndicesAre(s, s.sent, u.sessionId);
    hide After, IsRun, SentIndices, TotalChunks, Good, WasSent, IsSent, Delivered, Merged;
    forall i: nat | i < n ensures i in order {
      SentIs(h, s, u, i);
    }
    forall k | 0 <= k < |order| ensures order[k] < n {
      assert order[k] in order;
      SentFits(h, s, u.sessionId, content, chunkSize, order[k]);
    }
    TransferRoundTrip(content, chunkSize, u.sessionId, order);
  }

  // ----- The upload loop --------------------------------------------------------------------------

  /** The payloads of the chunks from `start` up to `stop`. */
  function Payloads(content: Bytes, chunkSize: nat, sessionId: Bytes, start: nat, stop: nat): seq<Bytes>
    requires Sendable(content, chunkSize, sessionId) && start <= stop <= TotalChunks(|content|, chunkSize)
  {
    if start == stop then []
    else Payloads(content, chunkSize, sessionId, start, stop - 1) + [Sent(content, chunkSize, sessionId, stop - 1)]
  }

  predicate Resumes(cps: Checkpoints, pathHash: string, sessionId: Bytes, hash: int, total: nat, expired: bool) {
    pathHash in cps && Fits(cps[pathHash], sessionId, hash, total, expired)
  }

  function StartOf(cps: Checkpoints, pathHash: string, sessionId: Bytes, hash: int, total: nat,
    expired: bool): (start: nat)
    requires total > 0
    ensures start < total
  {
    if Resumes(cps, pathHash, sessionId, hash, total, expired) then cps[pathHash].last + 1 else 0
  }

  /** The checkpoints after the chunks from `start` up to `stop` were sent. */
  function Noted(cps: Checkpoints, pathHash: string, sessionId: Bytes, hash: int, total: nat, start: nat,
    stop: nat): Checkpoints
  {
    var end := Min(stop, total - 1);
    if end > start then cps[pathHash := Checkpoint(sessionId, hash, end - 1)] else cps
  }

  /** What one attempt asks for. */
  datatype Job = Job(pathHash: string, sessionId: Bytes, content: Bytes, hash: int, chunkSize: nat) {
    ghost predicate Valid() { chunkSize > 0 && TotalChunks(|content|, chunkSize) < UINT32 }

    function Total(): nat
      requires chunkSize > 0
    {
      TotalChunks(|content|, chunkSize)
    }

    predicate Speakable() { |sessionId| == SESSION_ID_LENGTH }
  }

  /** The attempt that began with `before` and `kept` is ahead of chunk `i`. */
  ghost predicate Ahead(j: Job, start: nat, i: nat, before: seq<Bytes>, kept: Checkpoints, sent: seq<Bytes>,
    cps: Checkpoints)
    requires j.Valid() && start <= i <= j.Total()
  {
    && (j.Speakable() ==> sent == before + Payloads(j.content, j.chunkSize, j.sessionId, start, i))
    && (!j.Speakable() ==> sent == before && i == start)
    && cps == Noted(kept, j.pathHash, j.sessionId, j.hash, j.Total(), start, i)
  }

  lemma AheadStart(j: Job, start: nat, before: seq<Bytes>, kept: Checkpoints)
    requires j.Valid() && start <= j.Total()
    ensures Ahead(j, start, start, before, kept, before, kept)
  {
    assert j.Speakable() ==> Payloads(j.content, j.chunkSize, j.sessionId, start, start) == [];
  }

  lemma AheadNext(j: Job, start: nat, i: nat, before: seq<Bytes>, kept: Checkpoints, sent: seq<Bytes>, cps: Checkpoints)
    requires j.Valid() && j.Speakable() && start <= i < j.Total() && Ahead(j, start, i, before, kept, sent, cps)
    ensures Ahead(j, start, i + 1, before, kept, sent + [Sent(j.content, j.chunkSize, j.sessionId, i)],
                  if i < j.Total() - 1 then cps[j.pathHash := Checkpoint(j.sessionId, j.hash, i)] else cps)
  {
    hide Sent, TotalChunks;
    assert Payloads(j.content, j.chunkSize, j.sessionId, start, i + 1) ==
           Payloads(j.content, j.chunkSize, j.sessionId, start, i) + [Sent(j.content, j.chunkSize, j.sessionId, i)];
  }

  lemma NotedAhead(j: Job, start: nat, i: nat, before: seq<Bytes>, kept: Checkpoints, sent: seq<Bytes>,
    cps: Checkpoints)
    requires j.Valid() && start <= i <= j.Total() && Ahead(j, start, i, before, kept, sent, cps)
    ensures cps == Noted(kept, j.pathHash, j.sessionId, j.hash, j.Total(), start, i)
  {
  }

  // ----- Resumption ----------------------------------------------------------------------------------

  lemma {:induction false} PayloadsAre(j: Job, start: nat, stop: nat)
    requires j.Valid() && j.Speakable() && start <= stop <= j.Total()
    ensures var list := Payloads(j.content, j.chunkSize, j.sessionId, start, stop);
      && |list| == stop - start
      && forall i | 0 <= i < |list| ::
           list[i] == Payload(j.sessionId, start + i, ChunkAt(j.content, j.chunkSize, start + i))
  {
    hide TotalChunks, ChunkAt, Payload;
    if start < stop {
      PayloadsAre(j, start, stop - 1);
    }
  }

  lemma {:induction false} PayloadsJoin(j: Job, start: nat, middle: nat, stop: nat)
    requires j.Valid() && j.Speakable() && start <= middle <= stop <= j.Total()
    ensures Payloads(j.content, j.chunkSize, j.sessionId, start, middle)
          + Payloads(j.content, j.chunkSize, j.sessionId, middle, stop)
          == Payloads(j.content, j.chunkSize, j.sessionId, start, stop)
  {
    hide TotalChunks, Sent;
    if middle < stop {
      PayloadsJoin(j, start, middle, stop - 1);
    }
  }

  /** Where an attempt starts, what it keeps of the checkpoints it finds, and what it leaves behind when it is cut
      off by a failing send before chunk `stop`, as `RunFileUpload` promises. */
  ghost predicate CutOff(j: Job, found: Checkpoints, expired: bool, stop: nat, before: seq<Bytes>, sent: seq<Bytes>,
    cps: Checkpoints)
    requires j.Valid() && j.Speakable()
  {
    var start := StartOf(found, j.pathHash, j.sessionId, j.hash, j.Total(), expired);
    var kept := if start > 0 then found else found - {j.pathHash};
    start <= stop <= j.Total() && Ahead(j, start, stop, before, kept, sent, cps)
  }

  /** An attempt that comes after a cut-off one, while its checkpoint is fresh, goes on where that one stopped:
      the two together send each chunk once, in order. */
  lemma TwoAttempts(j: Job, found: Checkpoints, expired: bool, middle: nat, stop: nat,
    before: seq<Bytes>, sent: seq<Bytes>, cps: Checkpoints, sent': seq<Bytes>, cps': Checkpoints)
    requires j.Valid() && j.Speakable() && middle < j.Total()
    requires CutOff(j, found, expired, middle, before, sent, cps) && CutOff(j, cps, false, stop, sent, sent', cps')
    ensures StartOf(cps, j.pathHash, j.sessionId, j.hash, j.Total(), false) == middle
    ensures CutOff(j, found, expired, stop, before, sent', cps')
  {
    var start := StartOf(found, j.pathHash, j.sessionId, j.hash, j.Total(), expired);
    var kept := if start > 0 then found else found - {j.pathHash};
    GoesOn(j, found, expired, middle);
    PayloadsJoin(j, start, middle, stop);
    NotedTwice(j, kept, start, middle, stop);
    assert before + (Payloads(j.content, j.chunkSize, j.sessionId, start, middle)
                     + Payloads(j.content, j.chunkSize, j.sessionId, middle, stop)) == sent';
  }

  lemma GoesOn(j: Job, found: Checkpoints, expired: bool, middle: nat)
    requires j.Valid() && j.Speakable()
    requires StartOf(found, j.pathHash, j.sessionId, j.hash, j.Total(), expired) <= middle < j.Total()
    ensures
      var start := StartOf(found, j.pathHash, j.sessionId, j.hash, j.Total(), expired);
      var kept := if start > 0 then found else found - {j.pathHash};
      var cps := Noted(kept, j.pathHash, j.sessionId, j.hash, j.Total(), start, middle);
      StartOf(cps, j.pathHash, j.sessionId, j.hash, j.Total(), false) == middle
      && (middle == 0 ==> j.pathHash !in cps)
  {
    hide TotalChunks;
  }

  lemma NotedTwice(j: Job, kept: Checkpoints, start: nat, middle: nat, stop: nat)
    requires j.Valid() && start <= middle <= stop <= j.Total() && middle < j.Total()
    requires middle == 0 ==> j.pathHash !in kept
    ensures
      var cps := Noted(kept, j.pathHash, j.sessionId, j.hash, j.Total(), start, middle);
      var again := if middle > 0 then cps else cps - {j.pathHash};
      Noted(again, j.pathHash, j.sessionId, j.hash, j.Total(), middle, stop) ==
      Noted(kept, j.pathHash, j.sessionId, j.hash, j.Total(), start, stop)
  {
    hide TotalChunks;
  }

  class Uploader {
    var checkpoints: Checkpoints
    var sent: seq<Bytes>

    constructor (saved: Checkpoints)
      ensures checkpoints == saved && sent == []
    {
      checkpoints, sent := saved, [];
    }

    /** A fresh checkpoint of this session and content that leaves a chunk to send is resumed after; any other
        one is deleted, and the upload starts from the beginning. */
    method UploadStartChunk(pathHash: string, sessionId: Bytes, hash: int, total: nat, expired: bool)
      returns (start: nat)
      requires total > 0
      modifies `checkpoints
      ensures
        var was := old(checkpoints);
        if pathHash in was && !expired && was[pathHash].sessionId == sessionId && was[pathHash].contentHash == hash
           && 0 <= was[pathHash].last < total - 1
        then start == was[pathHash].last + 1 && checkpoints == was
        else start == 0 && checkpoints == was - {pathHash}
      ensures start == StartOf(old(checkpoints), pathHash, sessionId, hash, total, expired)
    {
      if pathHash !in checkpoints {
        return 0;
      }
      var cp := checkpoints[pathHash];
      if expired || cp.sessionId != sessionId || cp.contentHash != hash || cp.last < 0 || cp.last >= total - 1 {
        checkpoints := checkpoints - {pathHash};
        return 0;
      }
      return cp.last + 1;
    }

    method CountChunks(j: Job) returns (total: nat)
      requires j.Valid()
      ensures total == j.Total() > 0
    {
      total := if |j.content| > 0 then (|j.content| + j.chunkSize - 1) / j.chunkSize else 1;
    }

    method SendChunk(j: Job, i: nat) returns (ok: bool)
      requires j.Valid() && i < j.Total()
      modifies `sent
      ensures ok <==> j.Speakable()
      ensures sent == if ok then old(sent) + [Sent(j.content, j.chunkSize, j.sessionId, i)] else old(sent)
    {
      ChunkBounds(|j.content|, j.chunkSize, i);
      var from := i * j.chunkSize;
      var to := if from + j.chunkSize > |j.content| then |j.content| else from + j.chunkSize;
      var payload := EncodeFileBinaryPayload(j.sessionId, i, j.content[from..to]);
      ok := payload != null;
      if ok {
        sent := sent + [payload[..]];
      }
    }

    /** One attempt. `budget` is the number of chunks that go out before it is cut off, by a failing send or, if
        `cancelled`, by a cancellation, which also deletes the checkpoint. The attempt finishes exactly if the
        budget is enough, and then it has sent the last chunk. */
    method RunFileUpload(j: Job, expired: bool, budget: nat, cancelled: bool) returns (finished: bool)
      requires j.Valid()
      modifies this
      ensures
        var start := StartOf(old(checkpoints), j.pathHash, j.sessionId, j.hash, j.Total(), expired);
        var kept := if start > 0 then old(checkpoints) else old(checkpoints) - {j.pathHash};
        var stop := if j.Speakable() then Min(start + budget, j.Total()) else start;
        var noted := Noted(kept, j.pathHash, j.sessionId, j.hash, j.Total(), start, stop);
        && (finished <==> stop == j.Total())
        && Ahead(j, start, stop, old(sent), kept, sent, noted)
        && checkpoints == if cancelled && !finished && stop == start + budget then noted - {j.pathHash} else noted
    {
      hide TotalChunks, Ahead, Sent, Noted, StartOf;
      var total := CountChunks(j);
      var start := UploadStartChunk(j.pathHash, j.sessionId, j.hash, total, expired);
      AheadStart(j, start, sent, checkpoints);
      ghost var kept, before := checkpoints, sent;
      var i := start;
      while i < total
        invariant start <= i <= Min(start + budget, total) && (i > start ==> j.Speakable())
        invariant Ahead(j, start, i, before, kept, sent, checkpoints)
      {
        if i - start == budget {
          NotedAhead(j, start, i, before, kept, sent, checkpoints);
          if cancelled {
            checkpoints := checkpoints - {j.pathHash};
          }
          return false;
        }
        ghost var soFar := sent;
        var ok := SendChunk(j, i);
        if !ok {
          NotedAhead(j, start, i, before, kept, sent, checkpoints);
          return false;
        }
        AheadNext(j, start, i, before, kept, soFar, checkpoints);
        if i < total - 1 {
          checkpoints := checkpoints[j.pathHash := Checkpoint(j.sessionId, j.hash, i)];
        }
        i := i + 1;
      }
      NotedAhead(j, start, i, before, kept, sent, checkpoints);
      finished := true;
    }
  }
}
