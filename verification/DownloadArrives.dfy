/** From the frames of a file to its commit: `handleFileBinaryChunk` and `mergeDownloadSession` in a row
    (`internal/sync/file_sync.go`). */
module DownloadArrives {
  import opened ByteTypes
  import opened ChunkTransfer
  import opened Downloads
  import opened Options

  /** The frames of the session under `key` are handled one by one, those of `order` in this order. */
  ghost function Handled(s: State, key: string, order: seq<nat>): State {
    if order == [] then s else HandleChunk(Handled(s, key, order[..|order| - 1]), key, order[|order| - 1])
  }

  /** A live session for the content that has not received anything yet. */
  ghost predicate Awaiting(s: State, key: string, sessionId: Bytes, totalChunks: nat) {
    && key in s.current && s.current[key] < |s.pool| && s.pool[s.current[key]].key == key
    && Mirrors(s.pool[s.current[key]], Opened(sessionId, totalChunks))
  }

  /** `t` differs from `s` in the bookkeeping of the object `id`, which is that of `session`. */
  ghost predicate Tracks(s: State, id: nat, t: State, session: Session)
    requires id < |s.pool|
  {
    && |t.pool| == |s.pool| && Mirrors(t.pool[id], session)
    && t.pool[id] == s.pool[id].(received := session.received, merging := session.merging, cancelled := session.aborted)
    && t == s.(pool := t.pool, merges := s.merges + seq(session.merges, _ => Merge(id, Reading)))
  }

  lemma {:induction false} HandledTracks(
    s: State, key: string, content: Bytes, chunkSize: nat, sessionId: Bytes, order: seq<nat>)
    requires Sendable(content, chunkSize, sessionId) && Indices(order, TotalChunks(|content|, chunkSize))
    requires Awaiting(s, key, sessionId, TotalChunks(|content|, chunkSize))
    ensures Tracks(s, s.current[key], Handled(s, key, order), Delivered(content, chunkSize, sessionId, order))
  {
    hide TotalChunks, ChunkAt, ReceiveFrame, SentFrame;
    var total := TotalChunks(|content|, chunkSize);
    if order != [] {
      var n := |order| - 1;
      var before := Delivered(content, chunkSize, sessionId, order[..n]);
      HandledTracks(s, key, content, chunkSize, sessionId, order[..n]);
      ReceiveAnyOrder(content, chunkSize, sessionId, order[..n]);
      FrameAccepted(before, content, chunkSize, sessionId, order[n]);
      TrackNext(s, key, Handled(s, key, order[..n]), before, order[n], ChunkAt(content, chunkSize, order[n]));
    }
  }

  lemma TrackNext(s: State, key: string, t: State, session: Session, index: nat, data: Bytes)
    requires key in s.current && s.current[key] < |s.pool| && Tracks(s, s.current[key], t, session)
    requires !session.aborted && index < session.totalChunks < UINT32
    ensures Tracks(s, s.current[key], HandleChunk(t, key, index), Accept(session, index, data))
  {
    assert session.totalChunks % UINT32 == session.totalChunks;
  }

  /** Reading, checking and replacing without an interruption. */
  ghost function MergedThrough(h: Bytes -> int, s: State, m: nat, bytes: Bytes): State
    requires m < |s.merges| && s.merges[m].id < |s.pool|
  {
    var t := CheckMerge(h, Goto(s, m, Assembled(bytes)), m, bytes);
    if t.merges[m].phase.Staged? then CommitMerge(t, m, bytes, true) else t
  }

  /** End to end: the frames of a file, in any order and with any duplicates, start a merge once they are
      all there, and it commits the original bytes if and only if size and hash of the session are theirs;
      nothing is committed otherwise. */
  lemma {:induction false} FileArrives(
    h: Bytes -> int, s: State, key: string, content: Bytes, chunkSize: nat, sessionId: Bytes, order: seq<nat>)
    requires Sendable(content, chunkSize, sessionId) && Indices(order, TotalChunks(|content|, chunkSize))
    requires Awaiting(s, key, sessionId, TotalChunks(|content|, chunkSize))
    requires forall i: nat | i < TotalChunks(|content|, chunkSize) :: i in order
    ensures
      var id, m, t := s.current[key], |s.merges|, Handled(s, key, order);
      var read := Merged(Delivered(content, chunkSize, sessionId, order).files, TotalChunks(|content|, chunkSize));
      var d := s.pool[id];
      && |t.pool| == |s.pool| && t.merges == s.merges + [Merge(id, Reading)] && read.Some?
      && MergedThrough(h, t, m, read.value).commits ==
           (if |content| == d.size && (d.hash.None? || d.hash.value == h(content))
            then s.commits + [Commit(id, content)] else s.commits)
  {
    hide TotalChunks, Delivered, Indices, Handled;
    HandledTracks(s, key, content, chunkSize, sessionId, order);
    TransferRoundTrip(content, chunkSize, sessionId, order);
    var session := Delivered(content, chunkSize, sessionId, order);
    assert seq(session.merges, _ => Merge(s.current[key], Reading)) == [Merge(s.current[key], Reading)];
  }
}
