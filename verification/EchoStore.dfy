/** The evidence that a change on disk came from the server: one tokened record and one marker per
    path (`internal/sync/runtime_helpers.go`, `internal/sync/local_events.go`). */
module EchoStore {
  import opened Options

  // ----- One path ----------------------------------------------------------------------------------

  /** A hash that is the empty string in the source is `None`. */
  datatype Rec = Rec(
    token: nat, inFlight: bool, hasSnap: bool, hash: Option<int>, prevHash: Option<int>, recheck: bool, size: int)

  /** `serial` is `echoSeq`; `marker` is the path's entry of `lastSyncMtime`, `rec` that of `echoWriteMeta`. */
  datatype Echo = Echo(serial: nat, marker: Option<int>, rec: Option<Rec>)

  predicate Owns(e: Echo, token: nat) { e.rec.Some? && e.rec.value.token == token }

  /** Ending the operation `token` starts a recheck. */
  predicate Spawns(e: Echo, token: nat) { Owns(e, token) && e.rec.value.recheck }

  function PrevHash(rec: Option<Rec>): Option<int> {
    if rec.Some? && rec.value.hasSnap then rec.value.hash else None
  }

  function Begin(e: Echo, hash: Option<int>, size: int, now: int): Echo {
    var recheck := e.rec.Some? && e.rec.value.recheck;
    Echo(e.serial + 1, Some(now), Some(Rec(e.serial + 1, true, hash.Some?, hash, PrevHash(e.rec), recheck, size)))
  }

  function Finish(e: Echo, token: nat, hash: Option<int>, mtime: int, size: int): Echo {
    if !Owns(e, token) then e
    else
      e.(marker := if mtime > 0 then Some(mtime) else e.marker,
         rec := Some(Rec(token, false, true, hash, None, false, size)))
  }

  /** `finishRemoteWriteBaseline` and the end of a download: the marker is set in any case. */
  function FinishMarked(e: Echo, token: nat, hash: Option<int>, mtime: int, size: int, msgMTime: int): Echo {
    Finish(e, token, hash, mtime, size).(marker := Some(msgMTime))
  }

  function Clear(e: Echo): Echo { e.(marker := None, rec := None) }

  function Abort(e: Echo, token: nat): Echo { if Owns(e, token) then Clear(e) else e }

  function Expire(e: Echo, token: nat): Echo {
    if Owns(e, token) && !e.rec.value.inFlight then Clear(e) else e
  }

  // ----- Judging a local change ----------------------------------------------------------------

  datatype Verdict = Echoed | NotEchoed | Check(meta: Rec)

  /** The first critical section of `isWriteEchoed`, for files; without a hash nothing is an echo. */
  function Snapshot(e: Echo): Verdict {
    if e.marker.None? then NotEchoed
    else if e.rec.None? then Echoed
    else if !e.rec.value.hasSnap || e.rec.value.hash.None? then NotEchoed
    else Check(e.rec.value)
  }

  /** A marker that has lost its record counts as an echo for ever. */
  predicate Stray(e: Echo) { e.marker.Some? && e.rec.None? }

  /** The content is hashed only if its size fits or it could be the preceding version. */
  predicate LooksAtContent(meta: Rec, size: int) {
    meta.size == 0 || size == meta.size || (meta.inFlight && meta.prevHash.Some?)
  }

  predicate Same(meta: Rec, size: int, got: int) { LooksAtContent(meta, size) && meta.hash == Some(got) }

  predicate Ambiguous(meta: Rec, size: int, got: int) {
    LooksAtContent(meta, size) && meta.hash != Some(got) && meta.inFlight && meta.prevHash == Some(got)
  }

  datatype Decision = Retry | Deferred | Skip | AbortAndSend | SendIt

  /** The second critical section of `isWriteEchoed`. */
  function Decide(e: Echo, meta: Rec, same: bool, ambiguous: bool): Decision {
    if !Owns(e, meta.token) || e.rec.value.inFlight != meta.inFlight then Retry
    else if ambiguous then Deferred
    else if same then Skip
    else if meta.inFlight then SendIt
    else AbortAndSend
  }

  function Flag(e: Echo): Echo {
    if e.rec.Some? then e.(rec := Some(e.rec.value.(recheck := true))) else e
  }

  // ----- Superseded operations ----------------------------------------------------------------------

  /** Whatever an operation that is no longer the newest does, the newer record stays as it is. */
  lemma StaleLeavesRecord(e: Echo, token: nat, hash: Option<int>, mtime: int, size: int, msgMTime: int)
    requires !Owns(e, token)
    ensures Finish(e, token, hash, mtime, size) == Abort(e, token) == Expire(e, token) == e
    ensures FinishMarked(e, token, hash, mtime, size, msgMTime).rec == e.rec && !Spawns(e, token)
  {
  }

  /** A timer, however late, changes the evidence exactly if the record is its own and settled. */
  lemma TimersSpareWritesInFlight(e: Echo, token: nat)
    ensures Expire(e, token) != e <==> Owns(e, token) && !e.rec.value.inFlight
    ensures e.rec.Some? && e.rec.value.inFlight ==> Expire(e, token) == e
  {
  }

  // ----- All paths -----------------------------------------------------------------------------------

  /** The service's maps; every method changes the entry of one path as specified above. */
  class Store {
    var echoSeq: nat
    var lastSyncMtime: map<string, int>
    var echoWriteMeta: map<string, Rec>
    var localRechecks: int
    /** The goroutines that `recheckLocalWriteLocked` has started. */
    var rechecks: seq<string>

    constructor ()
      ensures forall rel :: At(rel) == Echo(0, None, None)
      ensures localRechecks == 0 && rechecks == []
    {
      echoSeq, lastSyncMtime, echoWriteMeta, localRechecks, rechecks := 0, map[], map[], 0, [];
    }

    ghost function At(rel: string): Echo
      reads this
    {
      Echo(echoSeq,
           if rel in lastSyncMtime then Some(lastSyncMtime[rel]) else None,
           if rel in echoWriteMeta then Some(echoWriteMeta[rel]) else None)
    }

    twostate predicate OthersKept(rel: string)
      reads this
    {
      forall r :: r != rel ==> At(r).marker == old(At(r)).marker && At(r).rec == old(At(r)).rec
    }

    /** A recheck of `rel` is started exactly if `spawn`. */
    twostate predicate Rechecked(rel: string, spawn: bool)
      reads this
    {
      && rechecks == (if spawn then old(rechecks) + [rel] else old(rechecks))
      && localRechecks == (if spawn then old(localRechecks) + 1 else old(localRechecks))
    }

    method RecheckLocalWriteLocked(rel: string)
      modifies `localRechecks, `rechecks
      ensures Rechecked(rel, true)
    {
      localRechecks := localRechecks + 1;
      rechecks := rechecks + [rel];
    }

    method BeginRemoteWrite(rel: string, hash: Option<int>, size: int, now: int) returns (token: nat)
      modifies this
      ensures At(rel) == Begin(old(At(rel)), hash, size, now) && OthersKept(rel) && Rechecked(rel, false)
      ensures token == echoSeq && Owns(At(rel), token)
    {
      echoSeq := echoSeq + 1;
      token := echoSeq;
      var prevHash: Option<int>, recheck := None, false;
      if rel in echoWriteMeta {
        recheck := echoWriteMeta[rel].recheck;
        if echoWriteMeta[rel].hasSnap {
          prevHash := echoWriteMeta[rel].hash;
        }
      }
      lastSyncMtime := lastSyncMtime[rel := now];
      echoWriteMeta := echoWriteMeta[rel := Rec(token, true, hash.Some?, hash, prevHash, recheck, size)];
    }

    method FinishRemoteWriteLocked(rel: string, token: nat, hash: Option<int>, mtime: int, size: int)
      modifies this
      ensures At(rel) == Finish(old(At(rel)), token, hash, mtime, size)
      ensures OthersKept(rel) && Rechecked(rel, old(Spawns(At(rel), token)))
    {
      if rel !in echoWriteMeta || echoWriteMeta[rel].token != token {
        return;
      }
      var cur := echoWriteMeta[rel];
      if mtime > 0 {
        lastSyncMtime := lastSyncMtime[rel := mtime];
      }
      echoWriteMeta := echoWriteMeta[rel := Rec(token, false, true, hash, None, false, size)];
      if cur.recheck {
        RecheckLocalWriteLocked(rel);
      }
    }

    method FinishRemoteWriteBaseline(rel: string, token: nat, msgMTime: int, diskMTime: int, hash: Option<int>,
      size: int)
      modifies this
      ensures At(rel) == FinishMarked(old(At(rel)), token, hash, diskMTime, size, msgMTime)
      ensures OthersKept(rel) && Rechecked(rel, old(Spawns(At(rel), token)))
    {
      FinishRemoteWriteLocked(rel, token, hash, diskMTime, size);
      lastSyncMtime := lastSyncMtime[rel := msgMTime];
    }

    method ClearRemoteWriteLocked(rel: string)
      modifies this
      ensures At(rel) == Clear(old(At(rel))) && OthersKept(rel) && Rechecked(rel, false)
    {
      echoWriteMeta := echoWriteMeta - {rel};
      lastSyncMtime := lastSyncMtime - {rel};
    }

    method AbortRemoteWrite(rel: string, token: nat)
      modifies this
      ensures At(rel) == Abort(old(At(rel)), token)
      ensures OthersKept(rel) && Rechecked(rel, old(Spawns(At(rel), token)))
    {
      if rel in echoWriteMeta && echoWriteMeta[rel].token == token {
        var cur := echoWriteMeta[rel];
        ClearRemoteWriteLocked(rel);
        if cur.recheck {
          RecheckLocalWriteLocked(rel);
        }
      }
    }

    /** The callback of the timer that `startEchoWriteTimerLocked` starts. */
    method ExpireWrite(rel: string, token: nat)
      modifies this
      ensures At(rel) == Expire(old(At(rel)), token) && OthersKept(rel) && Rechecked(rel, false)
    {
      if rel in echoWriteMeta && echoWriteMeta[rel].token == token && !echoWriteMeta[rel].inFlight {
        ClearRemoteWriteLocked(rel);
      }
    }

    method DecideWrite(rel: string, meta: Rec, same: bool, ambiguous: bool) returns (d: Decision)
      modifies this
      ensures d == Decide(old(At(rel)), meta, same, ambiguous)
      ensures At(rel) == if d.Deferred? then Flag(old(At(rel))) else old(At(rel))
      ensures OthersKept(rel) && Rechecked(rel, false)
    {
      if rel !in echoWriteMeta || echoWriteMeta[rel].token != meta.token
        || echoWriteMeta[rel].inFlight != meta.inFlight
      {
        d := Retry;
      } else if ambiguous {
        echoWriteMeta := echoWriteMeta[rel := echoWriteMeta[rel].(recheck := true)];
        d := Deferred;
      } else if same {
        d := Skip;
      } else {
        d := if meta.inFlight then SendIt else AbortAndSend;
      }
    }
  }
}
