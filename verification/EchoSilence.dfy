/** What suppression is for: bytes that came from the server are not sent back to it. */
module EchoSilence {
  import opened Options
  import opened EchoStore
  import opened EchoRuns

  // ----- One callback ------------------------------------------------------------------------------

  /** The content is hashed: its size fits, or none is known, or a write in flight has a preceding version. */
  predicate Hashed(rec: Rec, size: int) { rec.size == 0 || rec.size == size || (rec.inFlight && rec.prevHash.Some?) }

  /** A callback that nothing disturbs while a write with a hash is on record. The recorded bytes are
      recognised, whether the write is still in flight or settled. Of a write in flight, the preceding bytes
      leave the flag, and other bytes are sent; over a settled one, other bytes take the record away. */
  lemma CallbackVerdict(h: seq<int> -> int, s: State, id: nat)
    requires s.echo.marker.Some? && s.echo.rec.Some? && s.echo.rec.value.hasSnap && s.echo.rec.value.hash.Some?
    requires s.disk.present && id < |s.threads| && s.threads[id].phase.Start?
    ensures
      var t := StepThread(h, StepThread(h, StepThread(h, StepThread(h, s, id), id), id), id);
      var rec, got := s.echo.rec.value, Some(h(s.disk.bytes));
      if Hashed(rec, |s.disk.bytes|) && got == rec.hash then
        t == Goto(s, id, Returning).(matched := s.matched + {s.disk.version})
      else if !rec.inFlight then t == Goto(s, id, Aborting(rec.token))
      else if got == rec.prevHash then
        t == Goto(s, id, Returning).(echo := s.echo.(rec := Some(rec.(recheck := true))))
      else t == Goto(s, id, Reading)
  {
    var rec := s.echo.rec.value;
    var n, got := |s.disk.bytes|, h(s.disk.bytes);
    var s1 := Goto(s, id, Snapped(rec));
    var s2 := Goto(s, id, Sized(rec, n));
    var s3 := Goto(s, id, Checked(rec, Same(rec, n, got), Ambiguous(rec, n, got), s.disk.version));
    assert StepThread(h, s, id) == s1;
    assert StepThread(h, s1, id) == s2;
    assert StepThread(h, s2, id) == s3;
  }

  /** A callback that finds no file is not taken for an echo: it goes on to the send, which does nothing unless the
      file is back by then. */
  lemma MissingGoesOn(h: seq<int> -> int, s: State, id: nat)
    requires s.echo.marker.Some? && s.echo.rec.Some? && s.echo.rec.value.hasSnap && s.echo.rec.value.hash.Some?
    requires !s.disk.present && id < |s.threads| && s.threads[id].phase.Start?
    ensures StepThread(h, StepThread(h, s, id), id) == Goto(s, id, Reading)
    ensures StepThread(h, Goto(s, id, Reading), id) == Goto(s, id, Returning)
  {
    assert StepThread(h, s, id) == Goto(s, id, Snapped(s.echo.rec.value));
  }

  /** A callback that comes late, when the next remote write has begun over the settled one, and still finds
      the preceding bytes: nothing is sent, and the new record is flagged so that the path is looked at again. */
  lemma LateEchoDeferred(h: seq<int> -> int, s: State, id: nat, settled: Echo, hash: Option<int>, size: int, now: int)
    requires settled.rec.Some? && settled.rec.value.hasSnap && settled.rec.value.hash == Some(h(s.disk.bytes))
    requires s.echo == Begin(settled, hash, size, now) && hash.Some? && hash != Some(h(s.disk.bytes))
    requires s.disk.present && id < |s.threads| && s.threads[id].phase.Start?
    ensures var t := StepThread(h, StepThread(h, StepThread(h, StepThread(h, s, id), id), id), id);
      t == Goto(s, id, Returning).(echo := s.echo.(rec := Some(s.echo.rec.value.(recheck := true))))
  {
    CallbackVerdict(h, s, id);
  }

  // ----- Whole runs ----------------------------------------------------------------------------------

  /** Remote writes of a path that go well: they come with the hash and the size of their bytes, nobody else
      touches the file or its evidence, no record expires, and callbacks come after changes. */
  predicate Undisturbed(h: seq<int> -> int, s: State, l: Label) {
    match l
    case BeginOp(kind, bytes, hash, size, _) =>
      (kind.Modify? || kind.Merge?) && hash == Some(h(bytes)) && size == |bytes|
    case Replace(_) => true
    case Verify(_) => true
    case FinishOp(token, _, size) => token in s.ops && size == s.ops[token].size
    case Commit(token, _, size, _) => token in s.ops && size == s.ops[token].size
    case OtherPath => true
    case Callback => s.pending
    case ThreadStep(_) => true
    case _ => false
  }

  ghost predicate RemoteRun(h: seq<int> -> int, ls: seq<Label>) {
    forall k | 0 <= k < |ls| :: Undisturbed(h, After(h, ls[..k]), ls[k])
  }

  predicate IsOnDisk(h: seq<int> -> int, rec: Rec, disk: Disk) {
    disk.present && rec.hash == Some(h(disk.bytes)) && rec.size == |disk.bytes|
  }

  /** What the record says about the disk; a write in flight has not replaced the preceding bytes yet, or has. */
  predicate RecordTells(h: seq<int> -> int, s: State) {
    if s.echo.rec.None? then s.ops == map[] && !s.disk.present
    else
      var rec := s.echo.rec.value;
      && s.echo.marker.Some? && rec.hasSnap && rec.hash.Some? && rec.token <= s.echo.serial
      && if !rec.inFlight then s.ops == map[] && s.lock.None? && IsOnDisk(h, rec, s.disk)
         else
           && s.ops.Keys == {rec.token} && s.lock == Some(rec.token)
           && OpTells(h, rec, s.ops[rec.token], s.disk)
  }

  predicate OpTells(h: seq<int> -> int, rec: Rec, op: Op, disk: Disk) {
    && (op.kind.Modify? || op.kind.Merge?)
    && rec.hash == op.hash == Some(h(op.bytes)) && rec.size == op.size == |op.bytes|
    && if op.phase.Begun? then disk.present ==> rec.prevHash == Some(h(disk.bytes))
       else op.phase != Diverged && IsOnDisk(h, rec, disk)
  }

  predicate CurrentMeta(e: Echo, meta: Rec) { Owns(e, meta.token) && e.rec.value.inFlight == meta.inFlight }

  /** A snapshot of the record that is still current differs from it in the flag at most; one that is not
      never becomes current again. */
  predicate MetaOK(e: Echo, meta: Rec) {
    && meta.token <= e.serial && (CurrentMeta(e, meta) ==> meta == e.rec.value.(recheck := meta.recheck))
    && (Owns(e, meta.token) && !meta.inFlight ==> !e.rec.value.inFlight)
  }

  /** A callback never gets to the point of sending. */
  predicate Silent(e: Echo, phase: Phase) {
    match phase
    case WaitLock => true
    case Start => true
    case Snapped(meta) => MetaOK(e, meta)
    case Sized(meta, n) => MetaOK(e, meta) && (CurrentMeta(e, meta) ==> Hashed(meta, n))
    case Checked(meta, same, ambiguous, _) => MetaOK(e, meta) && (CurrentMeta(e, meta) ==> same || ambiguous)
    case Returning => true
    case Over => true
    case _ => false
  }

  ghost predicate Quiet(h: seq<int> -> int, s: State) {
    && RecordTells(h, s) && s.attempted == {}
    && (!s.disk.present ==> !s.pending && s.threads == [])
    && forall i | 0 <= i < |s.threads| :: Silent(s.echo, s.threads[i].phase)
  }

  /** What was current and is so no longer stays behind. */
  lemma SilentStays(e: Echo, f: Echo, phase: Phase)
    requires Silent(e, phase) && f.serial >= e.serial
    requires forall meta: Rec | MetaOK(e, meta) && CurrentMeta(f, meta) ::
      CurrentMeta(e, meta) && f.rec.value == e.rec.value.(recheck := f.rec.value.recheck)
    requires f.rec.Some? ==>
      || f.rec.value.token > e.serial
      || (Owns(e, f.rec.value.token) && (f.rec.value.inFlight ==> e.rec.value.inFlight))
    ensures Silent(f, phase)
  {
  }

  lemma BeginQuiet(h: seq<int> -> int, s: State, l: Label)
    requires Quiet(h, s) && Enabled(s, l) && Undisturbed(h, s, l) && l.BeginOp?
    ensures Quiet(h, ApplyOp(h, s, l))
  {
    var t := ApplyOp(h, s, l);
    forall i | 0 <= i < |t.threads| ensures Silent(t.echo, t.threads[i].phase) {
      SilentStays(s.echo, t.echo, s.threads[i].phase);
    }
  }

  lemma WriteQuiet(h: seq<int> -> int, s: State, l: Label)
    requires Quiet(h, s) && Enabled(s, l) && (l.Replace? || l.Verify?)
    ensures Quiet(h, ApplyOp(h, s, l))
  {
  }

  lemma EndQuiet(h: seq<int> -> int, s: State, l: Label)
    requires Quiet(h, s) && Enabled(s, l) && Undisturbed(h, s, l) && (l.FinishOp? || l.Commit?)
    ensures Quiet(h, ApplyOp(h, s, l))
  {
    var t := ApplyOp(h, s, l);
    assert s.ops - {l.token} == map[];
    forall i | 0 <= i < |t.threads| ensures Silent(t.echo, t.threads[i].phase) {
      if i < |s.threads| {
        SilentStays(s.echo, t.echo, s.threads[i].phase);
      }
    }
  }

  /** The callback's own step. */
  lemma OwnSilent(h: seq<int> -> int, s: State, id: nat)
    requires Quiet(h, s) && Enabled(s, ThreadStep(id))
    ensures var t, next := StepThread(h, s, id), NextPhase(h, s, s.threads[id].phase);
      && Silent(s.echo, next) && t.threads == s.threads[id := s.threads[id].(phase := next)]
      && t.attempted == {} && (t.echo == s.echo || t.echo == Flag(s.echo))
      && t == s.(threads := t.threads, echo := t.echo, matched := t.matched, localRechecks := t.localRechecks)
  {
    assert Silent(s.echo, s.threads[id].phase);
  }

  lemma FlagSilent(e: Echo, phase: Phase)
    requires Silent(e, phase)
    ensures Silent(Flag(e), phase)
  {
  }

  lemma ThreadQuiet(h: seq<int> -> int, s: State, id: nat)
    requires Quiet(h, s) && Enabled(s, ThreadStep(id))
    ensures Quiet(h, StepThread(h, s, id))
  {
    var t := StepThread(h, s, id);
    OwnSilent(h, s, id);
    hide StepThread, NextPhase, Silent;
    forall i | 0 <= i < |t.threads| ensures Silent(t.echo, t.threads[i].phase) {
      FlagSilent(s.echo, t.threads[i].phase);
    }
  }

  lemma StepQuiet(h: seq<int> -> int, s: State, l: Label)
    requires Quiet(h, s) && Enabled(s, l) && Undisturbed(h, s, l)
    ensures Quiet(h, Apply(h, s, l))
  {
    if l.ThreadStep? {
      ThreadQuiet(h, s, l.id);
    } else if l.BeginOp? {
      BeginQuiet(h, s, l);
    } else if l.Replace? || l.Verify? {
      WriteQuiet(h, s, l);
    } else if l.FinishOp? || l.Commit? {
      EndQuiet(h, s, l);
    }
  }

  lemma {:induction false} RunQuiet(h: seq<int> -> int, ls: seq<Label>)
    requires IsRun(h, ls) && RemoteRun(h, ls)
    ensures Quiet(h, After(h, ls))
  {
    hide Apply, Enabled, Quiet, Undisturbed;
    if ls == [] {
      assert Quiet(h, INITIAL) by { InitialQuiet(h); }
    } else {
      var n := |ls| - 1;
      forall k | 0 <= k < n ensures Undisturbed(h, After(h, ls[..n][..k]), ls[..n][k]) {
        assert ls[..n][..k] == ls[..k];
      }
      RunQuiet(h, ls[..n]);
      StepQuiet(h, After(h, ls[..n]), ls[n]);
    }
  }

  lemma InitialQuiet(h: seq<int> -> int)
    ensures Quiet(h, INITIAL)
  {
  }

  /** Whatever the interleaving of remote writes and late callbacks, nothing is sent back. */
  lemma {:induction false} NoEchoSent(h: seq<int> -> int, ls: seq<Label>)
    requires IsRun(h, ls) && RemoteRun(h, ls)
    ensures After(h, ls).attempted == {}
  {
    RunQuiet(h, ls);
  }
}
