/** When the evidence is reliable, and how deferred callbacks survive. */
module EchoLaws {
  import opened Options
  import opened EchoStore
  import opened EchoRuns

  // ----- Stray markers --------------------------------------------------------------------------------

  predicate SetsMarkerAlways(l: Label) { l.Commit? || l.TouchEnd? }

  /** The step sets the marker although the record is gone. */
  predicate Strays(s: State, l: Label) { SetsMarkerAlways(l) && s.echo.rec.None? }

  predicate EndsStray(l: Label) { l.BeginOp? || l == Wiped }

  lemma StepStray(h: seq<int> -> int, s: State, l: Label)
    requires Enabled(s, l)
    ensures Stray(Apply(h, s, l).echo) <==> Strays(s, l) || (Stray(s.echo) && !EndsStray(l))
  {
    hide NextPhase, Spawns;
  }

  /** At step `k` a marker was set without a record, and nothing has replaced or cleared it since. */
  ghost predicate StraySince(h: seq<int> -> int, ls: seq<Label>, k: nat) {
    k < |ls| && Strays(After(h, ls[..k]), ls[k]) && forall j | k < j < |ls| :: !EndsStray(ls[j])
  }

  /** Which runs leave a stray marker: exactly those in which a step that sets it in any case found its
      record gone, with no new write and no clear of the path after that. */
  lemma {:induction false} StrayExactly(h: seq<int> -> int, ls: seq<Label>)
    requires IsRun(h, ls)
    ensures Stray(After(h, ls).echo) <==> exists k: nat :: StraySince(h, ls, k)
  {
    hide Apply, Enabled, Stray, Strays, EndsStray;
    if ls == [] {
      NoStray(h);
    } else {
      var n := |ls| - 1;
      StrayExactly(h, ls[..n]);
      StepStray(h, After(h, ls[..n]), ls[n]);
      SinceSnoc(h, ls);
    }
  }

  lemma {:induction false} NoStray(h: seq<int> -> int)
    ensures !Stray(After(h, []).echo)
  {
  }

  lemma {:induction false} SinceSnoc(h: seq<int> -> int, ls: seq<Label>)
    requires ls != []
    ensures var n := |ls| - 1;
      (exists k: nat :: StraySince(h, ls, k)) <==>
      Strays(After(h, ls[..n]), ls[n]) || ((exists k: nat :: StraySince(h, ls[..n], k)) && !EndsStray(ls[n]))
  {
    hide After, Strays, EndsStray;
    var n := |ls| - 1;
    forall k: nat | k < n ensures StraySince(h, ls, k) <==> StraySince(h, ls[..n], k) && !EndsStray(ls[n]) {
      assert ls[..n][..k] == ls[..k];
      if StraySince(h, ls[..n], k) && !EndsStray(ls[n]) {
        assert forall j | k < j < n :: ls[j] == ls[..n][j];
      }
      if StraySince(h, ls, k) {
        assert forall j | k < j < n :: ls[..n][j] == ls[j];
      }
    }
    assert StraySince(h, ls, n) <==> Strays(After(h, ls[..n]), ls[n]);
  }

  /** A callback about to look at a version on disk drops it, unseen, exactly if the marker is stray. */
  lemma SwallowedExactly(h: seq<int> -> int, s: State, id: nat)
    requires Enabled(s, ThreadStep(id)) && s.threads[id].phase.Start? && s.disk.present
    ensures var t := StepThread(h, s, id);
      && t.attempted == s.attempted && t.matched == s.matched
      && (WillReport(t.threads[id].phase, s.disk.version) <==> !Stray(s.echo))
  {
  }

  predicate Idle(s: State) { s.ops == map[] && forall i | 0 <= i < |s.threads| :: s.threads[i].phase.Over? }

  /** A local write of `bytes` after the run `ls`, with its callback running to the end. */
  ghost function Edited(h: seq<int> -> int, ls: seq<Label>, bytes: seq<int>): seq<Label> {
    var id := |After(h, ls).threads|;
    ls + [LocalWrite(bytes), Callback, ThreadStep(id), ThreadStep(id)]
  }

  /** The version on disk is a local one that nobody was told about and nobody recognised, and nothing is
      under way that could change that. */
  predicate Lost(s: State) { Quiescent(s) && s.disk.present && s.disk.local && !Settled(s) }

  lemma {:induction false} Extend(h: seq<int> -> int, ls: seq<Label>, l: Label, s: State)
    requires IsRun(h, ls) && After(h, ls) == s && Enabled(s, l)
    ensures IsRun(h, ls + [l]) && After(h, ls + [l]) == Apply(h, s, l)
  {
    assert (ls + [l])[..|ls|] == ls;
  }

  lemma {:induction false} Extend4(h: seq<int> -> int, ls: seq<Label>, a: Label, b: Label, c: Label, d: Label,
                                   s: State, t: State, u: State, v: State, w: State)
    requires IsRun(h, ls) && After(h, ls) == s && Enabled(s, a) && Apply(h, s, a) == t
    requires Enabled(t, b) && Apply(h, t, b) == u && Enabled(u, c) && Apply(h, u, c) == v
    requires Enabled(v, d) && Apply(h, v, d) == w
    ensures IsRun(h, ls + [a, b, c, d]) && After(h, ls + [a, b, c, d]) == w
  {
    hide IsRun, After, Enabled, Apply;
    Extend(h, ls, a, s);
    Extend(h, ls + [a], b, t);
    Extend(h, ls + [a] + [b], c, u);
    Extend(h, ls + [a] + [b] + [c], d, v);
    assert ls + [a] + [b] + [c] + [d] == ls + [a, b, c, d];
  }

  /** The states on the way. */
  ghost predicate LosingSteps(h: seq<int> -> int, s: State, bytes: seq<int>, t: State, u: State, v: State, w: State) {
    var id := |s.threads|;
    && Apply(h, s, LocalWrite(bytes)) == t && Apply(h, t, Callback) == u
    && Enabled(u, ThreadStep(id)) && Apply(h, u, ThreadStep(id)) == v
    && Enabled(v, ThreadStep(id)) && Apply(h, v, ThreadStep(id)) == w
  }

  lemma Losing(h: seq<int> -> int, s: State, bytes: seq<int>) returns (t: State, u: State, v: State, w: State)
    requires Idle(s) && Stray(s.echo) && VersionsOK(h, s)
    ensures LosingSteps(h, s, bytes, t, u, v, w)
    ensures Lost(w) && Idle(w) && Stray(w.echo) && w.disk.bytes == bytes && w.carried == s.carried
  {
    t := s.(disk := Disk(true, bytes, s.disk.version + 1, true), pending := true);
    u := t.(pending := false, threads := s.threads + [Thread(Start, false)]);
    v := u.(threads := s.threads + [Thread(Returning, false)]);
    w := u.(threads := s.threads + [Thread(Over, false)]);
    assert StepThread(h, u, |s.threads|).threads == v.threads;
    assert StepThread(h, v, |s.threads|).threads == w.threads;
  }

  /** From every idle state with a stray marker, every local edit is lost. */
  lemma {:induction false} StrayLosesEdits(h: seq<int> -> int, ls: seq<Label>, bytes: seq<int>)
    requires IsRun(h, ls) && Idle(After(h, ls)) && Stray(After(h, ls).echo)
    ensures IsRun(h, Edited(h, ls, bytes))
    ensures var s, t := After(h, ls), After(h, Edited(h, ls, bytes));
      Lost(t) && Idle(t) && Stray(t.echo) && t.disk.bytes == bytes && t.carried == s.carried
  {
    hide IsRun, After, Apply, Idle, Lost, Stray, RecordOK;
    var s := After(h, ls);
    RunGood(h, ls, false);
    var t, u, v, w := Losing(h, s, bytes);
    var id := |s.threads|;
    Extend4(h, ls, LocalWrite(bytes), Callback, ThreadStep(id), ThreadStep(id), s, t, u, v, w);
  }

  /** Such states are reached: a download of `a` is about to be committed; a rename brings `c` onto the path
      and its record expires; then the commit sets the marker. */
  function Overtaken(h: seq<int> -> int, a: seq<int>, c: seq<int>): seq<Label> {
    [BeginOp(Merge, a, Some(h(a)), |a|, 1), BeginOp(Landing, c, Some(h(c)), |c|, 2), Replace(2),
     FinishOp(2, 3, |c|), ExpireRecord(2), Commit(1, 4, |a|, 5)]
  }

  lemma {:induction false} StepAt(h: seq<int> -> int, ls: seq<Label>, n: nat, s: State, t: State)
    requires n < |ls| && IsRun(h, ls[..n]) && After(h, ls[..n]) == s && Enabled(s, ls[n]) && Apply(h, s, ls[n]) == t
    ensures IsRun(h, ls[..n + 1]) && After(h, ls[..n + 1]) == t
  {
    assert ls[..n + 1][..n] == ls[..n];
  }

  function Landed(h: seq<int> -> int, a: seq<int>, c: seq<int>): State {
    State(Echo(2, Some(2), Some(Rec(2, true, true, Some(h(c)), Some(h(a)), false, |c|))), Disk(true, c, 1, false),
          true, Some(1),
          map[1 := Op(Merge, Begun, a, Some(h(a)), |a|), 2 := Op(Landing, Written, c, Some(h(c)), |c|)], [], 0, {}, {},
          {h(a), h(c)})
  }

  lemma {:induction false} OvertakenLands(h: seq<int> -> int, a: seq<int>, c: seq<int>)
    ensures var ls := Overtaken(h, a, c); IsRun(h, ls[..3]) && After(h, ls[..3]) == Landed(h, a, c)
  {
    var ls := Overtaken(h, a, c);
    var merge, landing := Op(Merge, Begun, a, Some(h(a)), |a|), Op(Landing, Begun, c, Some(h(c)), |c|);
    var r1 := Rec(1, true, true, Some(h(a)), None, false, |a|);
    var s1 := INITIAL.(echo := Echo(1, Some(1), Some(r1)), lock := Some(1), ops := map[1 := merge], carried := {h(a)});
    var s2 := s1.(echo := Landed(h, a, c).echo, ops := map[1 := merge, 2 := landing], carried := {h(a), h(c)});
    assert ls[..0] == [];
    hide IsRun, After, StepThread, EndOp;
    assert INITIAL.carried + {h(a)} == {h(a)};
    StepAt(h, ls, 0, INITIAL, s1);
    StepAt(h, ls, 1, s1, s2);
    StepAt(h, ls, 2, s2, Landed(h, a, c));
  }

  lemma {:induction false} OvertakenStrays(h: seq<int> -> int, a: seq<int>, c: seq<int>)
    ensures var ls := Overtaken(h, a, c); var s := After(h, ls);
      IsRun(h, ls) && Idle(s) && Stray(s.echo) && s.carried == {h(a), h(c)}
  {
    hide IsRun, After, StepThread;
    var ls, s3 := Overtaken(h, a, c), Landed(h, a, c);
    OvertakenLands(h, a, c);
    var merge := Op(Merge, Begun, a, Some(h(a)), |a|);
    var s4 := s3.(
      echo := Echo(2, Some(3), Some(Rec(2, false, true, Some(h(c)), None, false, |c|))), ops := map[1 := merge]);
    var s5 := s4.(echo := Echo(2, None, None));
    var s6 := s5.(echo := Echo(2, Some(5), None), ops := map[], lock := None, disk := Disk(true, a, 2, false));
    assert s4.ops == s3.ops - {2} && s6.ops == s5.ops - {1};
    StepAt(h, ls, 3, s3, s4);
    StepAt(h, ls, 4, s4, s5);
    StepAt(h, ls, 5, s5, s6);
    assert ls[..6] == ls;
  }

  /** For every hash function, every download, rename and edit: the edit is lost, also if its hash is
      different from all that a remote write has carried. */
  lemma {:induction false} EditLost(h: seq<int> -> int, a: seq<int>, c: seq<int>, b: seq<int>)
    ensures var ls := Edited(h, Overtaken(h, a, c), b); var s := After(h, ls);
      IsRun(h, ls) && Lost(s) && s.disk.bytes == b && s.carried == {h(a), h(c)}
  {
    OvertakenStrays(h, a, c);
    StrayLosesEdits(h, Overtaken(h, a, c), b);
  }

  /** The other way to lose an edit: a clear while a callback is deferred. The write that was in flight ends
      without a recheck, which it would have started otherwise. */
  lemma WipeForgets(h: seq<int> -> int, s: State, token: nat)
    requires Flagged(s) && Owns(s.echo, token) && s.ops.Keys == {token} && Enabled(s, AbortOp(token))
    requires !s.pending && forall i | 0 <= i < |s.threads| :: s.threads[i].phase.Over?
    requires s.disk.present && s.disk.local && !Settled(s)
    ensures Lost(Apply(h, Apply(h, s, Wiped), AbortOp(token)))
    ensures !Lost(Apply(h, s, AbortOp(token)))
  {
    var t := Apply(h, s, AbortOp(token));
    assert t.threads[|s.threads|].phase.WaitLock?;
    assert s.ops - {token} == map[];
  }

  /** Such a state is reached: `a` was received, `b` is being received, and somebody writes `a` back; the
      callback finds the preceding bytes and is deferred, then a rename clears the path without its lock. */
  function Forgetting(h: seq<int> -> int, a: seq<int>, b: seq<int>): seq<Label> {
    [BeginOp(Modify, a, Some(h(a)), |a|, 1), Replace(1), Verify(1), FinishOp(1, 2, |a|),
     BeginOp(Modify, b, Some(h(b)), |b|, 3), Replace(2), LocalWrite(a), Verify(2), Callback,
     ThreadStep(0), ThreadStep(0), ThreadStep(0), ThreadStep(0), ThreadStep(0), Wiped, AbortOp(2)]
  }

  lemma ForgettingLabels(h: seq<int> -> int, a: seq<int>, b: seq<int>)
    ensures var ls := Forgetting(h, a, b);
      && |ls| == 16 && ls[0] == BeginOp(Modify, a, Some(h(a)), |a|, 1) && ls[1] == Replace(1) && ls[2] == Verify(1)
      && ls[3] == FinishOp(1, 2, |a|) && ls[4] == BeginOp(Modify, b, Some(h(b)), |b|, 3) && ls[5] == Replace(2)
      && ls[6] == LocalWrite(a) && ls[7] == Verify(2) && ls[8] == Callback && ls[14] == Wiped && ls[15] == AbortOp(2)
      && ls[9] == ls[10] == ls[11] == ls[12] == ls[13] == ThreadStep(0)
  {
  }

  /** After the first write. */
  function Received(h: seq<int> -> int, a: seq<int>): State {
    INITIAL.(echo := Echo(1, Some(2), Some(Rec(1, false, true, Some(h(a)), None, false, |a|))),
             disk := Disk(true, a, 1, false), pending := true, carried := {h(a)})
  }

  function Second(h: seq<int> -> int, a: seq<int>, b: seq<int>): Rec {
    Rec(2, true, true, Some(h(b)), Some(h(a)), false, |b|)
  }

  /** The callback of the local write, in the given phase. */
  function Judging(h: seq<int> -> int, a: seq<int>, b: seq<int>, phase: Phase): State {
    State(Echo(2, Some(3), Some(Second(h, a, b))), Disk(true, a, 3, true), false, Some(2),
          map[2 := Op(Modify, Diverged, b, Some(h(b)), |b|)], [Thread(phase, false)], 0, {}, {}, {h(a), h(b)})
  }

  /** Before and after the bytes of `a` are written, and after they are verified. */
  function Receiving(h: seq<int> -> int, a: seq<int>, phase: OpPhase): State {
    INITIAL.(echo := Echo(1, Some(1), Some(Rec(1, true, true, Some(h(a)), None, false, |a|))),
             disk := if phase.Begun? then INITIAL.disk else Disk(true, a, 1, false), pending := !phase.Begun?,
             lock := Some(1), ops := map[1 := Op(Modify, phase, a, Some(h(a)), |a|)], carried := {h(a)})
  }

  lemma {:induction false} ForgettingBegins(h: seq<int> -> int, a: seq<int>, b: seq<int>)
    ensures var ls := Forgetting(h, a, b); IsRun(h, ls[..2]) && After(h, ls[..2]) == Receiving(h, a, Written)
  {
    var ls := Forgetting(h, a, b);
    assert ls[..0] == [];
    hide Forgetting, IsRun, After, StepThread, EndOp;
    ForgettingLabels(h, a, b);
    assert INITIAL.carried + {h(a)} == {h(a)};
    StepAt(h, ls, 0, INITIAL, Receiving(h, a, Begun));
    StepAt(h, ls, 1, Receiving(h, a, Begun), Receiving(h, a, Written));
  }

  lemma {:induction false} ForgettingReceives(h: seq<int> -> int, a: seq<int>, b: seq<int>)
    ensures var ls := Forgetting(h, a, b); IsRun(h, ls[..4]) && After(h, ls[..4]) == Received(h, a)
  {
    var ls := Forgetting(h, a, b);
    hide Forgetting, IsRun, After, StepThread;
    ForgettingLabels(h, a, b);
    ForgettingBegins(h, a, b);
    assert Receiving(h, a, Verified).ops - {1} == map[];
    StepAt(h, ls, 2, Receiving(h, a, Written), Receiving(h, a, Verified));
    StepAt(h, ls, 3, Receiving(h, a, Verified), Received(h, a));
  }

  /** While `b` is on its way, with these bytes on disk. */
  function Replacing(h: seq<int> -> int, a: seq<int>, b: seq<int>, phase: OpPhase, disk: Disk): State {
    State(Echo(2, Some(3), Some(Second(h, a, b))), disk, true, Some(2),
          map[2 := Op(Modify, phase, b, Some(h(b)), |b|)], [], 0, {}, {}, {h(a), h(b)})
  }

  lemma ReplaceSteps(h: seq<int> -> int, a: seq<int>, b: seq<int>)
    ensures
      var l, s := BeginOp(Modify, b, Some(h(b)), |b|, 3), Received(h, a);
      var t, u := Replacing(h, a, b, Begun, s.disk), Replacing(h, a, b, Written, Disk(true, b, 2, false));
      Enabled(s, l) && Apply(h, s, l) == t && Enabled(t, Replace(2)) && Apply(h, t, Replace(2)) == u
  {
    assert Received(h, a).carried + {h(b)} == {h(a), h(b)};
  }

  lemma EditSteps(h: seq<int> -> int, a: seq<int>, b: seq<int>)
    requires h(a) != h(b)
    ensures
      var mine := Disk(true, a, 3, true);
      var s, t := Replacing(h, a, b, Written, Disk(true, b, 2, false)), Replacing(h, a, b, Written, mine);
      var u := Replacing(h, a, b, Diverged, mine);
      && Enabled(s, LocalWrite(a)) && Apply(h, s, LocalWrite(a)) == t
      && Enabled(t, Verify(2)) && Apply(h, t, Verify(2)) == u
      && Enabled(u, Callback) && Apply(h, u, Callback) == Judging(h, a, b, Start)
  {
  }

  lemma {:induction false} ForgettingReplaces(h: seq<int> -> int, a: seq<int>, b: seq<int>)
    ensures var ls := Forgetting(h, a, b);
      IsRun(h, ls[..6]) && After(h, ls[..6]) == Replacing(h, a, b, Written, Disk(true, b, 2, false))
  {
    var ls, s := Forgetting(h, a, b), Received(h, a);
    var t := Replacing(h, a, b, Begun, s.disk);
    hide Forgetting, IsRun, After, Apply, Enabled, Replacing, Received;
    ForgettingLabels(h, a, b);
    ForgettingReceives(h, a, b);
    ReplaceSteps(h, a, b);
    StepAt(h, ls, 4, s, t);
    StepAt(h, ls, 5, t, Replacing(h, a, b, Written, Disk(true, b, 2, false)));
  }

  lemma {:induction false} ForgettingCallsBack(h: seq<int> -> int, a: seq<int>, b: seq<int>)
    requires h(a) != h(b)
    ensures var ls := Forgetting(h, a, b); IsRun(h, ls[..9]) && After(h, ls[..9]) == Judging(h, a, b, Start)
  {
    var ls, mine := Forgetting(h, a, b), Disk(true, a, 3, true);
    var s, t := Replacing(h, a, b, Written, Disk(true, b, 2, false)), Replacing(h, a, b, Written, mine);
    var u := Replacing(h, a, b, Diverged, mine);
    hide Forgetting, IsRun, After, Apply, Enabled, Replacing, Judging;
    ForgettingLabels(h, a, b);
    ForgettingReplaces(h, a, b);
    EditSteps(h, a, b);
    StepAt(h, ls, 6, s, t);
    StepAt(h, ls, 7, t, u);
    StepAt(h, ls, 8, u, Judging(h, a, b, Start));
  }

  /** A callback's step that only changes its own phase. */
  lemma JudgeStep(h: seq<int> -> int, a: seq<int>, b: seq<int>, phase: Phase)
    requires phase.Start? || phase.Snapped? || phase.Sized?
    ensures Enabled(Judging(h, a, b, phase), ThreadStep(0))
    ensures Apply(h, Judging(h, a, b, phase), ThreadStep(0)) ==
            Judging(h, a, b, NextPhase(h, Judging(h, a, b, phase), phase))
  {
    hide NextPhase, ApplyOp;
  }

  lemma JudgePhases(h: seq<int> -> int, a: seq<int>, b: seq<int>)
    requires h(a) != h(b)
    ensures var meta := Second(h, a, b);
      && NextPhase(h, Judging(h, a, b, Start), Start) == Snapped(meta)
      && NextPhase(h, Judging(h, a, b, Snapped(meta)), Snapped(meta)) == Sized(meta, |a|)
      && NextPhase(h, Judging(h, a, b, Sized(meta, |a|)), Sized(meta, |a|)) == Checked(meta, false, true, 3)
  {
  }

  lemma {:induction false} ForgettingJudges(h: seq<int> -> int, a: seq<int>, b: seq<int>)
    requires h(a) != h(b)
    ensures var ls := Forgetting(h, a, b);
      IsRun(h, ls[..12]) && After(h, ls[..12]) == Judging(h, a, b, Checked(Second(h, a, b), false, true, 3))
  {
    var ls, meta := Forgetting(h, a, b), Second(h, a, b);
    hide Forgetting, IsRun, After, Apply, Enabled, NextPhase, Judging, Second;
    ForgettingLabels(h, a, b);
    ForgettingCallsBack(h, a, b);
    JudgePhases(h, a, b);
    JudgeStep(h, a, b, Start);
    JudgeStep(h, a, b, Snapped(meta));
    JudgeStep(h, a, b, Sized(meta, |a|));
    StepAt(h, ls, 9, Judging(h, a, b, Start), Judging(h, a, b, Snapped(meta)));
    StepAt(h, ls, 10, Judging(h, a, b, Snapped(meta)), Judging(h, a, b, Sized(meta, |a|)));
    StepAt(h, ls, 11, Judging(h, a, b, Sized(meta, |a|)), Judging(h, a, b, Checked(meta, false, true, 3)));
  }

  /** The callback has left its flag. */
  function Flagging(h: seq<int> -> int, a: seq<int>, b: seq<int>, phase: Phase): State {
    Judging(h, a, b, phase).(echo := Flag(Judging(h, a, b, phase).echo))
  }

  lemma DeferSteps(h: seq<int> -> int, a: seq<int>, b: seq<int>)
    ensures
      var s := Judging(h, a, b, Checked(Second(h, a, b), false, true, 3));
      var t, u := Flagging(h, a, b, Returning), Flagging(h, a, b, Over);
      && Enabled(s, ThreadStep(0)) && Apply(h, s, ThreadStep(0)) == t
      && Enabled(t, ThreadStep(0)) && Apply(h, t, ThreadStep(0)) == u
  {
    hide ApplyOp;
  }

  lemma {:induction false} ForgettingFlags(h: seq<int> -> int, a: seq<int>, b: seq<int>)
    requires h(a) != h(b)
    ensures var ls := Forgetting(h, a, b); IsRun(h, ls[..13]) && After(h, ls[..13]) == Flagging(h, a, b, Returning)
  {
    hide Forgetting, IsRun, After, Apply, Enabled, Flagging, Judging, Second;
    ForgettingLabels(h, a, b);
    ForgettingJudges(h, a, b);
    DeferSteps(h, a, b);
    var s := Judging(h, a, b, Checked(Second(h, a, b), false, true, 3));
    StepAt(h, Forgetting(h, a, b), 12, s, Flagging(h, a, b, Returning));
  }

  lemma {:induction false} ForgettingDefers(h: seq<int> -> int, a: seq<int>, b: seq<int>)
    requires h(a) != h(b)
    ensures var ls := Forgetting(h, a, b); IsRun(h, ls[..14]) && After(h, ls[..14]) == Flagging(h, a, b, Over)
  {
    hide Forgetting, IsRun, After, Apply, Enabled, Flagging, Judging, Second;
    ForgettingLabels(h, a, b);
    ForgettingFlags(h, a, b);
    DeferSteps(h, a, b);
    StepAt(h, Forgetting(h, a, b), 13, Flagging(h, a, b, Returning), Flagging(h, a, b, Over));
  }

  /** For every hash function and all contents that it tells apart, the edit is lost. */
  lemma {:induction false} EditForgotten(h: seq<int> -> int, a: seq<int>, b: seq<int>)
    requires h(a) != h(b)
    ensures var ls := Forgetting(h, a, b); IsRun(h, ls) && Lost(After(h, ls)) && After(h, ls).disk.bytes == a
  {
    var ls, s14 := Forgetting(h, a, b), Flagging(h, a, b, Over);
    hide Forgetting, IsRun, After, StepThread, Lost;
    ForgettingLabels(h, a, b);
    ForgettingDefers(h, a, b);
    var s15 := Apply(h, s14, Wiped);
    WipeForgets(h, s14, 2);
    StepAt(h, ls, 14, s14, s15);
    StepAt(h, ls, 15, s15, Apply(h, s15, AbortOp(2)));
    assert ls[..16] == ls;
  }

  // ----- Under the path lock no marker is stray ---------------------------------------------------

  /** An operation that is over: its token was given out and it has ended. */
  predicate Ended(s: State, token: nat) { token <= s.echo.serial && token !in s.ops }

  predicate PhaseSettled(s: State, phase: Phase) {
    match phase
    case Snapped(meta) => !meta.inFlight ==> Ended(s, meta.token)
    case Sized(meta, _) => !meta.inFlight ==> Ended(s, meta.token)
    case Checked(meta, _, _, _) => !meta.inFlight ==> Ended(s, meta.token)
    case Aborting(token) => Ended(s, token)
    case _ => true
  }

  /** Settled records and the callbacks that judge by them belong to operations that are over. */
  ghost predicate OverAndDone(s: State) {
    && (forall token | token in s.ops :: token <= s.echo.serial)
    && (s.echo.rec.Some? && !s.echo.rec.value.inFlight ==> Ended(s, s.echo.rec.value.token))
    && (forall i | 0 <= i < |s.threads| :: PhaseSettled(s, s.threads[i].phase))
  }

  /** The operation that holds the lock owns the record, and nobody else can remove it. */
  ghost predicate OneWriter(s: State) {
    && (forall token | token in s.ops :: s.lock == Some(token) && Owns(s.echo, token) && s.echo.rec.value.inFlight)
    && !Stray(s.echo)
  }

  /** No rename touches the path: remote writes and the clears that go with deletes hold its lock. */
  predicate LockRespecting(s: State, l: Label) { (l.BeginOp? ==> !l.kind.Landing?) && (l == Wiped ==> s.lock.None?) }

  ghost predicate LockedRun(h: seq<int> -> int, ls: seq<Label>) {
    forall k | 0 <= k < |ls| :: LockRespecting(After(h, ls[..k]), ls[k])
  }

  /** Ending more operations and giving out more tokens keeps settled callbacks settled. */
  lemma ThreadsSettled(s: State, t: State)
    requires forall i | 0 <= i < |s.threads| :: PhaseSettled(s, s.threads[i].phase)
    requires s.echo.serial <= t.echo.serial
    requires forall token | token in t.ops :: token in s.ops || token > s.echo.serial
    requires |s.threads| <= |t.threads| <= |s.threads| + 1
    requires forall i | 0 <= i < |s.threads| :: t.threads[i] == s.threads[i]
    requires |t.threads| > |s.threads| ==> t.threads[|s.threads|].phase in {WaitLock, Start}
    ensures forall i | 0 <= i < |t.threads| :: PhaseSettled(t, t.threads[i].phase)
  {
    forall i | 0 <= i < |t.threads| ensures PhaseSettled(t, t.threads[i].phase) {
      assert i < |s.threads| ==> PhaseSettled(s, s.threads[i].phase);
    }
  }

  lemma OpOverAndDone(h: seq<int> -> int, s: State, l: Label)
    requires OverAndDone(s) && Enabled(s, l) && !l.ThreadStep?
    ensures OverAndDone(Apply(h, s, l))
  {
    ThreadsSettled(s, Apply(h, s, l));
  }

  lemma ThreadOverAndDone(h: seq<int> -> int, s: State, id: nat)
    requires OverAndDone(s) && Enabled(s, ThreadStep(id))
    ensures OverAndDone(StepThread(h, s, id))
  {
    var t := StepThread(h, s, id);
    ThreadEchoSettled(h, s, id);
    hide Decide;
    forall i | 0 <= i < |t.threads| ensures PhaseSettled(t, t.threads[i].phase) {
      assert i < |s.threads| && i != id ==> t.threads[i] == s.threads[i];
      assert PhaseSettled(s, s.threads[if i < |s.threads| then i else id].phase);
    }
  }

  /** What a callback's step does to the record. */
  lemma ThreadEchoSettled(h: seq<int> -> int, s: State, id: nat)
    requires OverAndDone(s) && Enabled(s, ThreadStep(id))
    ensures var e, t := s.echo, StepThread(h, s, id).echo;
      && t.serial == e.serial && StepThread(h, s, id).ops == s.ops
      && (t.rec.Some? && !t.rec.value.inFlight ==> Ended(s, t.rec.value.token))
  {
    hide NextPhase, PhaseSettled;
  }

  lemma {:induction false} RunOverAndDone(h: seq<int> -> int, ls: seq<Label>)
    requires IsRun(h, ls)
    ensures OverAndDone(After(h, ls))
  {
    hide OverAndDone, Enabled, ApplyOp, StepThread;
    if ls == [] {
      NothingBegun(h);
    } else {
      var s, l := After(h, ls[..|ls| - 1]), ls[|ls| - 1];
      RunOverAndDone(h, ls[..|ls| - 1]);
      if l.ThreadStep? {
        ThreadOverAndDone(h, s, l.id);
      } else {
        OpOverAndDone(h, s, l);
      }
    }
  }

  lemma {:induction false} NothingBegun(h: seq<int> -> int)
    ensures OverAndDone(After(h, [])) && OneWriter(After(h, [])) && HeedfulRun(h, [])
  {
  }

  /** Ends the operation `token`. */
  predicate Ends(l: Label, token: nat) {
    match l
    case FinishOp(x, _, _) => x == token
    case Commit(x, _, _, _) => x == token
    case TouchEnd(x, _, _, _, _) => x == token
    case AbortOp(x) => x == token
    case _ => false
  }

  /** An operation that is not the newest leaves the record as it is. */
  lemma EndedElsewhere(h: seq<int> -> int, s: State, l: Label)
    requires Enabled(s, l) && (l.FinishOp? || l.Commit? || l.TouchEnd? || l.AbortOp?) && !Owns(s.echo, l.token)
    ensures Apply(h, s, l).echo.rec == s.echo.rec
  {
    var hash := if l.TouchEnd? then l.hash else s.ops[l.token].hash;
    if l.AbortOp? {
      StaleLeavesRecord(s.echo, l.token, hash, 0, 0, 0);
    } else {
      StaleLeavesRecord(s.echo, l.token, hash, l.mtime, l.size, if l.FinishOp? then 0 else l.msgMTime);
    }
  }

  /** In every run, the record of a write in flight goes only by the end of that write, by a newer write or
      by a clear of the path: no timer and no callback, however late, takes it away. */
  lemma {:induction false} InFlightStays(h: seq<int> -> int, ls: seq<Label>, next: Label)
    requires IsRun(h, ls) && Enabled(After(h, ls), next)
    requires var e := After(h, ls).echo; e.rec.Some? && e.rec.value.inFlight
    ensures var e, t := After(h, ls).echo, Apply(h, After(h, ls), next).echo;
      || EndsStray(next) || Ends(next, e.rec.value.token)
      || t.rec == e.rec || t.rec == Some(e.rec.value.(recheck := true))
  {
    var s := After(h, ls);
    RunOverAndDone(h, ls);
    RunGood(h, ls, false);
    hide NextPhase, Decide, Expire;
    if next.ThreadStep? {
      assert PhaseSettled(s, s.threads[next.id].phase);
    } else if next.ExpireRecord? {
      TimersSpareWritesInFlight(s.echo, next.token);
    } else if next.FinishOp? || next.Commit? || next.TouchEnd? || next.AbortOp? {
      if !Owns(s.echo, next.token) {
        EndedElsewhere(h, s, next);
      }
    }
  }

  lemma StepOneWriter(h: seq<int> -> int, s: State, l: Label)
    requires OneWriter(s) && OverAndDone(s) && RecordOK(s) && Enabled(s, l) && LockRespecting(s, l)
    ensures OneWriter(Apply(h, s, l)) && Heeds(s, l)
  {
    if l.ThreadStep? {
      ThreadOneWriter(h, s, l.id);
    } else {
      OpOneWriter(h, s, l);
    }
  }

  lemma OpOneWriter(h: seq<int> -> int, s: State, l: Label)
    requires OneWriter(s) && OverAndDone(s) && RecordOK(s) && Enabled(s, l) && LockRespecting(s, l) && !l.ThreadStep?
    ensures OneWriter(ApplyOp(h, s, l)) && Heeds(s, l)
  {
  }

  lemma ThreadOneWriter(h: seq<int> -> int, s: State, id: nat)
    requires OneWriter(s) && OverAndDone(s) && RecordOK(s) && Enabled(s, ThreadStep(id))
    ensures OneWriter(StepThread(h, s, id)) && Heeds(s, ThreadStep(id))
  {
    hide NextPhase;
    assert PhaseSettled(s, s.threads[id].phase);
  }

  lemma {:induction false} LockedPrefix(h: seq<int> -> int, ls: seq<Label>)
    requires LockedRun(h, ls) && ls != []
    ensures var n := |ls| - 1; LockedRun(h, ls[..n]) && LockRespecting(After(h, ls[..n]), ls[n])
  {
    hide After, LockRespecting;
    var n := |ls| - 1;
    forall k | 0 <= k < n ensures LockRespecting(After(h, ls[..n][..k]), ls[..n][k]) {
      assert ls[..n][..k] == ls[..k];
    }
  }

  lemma {:induction false} HeedfulSnoc(h: seq<int> -> int, ls: seq<Label>)
    requires ls != [] && var n := |ls| - 1; HeedfulRun(h, ls[..n]) && Heeds(After(h, ls[..n]), ls[n])
    ensures HeedfulRun(h, ls)
  {
    hide After, Heeds;
    var n := |ls| - 1;
    forall k | 0 <= k < |ls| ensures Heeds(After(h, ls[..k]), ls[k]) {
      if k < n {
        assert ls[..n][..k] == ls[..k] && ls[..n][k] == ls[k];
      }
    }
  }

  lemma {:induction false} RunOneWriter(h: seq<int> -> int, ls: seq<Label>)
    requires IsRun(h, ls) && LockedRun(h, ls)
    ensures OneWriter(After(h, ls)) && HeedfulRun(h, ls)
  {
    hide OneWriter, OverAndDone, HeedfulRun, LockedRun, LockRespecting, Heeds, Apply, Enabled, RecordOK, HashesCarried;
    if ls == [] {
      NothingBegun(h);
    } else {
      var n := |ls| - 1;
      LockedPrefix(h, ls);
      RunOneWriter(h, ls[..n]);
      RunOverAndDone(h, ls[..n]);
      RunGood(h, ls[..n], false);
      StepOneWriter(h, After(h, ls[..n]), ls[n]);
      HeedfulSnoc(h, ls);
    }
  }

  /** As long as no rename touches the path, no local edit is lost: remote writes hold the path's lock, and
      so do the clears that go with deletes. */
  lemma {:induction false} NoLostEditUnderLock(h: seq<int> -> int, ls: seq<Label>)
    requires IsRun(h, ls) && LockedRun(h, ls)
    ensures !Lost(After(h, ls)) && !Stray(After(h, ls).echo)
  {
    RunOneWriter(h, ls);
    hide IsRun, After, HeedfulRun;
    if Lost(After(h, ls)) {
      NoLostEdit(h, ls);
    }
  }

  // ----- Deferred callbacks ---------------------------------------------------------------------------

  /** The rechecks started, and those that have returned. */
  function Spawned(threads: seq<Thread>): nat {
    if threads == [] then 0
    else Spawned(threads[..|threads| - 1]) + (if threads[|threads| - 1].recheck then 1 else 0)
  }

  function Finished(threads: seq<Thread>): nat {
    if threads == [] then 0
    else Finished(threads[..|threads| - 1]) + (if Done(threads[|threads| - 1]) then 1 else 0)
  }

  predicate Done(t: Thread) { t.recheck && t.phase.Over? }

  lemma {:induction false} CountUpdate(threads: seq<Thread>, id: nat, phase: Phase)
    requires id < |threads|
    ensures var t := threads[id].(phase := phase);
      && Spawned(threads[id := t]) == Spawned(threads)
      && Finished(threads[id := t]) + (if Done(threads[id]) then 1 else 0) ==
         Finished(threads) + (if Done(t) then 1 else 0)
  {
    var n, t := |threads| - 1, threads[id].(phase := phase);
    if id < n {
      CountUpdate(threads[..n], id, phase);
      assert threads[id := t][..n] == threads[..n][id := t];
    } else {
      assert threads[id := t][..n] == threads[..n];
    }
  }

  lemma {:induction false} CountAppend(threads: seq<Thread>, t: Thread)
    ensures Spawned(threads + [t]) == Spawned(threads) + (if t.recheck then 1 else 0)
    ensures Finished(threads + [t]) == Finished(threads) + (if Done(t) then 1 else 0)
  {
    assert (threads + [t])[..|threads|] == threads;
  }

  predicate Balanced(s: State) { s.localRechecks == Spawned(s.threads) - Finished(s.threads) }

  lemma {:induction false} OpBalanced(h: seq<int> -> int, s: State, l: Label)
    requires Enabled(s, l) && !l.ThreadStep?
    ensures var t := Apply(h, s, l);
      && (Balanced(s) ==> Balanced(t)) && Spawned(t.threads) >= Spawned(s.threads)
      && (Flagged(s) && l != Wiped && RecordOK(s) ==> Flagged(t) || Spawned(t.threads) > Spawned(s.threads))
  {
    CountAppend(s.threads, Thread(WaitLock, true));
    CountAppend(s.threads, Thread(Start, false));
  }

  /** A callback's step moves its own thread, and may start one recheck. */
  lemma StepThreads(h: seq<int> -> int, s: State, id: nat)
    requires Enabled(s, ThreadStep(id))
    ensures
      var t, phase := StepThread(h, s, id), s.threads[id].phase;
      var threads := Goto(s, id, NextPhase(h, s, phase)).threads;
      var spawn := phase.Aborting? && Spawns(s.echo, phase.token);
      && t.threads == (if spawn then threads + [Thread(WaitLock, true)] else threads)
      && t.localRechecks ==
         s.localRechecks + (if spawn then 1 else 0) - (if phase.Returning? && s.threads[id].recheck then 1 else 0)
  {
    hide NextPhase, Decide, Abort, Flag;
  }

  lemma {:induction false} ThreadCounts(h: seq<int> -> int, s: State, id: nat)
    requires Enabled(s, ThreadStep(id))
    ensures var t := StepThread(h, s, id);
      (Balanced(s) ==> Balanced(t)) && Spawned(t.threads) >= Spawned(s.threads)
  {
    hide NextPhase, StepThread, Spawns, Spawned, Finished;
    var next := NextPhase(h, s, s.threads[id].phase);
    StepThreads(h, s, id);
    CountUpdate(s.threads, id, next);
    CountAppend(Goto(s, id, next).threads, Thread(WaitLock, true));
  }

  lemma {:induction false} ThreadFlags(h: seq<int> -> int, s: State, id: nat)
    requires Enabled(s, ThreadStep(id)) && Flagged(s) && RecordOK(s)
    ensures var t := StepThread(h, s, id); Flagged(t) || Spawned(t.threads) > Spawned(s.threads)
  {
    hide NextPhase, Decide;
    var next := NextPhase(h, s, s.threads[id].phase);
    CountUpdate(s.threads, id, next);
    CountAppend(Goto(s, id, next).threads, Thread(WaitLock, true));
  }

  lemma {:induction false} ThreadBalanced(h: seq<int> -> int, s: State, id: nat)
    requires Enabled(s, ThreadStep(id))
    ensures var t := Apply(h, s, ThreadStep(id));
      && (Balanced(s) ==> Balanced(t)) && Spawned(t.threads) >= Spawned(s.threads)
      && (Flagged(s) && RecordOK(s) ==> Flagged(t) || Spawned(t.threads) > Spawned(s.threads))
  {
    hide StepThread, Balanced, Spawned, Flagged, RecordOK;
    ThreadCounts(h, s, id);
    if Flagged(s) && RecordOK(s) {
      ThreadFlags(h, s, id);
    }
  }

  lemma {:induction false} RunBalanced(h: seq<int> -> int, ls: seq<Label>)
    requires IsRun(h, ls)
    ensures Balanced(After(h, ls))
  {
    if ls != [] {
      var n := |ls| - 1;
      RunBalanced(h, ls[..n]);
      hide Balanced;
      assert Balanced(After(h, ls[..n]));
      if ls[n].ThreadStep? {
        ThreadBalanced(h, After(h, ls[..n]), ls[n].id);
      } else {
        OpBalanced(h, After(h, ls[..n]), ls[n]);
      }
    } else {
      assert Balanced(INITIAL);
    }
  }

  /** The counter is the number of rechecks started minus those that returned, so it is zero exactly
      when none is outstanding. */
  lemma {:induction false} RecheckCounter(h: seq<int> -> int, ls: seq<Label>)
    requires IsRun(h, ls)
    ensures var s := After(h, ls);
      && s.localRechecks == Spawned(s.threads) - Finished(s.threads) >= 0
      && (s.localRechecks != 0 <==>
            exists i :: 0 <= i < |s.threads| && s.threads[i].recheck && !s.threads[i].phase.Over?)
  {
    RunBalanced(h, ls);
    Outstanding(After(h, ls).threads);
  }

  lemma {:induction false} Outstanding(threads: seq<Thread>)
    ensures Spawned(threads) >= Finished(threads)
    ensures Spawned(threads) > Finished(threads) <==>
            exists i :: 0 <= i < |threads| && threads[i].recheck && !threads[i].phase.Over?
  {
    if threads != [] {
      var n := |threads| - 1;
      Outstanding(threads[..n]);
      assert forall i | 0 <= i < n :: threads[..n][i] == threads[i];
      if exists i :: 0 <= i < |threads| && threads[i].recheck && !threads[i].phase.Over? {
        var i :| 0 <= i < |threads| && threads[i].recheck && !threads[i].phase.Over?;
        assert i < n ==> threads[..n][i] == threads[i];
      }
    }
  }

  /** A deferred callback is not forgotten: however many writes supersede each other, its flag stays on
      the path's record until an operation ends and starts the recheck. */
  lemma {:induction false} DeferredSurvives(h: seq<int> -> int, ls: seq<Label>, n: nat)
    requires IsRun(h, ls) && n <= |ls| && Flagged(After(h, ls[..n])) && forall k | n <= k < |ls| :: ls[k] != Wiped
    ensures var s, t := After(h, ls[..n]), After(h, ls);
      && Spawned(t.threads) >= Spawned(s.threads)
      && (Flagged(t) || Spawned(t.threads) > Spawned(s.threads))
  {
    hide Flagged, Spawned, HashesCarried, Owed, Apply, Enabled, Balanced, RecordOK;
    if n == |ls| {
      assert ls[..n] == ls;
    } else {
      var m := |ls| - 1;
      assert ls[..m][..n] == ls[..n];
      DeferredSurvives(h, ls[..m], n);
      RunGood(h, ls[..m], false);
      if ls[m].ThreadStep? {
        ThreadBalanced(h, After(h, ls[..m]), ls[m].id);
      } else {
        OpBalanced(h, After(h, ls[..m]), ls[m]);
      }
    }
  }
}
