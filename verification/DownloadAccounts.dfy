/** That downloads end and that every announcement is credited to its page (`internal/sync/file_sync.go`):
    which steps forget an announcement, and what is left when all is done. */
module DownloadAccounts {
  import opened ByteTypes
  import opened ChunkTransfer
  import opened Downloads
  import opened DownloadRuns
  import opened DownloadPages
  import opened DownloadArrives
  import opened Options

  // ----- Sessions end ----------------------------------------------------------------------------------

  /** A merge that is over has taken its session out of the map, if nobody else had. */
  ghost predicate OverGone(s: State) {
    forall m | 0 <= m < |s.merges| && s.merges[m].phase.Over? :: Gone(s, s.merges[m].id)
  }

  lemma StepOverGone(h: Bytes -> int, s: State, l: Label)
    requires Owned(s) && Enabled(s, l) && OverGone(s)
    ensures OverGone(Apply(h, s, l))
  {
    var t := Apply(h, s, l);
    StepOwned(h, s, l);
    forall m | 0 <= m < |t.merges| && t.merges[m].phase.Over? ensures Gone(t, t.merges[m].id) {
      if m < |s.merges| && s.merges[m].phase.Over? {
        assert Gone(s, s.merges[m].id);
        MergeStays(h, s, l, m);
      } else {
        NewlyOver(h, s, l, m);
      }
    }
  }

  lemma MergeStays(h: Bytes -> int, s: State, l: Label, m: nat)
    requires Enabled(s, l) && m < |s.merges| && s.merges[m].phase.Over?
    ensures m < |Apply(h, s, l).merges| && Apply(h, s, l).merges[m] == s.merges[m]
  {
  }

  lemma NewlyOver(h: Bytes -> int, s: State, l: Label, m: nat)
    requires Owned(s) && Enabled(s, l) && m < |Apply(h, s, l).merges| && Apply(h, s, l).merges[m].phase.Over?
    requires m < |s.merges| ==> !s.merges[m].phase.Over?
    ensures Gone(Apply(h, s, l), Apply(h, s, l).merges[m].id)
  {
    hide CommitsOK, Distinct;
    if l.MergeFails? {
      FailedGone(s, l.m);
    } else if l.MergeCommit? {
      hide Abort;
    } else {
      hide Abort, CommitMerge, RecordChunk;
    }
  }

  lemma FailedGone(s: State, m: nat)
    requires EntriesOK(s) && m < |s.merges| && s.merges[m].id < |s.pool|
    ensures Gone(Abort(Goto(s, m, Over), s.pool[s.merges[m].id].key), s.merges[m].id)
  {
  }

  /** Whatever a merge finds, in the end its session is gone: committed, aborted, or superseded. */
  lemma {:induction false} MergesEnd(h: Bytes -> int, ls: seq<Label>)
    requires IsRun(h, ls)
    ensures OverGone(After(h, ls))
  {
    hide Apply, Enabled, OverGone, Owned;
    if ls == [] {
      assert OverGone(INITIAL) by { NothingOver(); }
    } else {
      MergesEnd(h, ls[..|ls| - 1]);
      RunOwned(h, ls[..|ls| - 1]);
      StepOverGone(h, After(h, ls[..|ls| - 1]), ls[|ls| - 1]);
    }
  }

  lemma NothingOver()
    ensures OverGone(INITIAL)
  {
  }

  /** A stalled round leaves no session behind. */
  lemma TimedOutGone(h: Bytes -> int, s: State, id: nat)
    requires Owned(s) && id < |s.pool|
    ensures Gone(Apply(h, s, TimedOut), id) && (IsCurrent(s, id) ==> Apply(h, s, TimedOut).pool[id].cancelled)
  {
  }

  /** An empty file has no frames: its session is merged as it stands, and nothing is what it commits if that
      is what was announced. */
  lemma EmptyArrives(h: Bytes -> int, s: State, id: nat)
    requires IsCurrent(s, id) && !s.pool[id].cancelled && s.pool[id].totalChunks == 0 && !IsTemp(s.pool[id].key)
    ensures Enabled(s, Empty(id))
    ensures
      var t, m, d := Apply(h, s, Empty(id)), |s.merges|, s.pool[id];
      && t.merges == s.merges + [Merge(id, Reading)] && |t.pool| == |s.pool| && Merged(map[], 0) == Some([])
      && MergedThrough(h, t, m, []).commits ==
           (if d.size == 0 && (d.hash.None? || d.hash.value == h([])) then s.commits + [Commit(id, [])] else s.commits)
  {
  }

  // ----- Announcements ---------------------------------------------------------------------------------

  /** The announcement is credited, or some object is going to credit it. */
  ghost predicate Accounted(s: State, p: nat) {
    p in s.pages || exists i: nat :: Carrier(s, i) && s.pool[i].page == Some(p)
  }

  ghost predicate AllAccounted(s: State) { forall p: nat | p < s.announced :: Accounted(s, p) }

  /** Nothing with a page has this key. */
  predicate Vacant(s: State, key: string) {
    key in s.current && s.current[key] < |s.pool| ==> s.pool[s.current[key]].page.None?
  }

  /** What a step must find in order not to forget an announcement. */
  ghost predicate Remembers(s: State, l: Label) {
    match l
    case TimedOut => forall id: nat | IsCurrent(s, id) :: s.pool[id].page.None?
    case Retarget(id, _, _) => Carrier(s, id) && s.pool[id].page.None?
    case Expect(path, _, _) => Vacant(s, TempKey(path))
    case Announced(_, sessionId, _, _, _) => Vacant(s, sessionId)
    case RequestFailed(p) => p in s.asking && TakesBackOwn(s, p)
    case _ => true
  }

  /** A failed request takes back no entry of another announcement. */
  ghost predicate TakesBackOwn(s: State, p: nat)
    requires p in s.asking
  {
    forall id: nat | IsCurrent(s, id) && !IsCurrent(TakeBack(s, s.asking[p]), id) && s.pool[id].page.Some? ::
      s.pool[id].page == Some(p)
  }

  /** Steps after which every page that was carried is carried or credited. */
  lemma KeepsAccounts(s: State, t: State)
    requires AllAccounted(s) && t.announced == s.announced && (forall p | p in s.pages :: p in t.pages)
    requires forall i: nat | Carrier(s, i) && s.pool[i].page.Some? :: Accounted(t, s.pool[i].page.value)
    ensures AllAccounted(t)
  {
    forall p: nat | p < t.announced ensures Accounted(t, p) {
      assert Accounted(s, p);
      if p !in s.pages {
        var i: nat :| Carrier(s, i) && s.pool[i].page == Some(p);
      }
    }
  }

  lemma TimedOutAccounts(s: State)
    requires Owned(s) && Tidy(s) && AllAccounted(s)
    ensures AllAccounted(Cleanup(s)) <==> Remembers(s, TimedOut)
  {
    var t := Cleanup(s);
    assert forall i: nat :: Carrier(t, i) <==> i in s.owing && i < |s.pool|;
    if Remembers(s, TimedOut) {
      forall i: nat | Carrier(s, i) && s.pool[i].page.Some? ensures Accounted(t, s.pool[i].page.value) {
        assert Carrier(t, i) && t.pool[i].page == s.pool[i].page;
      }
      KeepsAccounts(s, t);
    } else {
      var id: nat :| IsCurrent(s, id) && s.pool[id].page.Some?;
      assert Carrier(s, id) && id !in s.owing;
      assert !Accounted(t, s.pool[id].page.value);
    }
  }

  lemma RetargetAccounts(s: State, id: nat, hash: Option<int>, size: int)
    requires Owned(s) && Tidy(s) && AllAccounted(s) && id < |s.pool|
    ensures AllAccounted(Retargeted(s, id, hash, size)) <==> Remembers(s, Retarget(id, hash, size))
  {
    var t := Retargeted(s, id, hash, size);
    assert forall i: nat :: Carrier(t, i) <==> Carrier(s, i);
    assert forall i: nat | i < |s.pool| && i != id :: t.pool[i] == s.pool[i];
    if Remembers(s, Retarget(id, hash, size)) {
      forall p: nat | p < t.announced ensures Accounted(t, p) {
        if p == s.announced {
          assert Carrier(t, id) && t.pool[id].page == Some(p);
        } else {
          assert Accounted(s, p);
          if p !in s.pages {
            var i: nat :| Carrier(s, i) && s.pool[i].page == Some(p);
            assert Carrier(t, i) && t.pool[i] == s.pool[i];
          }
        }
      }
    } else if Carrier(s, id) {
      assert !Accounted(t, s.pool[id].page.value);
    } else {
      assert !Accounted(t, s.announced);
    }
  }

  lemma ExpectAccounts(s: State, path: string, hash: Option<int>, size: int)
    requires Owned(s) && Tidy(s) && AllAccounted(s)
    ensures AllAccounted(Expecting(s, path, hash, size)) <==> Remembers(s, Expect(path, hash, size))
  {
    var t, key := Expecting(s, path, hash, size), TempKey(path);
    EnterCarriers(s, key, 0, hash, size, Some(s.announced));
    assert forall i: nat :: Carrier(t, i) <==> Carrier(Enter(s, key, 0, hash, size, Some(s.announced)), i);
    if Vacant(s, key) {
      forall p: nat | p < t.announced ensures Accounted(t, p) {
        if p == s.announced {
          assert Carrier(t, |s.pool|) && t.pool[|s.pool|].page == Some(p);
        } else {
          assert Accounted(s, p);
          if p !in s.pages {
            var i: nat :| Carrier(s, i) && s.pool[i].page == Some(p);
            assert Carrier(t, i) && t.pool[i] == s.pool[i];
          }
        }
      }
    } else {
      var pushed := s.current[key];
      assert Carrier(s, pushed) && !Carrier(t, pushed);
      assert !Accounted(t, s.pool[pushed].page.value);
    }
  }

  /** Entering an object under a key pushes out the one that had it. */
  lemma EnterCarriers(s: State, key: string, totalChunks: int, hash: Option<int>, size: int, page: Option<nat>)
    requires Owned(s)
    ensures var t, n := Enter(s, key, totalChunks, hash, size, page), |s.pool|;
      && |t.pool| == n + 1 && t.pool[n].page == page && Carrier(t, n)
      && (forall i: nat | i < n :: t.pool[i] == s.pool[i])
      && forall i: nat | i < n :: Carrier(t, i) <==> Carrier(s, i) && !(key in s.current && s.current[key] == i)
  {
  }

  lemma AnnounceAccounts(s: State, path: string, sessionId: string, totalChunks: int, hash: Option<int>, size: int)
    requires Owned(s) && Tidy(s) && AllAccounted(s)
    ensures AllAccounted(Announce(s, path, sessionId, totalChunks, hash, size)) <==>
            Remembers(s, Announced(path, sessionId, totalChunks, hash, size))
  {
    hide Announce;
    var t := Announce(s, path, sessionId, totalChunks, hash, size);
    AnnounceCarriers(s, path, sessionId, totalChunks, hash, size);
    if Vacant(s, sessionId) {
      AnnounceKeeps(s, t, sessionId, TempKey(path));
    } else {
      AnnouncePushes(s, t, sessionId, TempKey(path));
    }
  }

  /** The session pushes out the object under its id, and takes over from the temporary entry. */
  ghost predicate TakesOver(s: State, t: State, sessionId: string, key: string) {
    var n := |s.pool|;
    && |t.pool| == n + 1 && t.pages == s.pages && t.announced == s.announced
    && (key in s.current ==> s.current[key] < n) && (sessionId in s.current ==> s.current[sessionId] < n)
    && t.pool[n].page == (if key in s.current then s.pool[s.current[key]].page else None)
    && (Carrier(t, n) <==> !(sessionId == key && key in s.current))
    && (forall i: nat | i < n :: t.pool[i] == s.pool[i])
    && (forall i: nat | i < n :: Carrier(t, i) <==> Carrier(s, i) && !At(s, sessionId, i) && !At(s, key, i))
  }

  predicate At(s: State, key: string, id: nat) { key in s.current && s.current[key] == id }

  lemma AnnounceKeeps(s: State, t: State, sessionId: string, key: string)
    requires AllAccounted(s) && TakesOver(s, t, sessionId, key) && Vacant(s, sessionId)
    ensures AllAccounted(t)
  {
    forall i: nat | Carrier(s, i) && s.pool[i].page.Some? ensures Accounted(t, s.pool[i].page.value) {
      if !Carrier(t, i) {
        assert Carrier(t, |s.pool|) && t.pool[|s.pool|].page == s.pool[i].page;
      } else {
        assert t.pool[i] == s.pool[i];
      }
    }
    KeepsAccounts(s, t);
  }

  lemma AnnouncePushes(s: State, t: State, sessionId: string, key: string)
    requires Tidy(s) && EntriesOK(s) && TakesOver(s, t, sessionId, key) && !Vacant(s, sessionId)
    ensures !AllAccounted(t)
  {
    var pushed := s.current[sessionId];
    assert Carrier(s, pushed) && !Carrier(t, pushed);
    if key in s.current && key != sessionId {
      assert Carrier(s, s.current[key]) && s.current[key] != pushed;
    }
    assert !Accounted(t, s.pool[pushed].page.value);
  }

  lemma AnnounceCarriers(s: State, path: string, sessionId: string, totalChunks: int, hash: Option<int>, size: int)
    requires Owned(s)
    ensures TakesOver(s, Announce(s, path, sessionId, totalChunks, hash, size), sessionId, TempKey(path))
  {
    hide CommitsOK, Distinct;
  }

  lemma FailAccounts(s: State, p: nat)
    requires Owned(s) && Tidy(s) && AllAccounted(s) && p in s.asking
    ensures AllAccounted(FailRequest(s, p)) <==> Remembers(s, RequestFailed(p))
  {
    var t, u := FailRequest(s, p), TakeBack(s, s.asking[p]);
    assert forall i: nat :: Carrier(t, i) <==> Carrier(u, i);
    assert forall i: nat | Carrier(u, i) :: Carrier(s, i);
    if TakesBackOwn(s, p) {
      forall i: nat | Carrier(s, i) && s.pool[i].page.Some? ensures Accounted(t, s.pool[i].page.value) {
        if !Carrier(u, i) {
          assert s.pool[i].page == Some(p);
        } else {
          assert t.pool[i] == s.pool[i];
        }
      }
      KeepsAccounts(s, t);
    } else {
      var id: nat :| IsCurrent(s, id) && !IsCurrent(u, id) && s.pool[id].page.Some? && s.pool[id].page != Some(p);
      assert Carrier(s, id) && id !in s.owing && !Carrier(u, id);
      assert !Accounted(t, s.pool[id].page.value);
    }
  }

  /** Everything that was carried is carried on. */
  ghost predicate Carries(s: State, t: State) {
    && |t.pool| == |s.pool| && t.pages == s.pages && t.announced == s.announced
    && forall i: nat | Carrier(s, i) :: Carrier(t, i) && t.pool[i].page == s.pool[i].page
  }

  lemma AbortCarries(s: State, key: string)
    requires Owned(s)
    ensures Carries(s, Abort(s, key))
  {
    hide CommitsOK, Distinct;
  }

  lemma CommitCarries(s: State, m: nat, bytes: Bytes, replaced: bool)
    requires m < |s.merges| && s.merges[m].id < |s.pool|
    ensures Carries(s, CommitMerge(s, m, bytes, replaced))
  {
  }

  lemma QuietAccounts(h: Bytes -> int, s: State, l: Label)
    requires Owned(s) && Enabled(s, l)
    requires l.RequestSent? || l.Empty? || l.ChunkStored? || l.Aborted? || l.MergeRead? || l.MergeFails?
      || l.MergeCheck? || l.MergeCommit?
    ensures Carries(s, Apply(h, s, l))
  {
    if l.Aborted? {
      AbortCarries(s, l.key);
    } else if l.MergeFails? {
      GotoOwned(s, l.m, Over);
      AbortCarries(Goto(s, l.m, Over), s.pool[s.merges[l.m].id].key);
    } else if l.MergeCommit? {
      CommitCarries(s, l.m, s.merges[l.m].phase.bytes, l.replaced);
    } else {
      hide Owned;
    }
  }

  lemma StepAccounts(h: Bytes -> int, s: State, l: Label)
    requires Owned(s) && Tidy(s) && AllAccounted(s) && Enabled(s, l)
    ensures AllAccounted(Apply(h, s, l)) <==> Remembers(s, l)
  {
    hide Owned, Tidy, AllAccounted, Announce, Expecting, Retargeted, FailRequest, Cleanup, CompletePage, Carries;
    if l.TimedOut? {
      TimedOutAccounts(s);
    } else if l.Retarget? {
      RetargetAccounts(s, l.id, l.hash, l.size);
    } else if l.Expect? {
      ExpectAccounts(s, l.path, l.hash, l.size);
    } else if l.Announced? {
      AnnounceAccounts(s, l.path, l.sessionId, l.totalChunks, l.hash, l.size);
    } else if l.RequestFailed? {
      FailAccounts(s, l.p);
    } else if l.Refused? {
      RefusedAccounts(s);
    } else if l.PageDone? {
      DoneAccounts(s, l.id);
    } else {
      QuietAccounts(h, s, l);
      CarriedOn(s, Apply(h, s, l));
    }
  }

  lemma CarriedOn(s: State, t: State)
    requires AllAccounted(s) && Carries(s, t)
    ensures AllAccounted(t)
  {
    forall i: nat | Carrier(s, i) && s.pool[i].page.Some? ensures Accounted(t, s.pool[i].page.value) {
      assert Carrier(t, i) && t.pool[i].page == s.pool[i].page;
    }
    KeepsAccounts(s, t);
  }

  lemma RefusedAccounts(s: State)
    requires AllAccounted(s)
    ensures AllAccounted(s.(announced := s.announced + 1, pages := s.pages + [s.announced]))
  {
    var t := s.(announced := s.announced + 1, pages := s.pages + [s.announced]);
    forall p: nat | p < t.announced ensures Accounted(t, p) {
      if p < s.announced {
        assert Accounted(s, p);
        if p !in s.pages {
          var i: nat :| Carrier(s, i) && s.pool[i].page == Some(p);
          assert Carrier(t, i);
        }
      }
    }
  }

  lemma DoneAccounts(s: State, id: nat)
    requires AllAccounted(s) && id < |s.pool|
    ensures AllAccounted(CompletePage(s, id))
  {
    var t := CompletePage(s, id);
    forall i: nat | Carrier(s, i) && s.pool[i].page.Some? ensures Accounted(t, s.pool[i].page.value) {
      assert i != id ==> Carrier(t, i);
    }
    KeepsAccounts(s, t);
  }

  ghost predicate RemembersAll(h: Bytes -> int, ls: seq<Label>) {
    forall k | 0 <= k < |ls| :: Remembers(After(h, ls[..k]), ls[k])
  }

  lemma {:induction false} RunAccounts(h: Bytes -> int, ls: seq<Label>)
    requires IsRun(h, ls) && UnclaimedRun(h, ls) && RemembersAll(h, ls)
    ensures AllAccounted(After(h, ls))
  {
    hide Apply, Enabled, AllAccounted, Owned, Tidy, Remembers, Claimed;
    if ls == [] {
      assert AllAccounted(INITIAL) by { NothingAnnounced(); }
    } else {
      var n := |ls| - 1;
      UnclaimedPrefix(h, ls, n);
      forall k | 0 <= k < n ensures Remembers(After(h, ls[..n][..k]), ls[..n][k]) {
        assert ls[..n][..k] == ls[..k];
      }
      RunAccounts(h, ls[..n]);
      RunOwned(h, ls[..n]);
      RunTidy(h, ls[..n]);
      StepAccounts(h, After(h, ls[..n]), ls[n]);
    }
  }

  lemma NothingAnnounced()
    ensures AllAccounted(INITIAL)
  {
  }

  /** A step forgets an announcement exactly if it pushes a session or an entry with a page out of the map, gives
      its object another page, or drops it with a stalled round. */
  lemma {:induction false} ForgetsExactly(h: Bytes -> int, ls: seq<Label>, next: Label)
    requires IsRun(h, ls) && UnclaimedRun(h, ls) && RemembersAll(h, ls) && Enabled(After(h, ls), next)
    ensures (forall p: nat | p < Apply(h, After(h, ls), next).announced :: Accounted(Apply(h, After(h, ls), next), p))
       <==> Remembers(After(h, ls), next)
  {
    RunAccounts(h, ls);
    RunOwned(h, ls);
    RunTidy(h, ls);
    hide After, IsRun, Owned, Tidy, Apply, Remembers;
    StepAccounts(h, After(h, ls), next);
  }

  /** When no session is left and no completion is due, every announcement of such a run has been credited
      to its page, and none of them twice. */
  lemma {:induction false} PagesComplete(h: Bytes -> int, ls: seq<Label>)
    requires IsRun(h, ls) && UnclaimedRun(h, ls) && RemembersAll(h, ls)
    requires After(h, ls).current == map[] && After(h, ls).owing == {}
    ensures var s := After(h, ls);
      && (forall p: nat | p < s.announced :: p in s.pages)
      && forall i, j | 0 <= i < j < |s.pages| :: s.pages[i] != s.pages[j]
  {
    RunAccounts(h, ls);
    PagesOnce(h, ls);
    hide After, IsRun;
    var s := After(h, ls);
    forall p: nat | p < s.announced ensures p in s.pages {
      assert Accounted(s, p);
    }
  }
}
