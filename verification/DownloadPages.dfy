/** How often a download counts for the page of its announcement (`internal/sync/file_sync.go`): at most
    once, unless a request fails whose announcement has passed on to a session. */
module DownloadPages {
  import opened ByteTypes
  import opened Downloads
  import opened DownloadRuns
  import opened Options

  // ----- Invariant -----------------------------------------------------------------------------------

  /** The object is going to complete its page, or is about to. */
  predicate Carrier(s: State, id: nat) { id < |s.pool| && (IsCurrent(s, id) || id in s.owing) }

  ghost predicate PagesOK(s: State) {
    && Distinct(s.pages) && (forall p | p in s.pages :: p < s.announced)
    && (forall i | 0 <= i < |s.pool| && s.pool[i].page.Some? :: s.pool[i].page.value < s.announced)
  }

  /** No two objects are going to complete one page, and none a page that is completed. */
  ghost predicate CarriersOK(s: State) {
    && (forall i: nat, j: nat | Carrier(s, i) && Carrier(s, j) && i != j && s.pool[i].page.Some? ::
          s.pool[i].page != s.pool[j].page)
    && (forall i: nat | Carrier(s, i) && s.pool[i].page.Some? :: s.pool[i].page.value !in s.pages)
  }

  ghost predicate AskOK(s: State) {
    forall p | p in s.asking ::
      && p < s.announced && s.asking[p].id < |s.pool|
      && (s.asking[p].created ==> var d := s.pool[s.asking[p].id]; IsTemp(d.key) && d.page == Some(p))
  }

  ghost predicate Tidy(s: State) { PagesOK(s) && CarriersOK(s) && AskOK(s) }

  /** Steps after which fewer objects, or the same, carry the pages they carried. */
  ghost predicate Narrows(s: State, t: State) {
    && t.pages == s.pages && t.announced == s.announced
    && (forall p | p in t.asking :: p in s.asking && t.asking[p] == s.asking[p])
    && |t.pool| == |s.pool|
    && (forall i | 0 <= i < |s.pool| :: t.pool[i].page == s.pool[i].page && t.pool[i].key == s.pool[i].key)
    && (forall i: nat | Carrier(t, i) :: Carrier(s, i))
  }

  lemma NarrowsTidy(s: State, t: State)
    requires Tidy(s) && Narrows(s, t)
    ensures Tidy(t)
  {
  }

  lemma DistinctSnoc(list: seq<nat>, x: nat)
    requires Distinct(list) && x !in list
    ensures Distinct(list + [x]) && forall p | p in list + [x] :: p in list || p == x
  {
  }

  lemma ExpectTidy(s: State, path: string, hash: Option<int>, size: int)
    requires Owned(s) && Tidy(s)
    ensures Tidy(Expecting(s, path, hash, size))
  {
    var t := Expecting(s, path, hash, size);
    assert forall i | 0 <= i < |s.pool| :: t.pool[i] == s.pool[i];
    assert forall i: nat | Carrier(t, i) && i < |s.pool| :: Carrier(s, i);
    assert PagesOK(t) && CarriersOK(t) && AskOK(t);
  }

  lemma RetargetTidy(s: State, id: nat, hash: Option<int>, size: int)
    requires Owned(s) && Tidy(s) && id < |s.pool| && !IsTemp(s.pool[id].key)
    ensures Tidy(Retargeted(s, id, hash, size))
  {
    var t := Retargeted(s, id, hash, size);
    assert forall i | 0 <= i < |s.pool| && i != id :: t.pool[i] == s.pool[i];
    assert forall i: nat | Carrier(t, i) :: Carrier(s, i);
    assert PagesOK(t) && CarriersOK(t) && AskOK(t);
  }

  /** The session inherits the page of the temporary entry, which stops carrying it. */
  lemma AnnounceTidy(s: State, path: string, sessionId: string, totalChunks: int, hash: Option<int>, size: int)
    requires Owned(s) && Tidy(s)
    ensures Tidy(Announce(s, path, sessionId, totalChunks, hash, size))
  {
    var t := Announce(s, path, sessionId, totalChunks, hash, size);
    AnnouncePages(s, path, sessionId, totalChunks, hash, size);
    hide PagesOK, AskOK, CommitsOK;
    assert forall i | 0 <= i < |s.pool| :: t.pool[i] == s.pool[i];
    if TempKey(path) in s.current {
      AnnounceTemp(s, path, sessionId, totalChunks, hash, size);
      InheritTidy(s, t, s.current[TempKey(path)]);
    } else {
      assert forall i: nat | Carrier(t, i) && i < |s.pool| :: Carrier(s, i);
      assert CarriersOK(t);
    }
  }

  lemma AnnouncePages(s: State, path: string, sessionId: string, totalChunks: int, hash: Option<int>, size: int)
    requires EntriesOK(s) && PagesOK(s) && AskOK(s)
    ensures var t := Announce(s, path, sessionId, totalChunks, hash, size); PagesOK(t) && AskOK(t)
  {
    var t := Announce(s, path, sessionId, totalChunks, hash, size);
    assert forall i | 0 <= i < |s.pool| :: t.pool[i] == s.pool[i];
  }

  /** One object more, which takes over the page of `from`. */
  lemma InheritTidy(s: State, t: State, from: nat)
    requires CarriersOK(s) && Carrier(s, from) && |t.pool| == |s.pool| + 1 && t.pages == s.pages
    requires forall i | 0 <= i < |s.pool| :: t.pool[i] == s.pool[i]
    requires t.pool[|s.pool|].page == s.pool[from].page
    requires forall i: nat | Carrier(t, i) && i < |s.pool| :: Carrier(s, i) && i != from
    ensures CarriersOK(t)
  {
  }

  lemma AnnounceTemp(s: State, path: string, sessionId: string, totalChunks: int, hash: Option<int>, size: int)
    requires EntriesOK(s) && EndedOK(s) && TempKey(path) in s.current
    ensures
      var t, temp := Announce(s, path, sessionId, totalChunks, hash, size), s.current[TempKey(path)];
      && Carrier(s, temp) && t.pool[|s.pool|].page == s.pool[temp].page
      && forall i: nat | Carrier(t, i) && i < |s.pool| :: Carrier(s, i) && i != temp
  {
    var t, temp := Announce(s, path, sessionId, totalChunks, hash, size), s.current[TempKey(path)];
    assert forall i | 0 <= i < |s.pool| :: t.pool[i] == s.pool[i];
    assert IsCurrent(s, temp) && temp !in s.owing;
    assert !IsCurrent(t, temp);
  }

  lemma CompleteTidy(s: State, id: nat)
    requires Owned(s) && Tidy(s) && id in s.owing && id < |s.pool|
    ensures Tidy(CompletePage(s, id))
  {
    var t := CompletePage(s, id);
    assert Gone(s, id) && Carrier(s, id) && !Carrier(t, id);
    assert forall i: nat | Carrier(t, i) :: Carrier(s, i) && i != id;
    assert PagesOK(t) && CarriersOK(t) && AskOK(t);
  }

  lemma AbortNarrows(s: State, key: string)
    requires Owned(s)
    ensures Narrows(s, Abort(s, key))
  {
    var t := Abort(s, key);
    assert forall i: nat | Carrier(t, i) :: Carrier(s, i);
  }

  lemma CommitNarrows(s: State, m: nat, bytes: Bytes, replaced: bool)
    requires m < |s.merges| && s.merges[m].id < |s.pool|
    ensures Narrows(s, CommitMerge(s, m, bytes, replaced))
  {
  }

  /** Apart from the entry that is taken back, some object is going to complete the page of `p`, or it
      is completed. */
  ghost predicate Claimed(s: State, p: nat) {
    p in s.asking &&
    (p in s.pages || exists i: nat :: Carrier(TakeBack(s, s.asking[p]), i) && s.pool[i].page == Some(p))
  }

  lemma FailTidy(s: State, p: nat)
    requires Owned(s) && Tidy(s) && p in s.asking && !Claimed(s, p)
    ensures Tidy(FailRequest(s, p))
  {
    var t := FailRequest(s, p);
    assert forall i: nat | Carrier(t, i) :: Carrier(s, i) && Carrier(TakeBack(s, s.asking[p]), i);
    DistinctSnoc(s.pages, p);
    assert PagesOK(t) && CarriersOK(t) && AskOK(t);
  }

  lemma StepTidy(h: Bytes -> int, s: State, l: Label)
    requires Owned(s) && Tidy(s) && Enabled(s, l)
    requires l.RequestFailed? ==> !Claimed(s, l.p)
    ensures Tidy(Apply(h, s, l))
  {
    if l.Expect? {
      ExpectTidy(s, l.path, l.hash, l.size);
    } else if l.Retarget? {
      RetargetTidy(s, l.id, l.hash, l.size);
    } else if l.RequestFailed? {
      FailTidy(s, l.p);
    } else if l.Announced? {
      AnnounceTidy(s, l.path, l.sessionId, l.totalChunks, l.hash, l.size);
    } else if l.PageDone? {
      CompleteTidy(s, l.id);
    } else if l.Refused? {
      RefusedTidy(s);
    } else {
      StepNarrows(h, s, l);
      NarrowsTidy(s, Apply(h, s, l));
    }
  }

  lemma RefusedTidy(s: State)
    requires Tidy(s)
    ensures Tidy(s.(announced := s.announced + 1, pages := s.pages + [s.announced]))
  {
    var t := s.(announced := s.announced + 1, pages := s.pages + [s.announced]);
    DistinctSnoc(s.pages, s.announced);
    assert forall i: nat | Carrier(t, i) :: Carrier(s, i);
    assert PagesOK(t) && CarriersOK(t) && AskOK(t);
  }

  lemma RecordNarrows(s: State, key: string, index: nat)
    ensures Narrows(s, RecordChunk(s, key, index))
  {
  }

  lemma CleanupNarrows(s: State)
    ensures Narrows(s, Cleanup(s))
  {
  }

  lemma PhaseNarrows(h: Bytes -> int, s: State, l: Label)
    requires Enabled(s, l) && (l.MergeRead? || l.MergeCheck?)
    ensures Narrows(s, Apply(h, s, l))
  {
  }

  lemma StepNarrows(h: Bytes -> int, s: State, l: Label)
    requires Owned(s) && Enabled(s, l)
    requires !(l.Expect? || l.Retarget? || l.RequestFailed? || l.Announced? || l.PageDone? || l.Refused?)
    ensures Narrows(s, Apply(h, s, l))
  {
    if l.Aborted? {
      AbortNarrows(s, l.key);
    } else if l.MergeFails? {
      GotoOwned(s, l.m, Over);
      AbortNarrows(Goto(s, l.m, Over), s.pool[s.merges[l.m].id].key);
    } else if l.MergeCommit? {
      CommitNarrows(s, l.m, s.merges[l.m].phase.bytes, l.replaced);
    } else if l.ChunkStored? {
      RecordNarrows(s, l.key, l.index);
    } else if l.TimedOut? {
      CleanupNarrows(s);
    } else if l.MergeRead? || l.MergeCheck? {
      PhaseNarrows(h, s, l);
    } else {
      hide Cleanup, Abort, Owned, RecordChunk, CommitMerge, CheckMerge, Goto, Enter;
    }
  }

  // ----- Runs ------------------------------------------------------------------------------------------

  /** No request fails in the run whose announcement has been claimed. */
  ghost predicate UnclaimedRun(h: Bytes -> int, ls: seq<Label>) {
    forall k | 0 <= k < |ls| && ls[k].RequestFailed? :: !Claimed(After(h, ls[..k]), ls[k].p)
  }

  lemma UnclaimedPrefix(h: Bytes -> int, ls: seq<Label>, n: nat)
    requires UnclaimedRun(h, ls) && n <= |ls|
    ensures UnclaimedRun(h, ls[..n])
  {
    forall k | 0 <= k < n && ls[..n][k].RequestFailed? ensures !Claimed(After(h, ls[..n][..k]), ls[..n][k].p) {
      assert ls[..n][..k] == ls[..k];
    }
  }

  lemma {:induction false} RunTidy(h: Bytes -> int, ls: seq<Label>)
    requires IsRun(h, ls) && UnclaimedRun(h, ls)
    ensures Tidy(After(h, ls))
  {
    hide Apply, Owned, Enabled, Claimed;
    if ls != [] {
      var n := |ls| - 1;
      UnclaimedPrefix(h, ls, n);
      RunTidy(h, ls[..n]);
      RunOwned(h, ls[..n]);
      StepTidy(h, After(h, ls[..n]), ls[n]);
    } else {
      assert Tidy(INITIAL);
    }
  }

  /** Every announcement completes its page at most once, in every run in which no request fails for a
      claimed announcement. */
  lemma {:induction false} PagesOnce(h: Bytes -> int, ls: seq<Label>)
    requires IsRun(h, ls) && UnclaimedRun(h, ls)
    ensures var pages := After(h, ls).pages; forall i, j | 0 <= i < j < |pages| :: pages[i] != pages[j]
  {
    RunTidy(h, ls);
  }

  // ----- Failed requests -------------------------------------------------------------------------------

  ghost predicate NoFailure(ls: seq<Label>) { forall k | 0 <= k < |ls| :: !ls[k].RequestFailed? }

  /** The run in which the request for `p` fails after `ls`. */
  function Failing(ls: seq<Label>, p: nat, more: seq<Label>): seq<Label> { ls + [RequestFailed(p)] + more }

  lemma {:induction false} Snoc(h: Bytes -> int, ls: seq<Label>, l: Label)
    requires IsRun(h, ls) && Enabled(After(h, ls), l)
    ensures IsRun(h, ls + [l]) && After(h, ls + [l]) == Apply(h, After(h, ls), l)
  {
    hide Apply, Enabled;
    assert (ls + [l])[..|ls|] == ls;
  }

  lemma {:induction false} Prefix(h: Bytes -> int, ls: seq<Label>, n: nat)
    requires IsRun(h, ls) && n <= |ls|
    ensures IsRun(h, ls[..n])
  {
    hide Apply, Enabled;
    if n < |ls| {
      Prefix(h, ls[..|ls| - 1], n);
      assert ls[..|ls| - 1][..n] == ls[..n];
    } else {
      assert ls[..n] == ls;
    }
  }

  /** A failed request completes a page for a second time, now or in some continuation without further
      failures, if and only if the announcement has been claimed. */
  lemma {:induction false} FailedRequestExactly(h: Bytes -> int, ls: seq<Label>, p: nat)
    requires IsRun(h, ls) && UnclaimedRun(h, ls) && p in After(h, ls).asking
    ensures
      (forall more | NoFailure(more) && IsRun(h, Failing(ls, p, more)) ::
         Distinct(After(h, Failing(ls, p, more)).pages))
      <==> !Claimed(After(h, ls), p)
  {
    hide Apply, Enabled, Claimed;
    if Claimed(After(h, ls), p) {
      var more := ClaimedTwice(h, ls, p);
      assert !Distinct(After(h, Failing(ls, p, more)).pages);
    } else {
      forall more | NoFailure(more) && IsRun(h, Failing(ls, p, more))
        ensures Distinct(After(h, Failing(ls, p, more)).pages)
      {
        FailingUnclaimed(h, ls, p, more);
        PagesOnce(h, Failing(ls, p, more));
      }
    }
  }

  lemma FailingUnclaimed(h: Bytes -> int, ls: seq<Label>, p: nat, more: seq<Label>)
    requires UnclaimedRun(h, ls) && !Claimed(After(h, ls), p) && NoFailure(more)
    ensures UnclaimedRun(h, Failing(ls, p, more))
  {
    hide Claimed, After, IsRun;
    var all := Failing(ls, p, more);
    assert forall j | |ls| < j < |all| :: all[j] == more[j - |ls| - 1];
    forall k | 0 <= k < |all| && all[k].RequestFailed? ensures !Claimed(After(h, all[..k]), all[k].p) {
      assert all[..k] == ls[..k];
      assert k == |ls| ==> ls[..k] == ls;
    }
  }

  /** The continuation: the session that took the announcement over ends and completes the page again. */
  lemma {:induction false} ClaimedTwice(h: Bytes -> int, ls: seq<Label>, p: nat) returns (more: seq<Label>)
    requires IsRun(h, ls) && UnclaimedRun(h, ls) && Claimed(After(h, ls), p)
    ensures NoFailure(more) && IsRun(h, Failing(ls, p, more)) && !Distinct(After(h, Failing(ls, p, more)).pages)
  {
    var s := After(h, ls);
    RunOwned(h, ls);
    Snoc(h, ls, RequestFailed(p));
    var one, t := ls + [RequestFailed(p)], FailRequest(s, p);
    FailOwned(s, p);
    hide Owned, FailRequest, TakeBack;
    if p in s.pages {
      more := [];
      assert Failing(ls, p, more) == one;
      FailedPage(s, p);
      Twice(s.pages, p);
    } else {
      FailedPage(s, p);
      var id: nat :| Carrier(TakeBack(s, s.asking[p]), id) && s.pool[id].page == Some(p);
      var rest := ClaimantEnds(h, one, t, id, p);
      more := rest;
      assert Failing(ls, p, more) == one + rest;
    }
  }

  lemma FailedPage(s: State, p: nat)
    requires p in s.asking
    ensures var t := FailRequest(s, p);
      && t.pages == s.pages + [p] && t.pool == s.pool
      && forall i: nat :: Carrier(t, i) <==> Carrier(TakeBack(s, s.asking[p]), i)
  {
  }

  lemma {:induction false} ClaimantEnds(h: Bytes -> int, ls: seq<Label>, s: State, id: nat, p: nat)
    returns (more: seq<Label>)
    requires IsRun(h, ls) && s == After(h, ls) && Carrier(s, id) && s.pool[id].page == Some(p) && p in s.pages
    ensures NoFailure(more) && IsRun(h, ls + more) && !Distinct(After(h, ls + more).pages)
  {
    hide Distinct, Abort, CompletePage, IsRun, After;
    if id in s.owing {
      OwesTwice(s, id, p);
      more := [PageDone(id)];
      Snoc(h, ls, PageDone(id));
    } else {
      var key := s.pool[id].key;
      EndTwice(s, id, p);
      Snoc(h, ls, Aborted(key));
      Snoc(h, ls + [Aborted(key)], PageDone(id));
      more := [Aborted(key), PageDone(id)];
      assert ls + more == ls + [Aborted(key)] + [PageDone(id)];
    }
  }

  lemma OwesTwice(s: State, id: nat, page: nat)
    requires id < |s.pool| && s.pool[id].page == Some(page) && page in s.pages
    ensures !Distinct(CompletePage(s, id).pages)
  {
    Twice(s.pages, page);
  }

  lemma EndTwice(s: State, id: nat, page: nat)
    requires IsCurrent(s, id) && s.pool[id].page == Some(page) && page in s.pages
    ensures var t := Abort(s, s.pool[id].key);
      |t.pool| == |s.pool| && id in t.owing && !Distinct(CompletePage(t, id).pages)
  {
    Twice(s.pages, page);
  }

  lemma Twice(list: seq<nat>, p: nat)
    requires p in list
    ensures !Distinct(list + [p])
  {
    var i :| 0 <= i < |list| && list[i] == p;
    assert (list + [p])[i] == (list + [p])[|list|];
  }

  /** A new entry that is still in its place when its request fails is not claimed. */
  lemma {:induction false} InPlaceUnclaimed(h: Bytes -> int, ls: seq<Label>, p: nat)
    requires IsRun(h, ls) && UnclaimedRun(h, ls)
    requires var s := After(h, ls); p in s.asking && s.asking[p].created && IsCurrent(s, s.asking[p].id)
    ensures !Claimed(After(h, ls), p)
  {
    RunOwned(h, ls);
    RunTidy(h, ls);
    hide After, IsRun;
    var s := After(h, ls);
    var id := s.asking[p].id;
    assert Carrier(s, id) && id !in s.owing;
    assert forall i: nat | Carrier(TakeBack(s, s.asking[p]), i) :: Carrier(s, i) && i != id;
  }

  /** It happens with every path, session and content, to a live session that is retargeted, and to a
      temporary entry that gives way to a session before its request fails. */
  function Retargeting(path: string, sessionId: string, hash: Option<int>, size: int): seq<Label> {
    [Expect(path, hash, size), RequestSent(0), Announced(path, sessionId, 1, hash, size), Retarget(1, hash, size),
     RequestFailed(1), Aborted(sessionId), PageDone(1)]
  }

  function Converting(path: string, sessionId: string, hash: Option<int>, size: int): seq<Label> {
    [Expect(path, hash, size), Expect(path, hash, size), RequestSent(0), Announced(path, sessionId, 1, hash, size),
     RequestFailed(1), Aborted(sessionId), PageDone(2)]
  }

  lemma {:induction false} StepAt(h: Bytes -> int, ls: seq<Label>, n: nat, s: State, t: State)
    requires n < |ls| && (n == 0 ==> s == INITIAL)
    requires n > 0 ==> IsRun(h, ls[..n]) && After(h, ls[..n]) == s
    requires Enabled(s, ls[n]) && Apply(h, s, ls[n]) == t
    ensures IsRun(h, ls[..n + 1]) && After(h, ls[..n + 1]) == t
  {
    if n == 0 {
      assert ls[..n] == [];
      assert IsRun(h, []) && After(h, []) == INITIAL;
    }
    assert ls[..n + 1][..n] == ls[..n];
  }

  /** After the first announcement has got its session. */
  function Live(path: string, sessionId: string, hash: Option<int>, size: int): State {
    INITIAL.(
      pool := [Download(TempKey(path), 0, hash, size, Some(0), {}, false, false),
               Download(sessionId, 1, hash, size, Some(0), {}, false, false)],
      current := map[sessionId := 1], announced := 1)
  }

  lemma GetsLive(h: Bytes -> int, path: string, sessionId: string, hash: Option<int>, size: int)
    requires !IsTemp(sessionId)
    ensures var ls := Retargeting(path, sessionId, hash, size)[..3];
      IsRun(h, ls) && After(h, ls) == Live(path, sessionId, hash, size)
  {
    var ls := Retargeting(path, sessionId, hash, size);
    var s1 := Expecting(INITIAL, path, hash, size);
    var s2 := s1.(asking := map[]);
    hide IsRun, After;
    StepAt(h, ls, 0, INITIAL, s1);
    StepAt(h, ls, 1, s1, s2);
    assert Announce(s2, path, sessionId, 1, hash, size) == Live(path, sessionId, hash, size);
    StepAt(h, ls, 2, s2, Live(path, sessionId, hash, size));
  }

  lemma RetargetedTwice(h: Bytes -> int, path: string, sessionId: string, hash: Option<int>, size: int)
    requires !IsTemp(sessionId)
    ensures var ls := Retargeting(path, sessionId, hash, size); IsRun(h, ls) && After(h, ls).pages == [1, 1]
  {
    hide IsRun, After;
    var ls, s3 := Retargeting(path, sessionId, hash, size), Live(path, sessionId, hash, size);
    var s4 := Retargeted(s3, 1, hash, size);
    var s5 := FailRequest(s4, 1);
    var s6 := Abort(s5, sessionId);
    GetsLive(h, path, sessionId, hash, size);
    StepAt(h, ls, 3, s3, s4);
    StepAt(h, ls, 4, s4, s5);
    StepAt(h, ls, 5, s5, s6);
    StepAt(h, ls, 6, s6, CompletePage(s6, 1));
    assert ls[..7] == ls;
  }

  /** After the second of two announcements in a row has passed on to the session of the first. */
  function PassedOn(path: string, sessionId: string, hash: Option<int>, size: int): State {
    INITIAL.(
      pool := [Download(TempKey(path), 0, hash, size, Some(0), {}, false, false),
               Download(TempKey(path), 0, hash, size, Some(1), {}, false, false),
               Download(sessionId, 1, hash, size, Some(1), {}, false, false)],
      current := map[sessionId := 2], announced := 2, asking := map[1 := Ask(1, true)])
  }

  lemma LastPassesOn(path: string, sessionId: string, hash: Option<int>, size: int)
    requires !IsTemp(sessionId)
    ensures var s := Expecting(Expecting(INITIAL, path, hash, size), path, hash, size);
      && 0 in s.asking
      && Announce(s.(asking := s.asking - {0}), path, sessionId, 1, hash, size) == PassedOn(path, sessionId, hash, size)
  {
    var s1 := Expecting(INITIAL, path, hash, size);
    var s := Expecting(s1, path, hash, size);
    assert s1.current == map[TempKey(path) := 0];
    assert s.asking - {0} == map[1 := Ask(1, true)] && s.current == map[TempKey(path) := 1];
    assert TempKey(path) != sessionId;
    assert s.current[sessionId := 2] - {TempKey(path)} == map[sessionId := 2];
  }

  lemma PassesOn(h: Bytes -> int, path: string, sessionId: string, hash: Option<int>, size: int)
    requires !IsTemp(sessionId)
    ensures var ls := Converting(path, sessionId, hash, size)[..4];
      IsRun(h, ls) && After(h, ls) == PassedOn(path, sessionId, hash, size)
  {
    var ls, last := Converting(path, sessionId, hash, size), PassedOn(path, sessionId, hash, size);
    var s1 := Expecting(INITIAL, path, hash, size);
    var s2 := Expecting(s1, path, hash, size);
    var s3 := s2.(asking := s2.asking - {0});
    hide IsRun, After;
    LastPassesOn(path, sessionId, hash, size);
    hide Expecting, Announce;
    StepAt(h, ls, 0, INITIAL, s1);
    StepAt(h, ls, 1, s1, s2);
    StepAt(h, ls, 2, s2, s3);
    StepAt(h, ls, 3, s3, last);
  }

  lemma ConvertedTwice(h: Bytes -> int, path: string, sessionId: string, hash: Option<int>, size: int)
    requires !IsTemp(sessionId)
    ensures var ls := Converting(path, sessionId, hash, size); IsRun(h, ls) && After(h, ls).pages == [1, 1]
  {
    hide IsRun, After;
    var ls, s4 := Converting(path, sessionId, hash, size), PassedOn(path, sessionId, hash, size);
    var s5 := FailRequest(s4, 1);
    var s6 := Abort(s5, sessionId);
    PassesOn(h, path, sessionId, hash, size);
    StepAt(h, ls, 4, s4, s5);
    assert TempKey(path) != sessionId;
    StepAt(h, ls, 5, s5, s6);
    StepAt(h, ls, 6, s6, CompletePage(s6, 2));
    assert ls[..7] == ls;
  }
}
