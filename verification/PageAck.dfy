/** Cumulative page acknowledgement of `internal/sync/runtime_helpers.go`, for one page tracker. */
module PageAck {
  import opened Options

  datatype Page = Page(total: int, completed: int, last: bool)

  /** A page registration, or an item completion with the page it is attributed to, if any. */
  datatype Event = Register(index: int, total: int, last: bool) | Complete(page: Option<int>)

  // ----- The tracker -----------------------------------------------------------------------------

  datatype Tracker = Tracker(watermark: int, pages: map<int, Page>)

  const FRESH: Tracker := Tracker(0, map[])

  predicate AtRest(t: Tracker) {
    t.watermark !in t.pages || t.pages[t.watermark].last
    || t.pages[t.watermark].completed < t.pages[t.watermark].total
  }

  /** Drop finished pages from the front. */
  function Advance(t: Tracker): Tracker
    decreases |t.pages|
  {
    if AtRest(t) then t
    else
      assert t.pages.Keys == (t.pages - {t.watermark}).Keys + {t.watermark};
      Advance(Tracker(t.watermark + 1, t.pages - {t.watermark}))
  }

  /** The effect of an event before the watermark moves. */
  function Raw(t: Tracker, e: Event): Tracker {
    match e
    case Register(index, total, last) =>
      if index in t.pages then t else t.(pages := t.pages[index := Page(total, 0, last)])
    case Complete(None) => t
    case Complete(Some(p)) =>
      if p !in t.pages || t.pages[p].completed >= t.pages[p].total then t
      else t.(pages := t.pages[p := t.pages[p].(completed := t.pages[p].completed + 1)])
  }

  /** A completion that counts for nothing does not even look at the watermark. */
  function Step(t: Tracker, e: Event): Tracker {
    if e.Complete? && Raw(t, e) == t then t else Advance(Raw(t, e))
  }

  function Run(events: seq<Event>): Tracker {
    if events == [] then FRESH else Step(Run(events[..|events| - 1]), events[|events| - 1])
  }

  /** The acks decided under the lock, oldest first. */
  function Acks(events: seq<Event>): seq<int> {
    if events == [] then []
    else
      var before, after := Run(events[..|events| - 1]), Run(events);
      Acks(events[..|events| - 1]) + (if after.watermark > before.watermark then [after.watermark - 1] else [])
  }

  class SyncPageTracker {
    var ackWatermark: int
    var pages: map<int, Page>

    ghost function State(): Tracker
      reads this
    {
      Tracker(ackWatermark, pages)
    }

    constructor ()
      ensures State() == FRESH
    {
      ackWatermark, pages := 0, map[];
    }

    /** `advanceSyncPageAckLocked`; the result is the page to acknowledge, if any. */
    method AdvanceSyncPageAck() returns (ack: Option<int>)
      requires ackWatermark >= 0
      modifies this
      ensures State() == Advance(old(State())) && ackWatermark >= old(ackWatermark)
      ensures ack == if ackWatermark > old(ackWatermark) then Some(ackWatermark - 1) else None
    {
      var highest := -1;
      while true
        invariant ackWatermark >= old(ackWatermark)
        invariant Advance(State()) == Advance(old(State()))
        invariant highest == if ackWatermark > old(ackWatermark) then ackWatermark - 1 else -1
        decreases |pages|
      {
        if ackWatermark !in pages || pages[ackWatermark].last
           || pages[ackWatermark].completed < pages[ackWatermark].total {
          break;
        }
        assert pages.Keys == (pages - {ackWatermark}).Keys + {ackWatermark};
        highest := ackWatermark;
        pages := pages - {ackWatermark};
        ackWatermark := ackWatermark + 1;
      }
      ack := if highest < 0 then None else Some(highest);
    }

    /** `handleSyncPage`: the first registration of a page wins. */
    method HandleSyncPage(index: int, total: int, last: bool) returns (ack: Option<int>)
      requires ackWatermark >= 0
      modifies this
      ensures State() == Step(old(State()), Register(index, total, last)) && ackWatermark >= old(ackWatermark)
      ensures ack == if ackWatermark > old(ackWatermark) then Some(ackWatermark - 1) else None
    {
      if index !in pages {
        pages := pages[index := Page(total, 0, last)];
      }
      ack := AdvanceSyncPageAck();
    }

    /** `completeSyncPageLocked`. */
    method CompleteSyncPage(page: Option<int>) returns (ack: Option<int>)
      requires ackWatermark >= 0
      modifies this
      ensures State() == Step(old(State()), Complete(page)) && ackWatermark >= old(ackWatermark)
      ensures ack == if ackWatermark > old(ackWatermark) then Some(ackWatermark - 1) else None
    {
      if page.None? || page.value !in pages || pages[page.value].completed >= pages[page.value].total {
        return None;
      }
      var p := pages[page.value];
      pages := pages[page.value := p.(completed := p.completed + 1)];
      ack := AdvanceSyncPageAck();
    }
  }

  // ----- What the tracker means ---------------------------------------------------------------------

  /** The history of one page: its first registration, and every completion since. */
  datatype Tally = Unregistered | Tally(total: int, last: bool, done: nat) {
    predicate Finished() { Tally? && !last && done >= total }
  }

  function TallyOf(events: seq<Event>, p: int): Tally {
    if events == [] then Unregistered
    else
      var before := TallyOf(events[..|events| - 1], p);
      match events[|events| - 1]
      case Register(index, total, last) =>
        if index == p && before.Unregistered? then Tally(total, last, 0) else before
      case Complete(page) =>
        if page == Some(p) && before.Tally? then before.(done := before.done + 1) else before
  }

  /** `k` is the largest number such that pages `0..k-1` are all finished. */
  ghost predicate IsWatermark(events: seq<Event>, k: int) {
    k >= 0 && (forall p | 0 <= p < k :: TallyOf(events, p).Finished()) && !TallyOf(events, k).Finished()
  }

  function Entry(t: Tally): Page
    requires t.Tally?
  {
    Page(t.total, if t.total <= 0 then 0 else if t.done < t.total then t.done else t.total, t.last)
  }

  /** A page that the watermark has not passed is kept exactly as its history says. */
  ghost predicate Tracks(events: seq<Event>, t: Tracker, p: int) {
    && (p in t.pages <==> TallyOf(events, p).Tally?)
    && (p in t.pages ==> t.pages[p] == Entry(TallyOf(events, p)))
  }

  predicate Passed(t: Tracker, p: int) { 0 <= p < t.watermark }

  ghost predicate RegisteredAgain(events: seq<Event>, p: int) {
    exists i, j | 0 <= i < j < |events| ::
      events[i].Register? && events[i].index == p && events[j].Register? && events[j].index == p
  }

  ghost predicate Sound(events: seq<Event>, t: Tracker) {
    && t.watermark >= 0
    && (forall p | !Passed(t, p) :: Tracks(events, t, p))
    && (forall p | Passed(t, p) :: TallyOf(events, p).Finished())
    && (forall p | Passed(t, p) && p in t.pages :: RegisteredAgain(events, p))
  }

  lemma PopSound(events: seq<Event>, t: Tracker)
    requires Sound(events, t) && !AtRest(t)
    ensures Sound(events, Tracker(t.watermark + 1, t.pages - {t.watermark}))
  {
    hide TallyOf, RegisteredAgain;
    var next := Tracker(t.watermark + 1, t.pages - {t.watermark});
    assert Tracks(events, t, t.watermark);
    forall p ensures !Passed(next, p) ==> Tracks(events, next, p)
             ensures Passed(next, p) ==> TallyOf(events, p).Finished()
    {
      assert Passed(t, p) || Tracks(events, t, p);
    }
  }

  lemma {:induction false} AdvanceSound(events: seq<Event>, t: Tracker)
    requires Sound(events, t)
    ensures Sound(events, Advance(t)) && AtRest(Advance(t)) && Advance(t).watermark >= t.watermark
    decreases |t.pages|
  {
    hide Sound;
    if !AtRest(t) {
      PopSound(events, t);
      assert t.pages.Keys == (t.pages - {t.watermark}).Keys + {t.watermark};
      AdvanceSound(events, Tracker(t.watermark + 1, t.pages - {t.watermark}));
    }
  }

  lemma HistoryOnlyGrows(events: seq<Event>, e: Event, p: int)
    ensures TallyOf(events, p).Finished() ==> TallyOf(events + [e], p).Finished()
    ensures RegisteredAgain(events, p) ==> RegisteredAgain(events + [e], p)
  {
    assert (events + [e])[..|events|] == events;
    if RegisteredAgain(events, p) {
      var i, j :| 0 <= i < j < |events| && events[i].Register? && events[i].index == p
                  && events[j].Register? && events[j].index == p;
      assert (events + [e])[i] == events[i] && (events + [e])[j] == events[j];
    }
  }

  lemma {:induction false} RegisteredHasEvent(events: seq<Event>, p: int)
    requires TallyOf(events, p).Tally?
    ensures exists i | 0 <= i < |events| :: events[i].Register? && events[i].index == p
  {
    var n := |events| - 1;
    if TallyOf(events[..n], p).Tally? {
      RegisteredHasEvent(events[..n], p);
      var i :| 0 <= i < n && events[..n][i].Register? && events[..n][i].index == p;
      assert events[i] == events[..n][i];
    }
  }

  lemma RawSound(events: seq<Event>, t: Tracker, e: Event)
    requires Sound(events, t)
    ensures Sound(events + [e], Raw(t, e))
  {
    var all, raw := events + [e], Raw(t, e);
    assert all[..|events|] == events && all[|events|] == e;
    forall p ensures !Passed(raw, p) ==> Tracks(all, raw, p)
             ensures Passed(raw, p) ==> TallyOf(all, p).Finished()
    {
      assert Passed(t, p) || Tracks(events, t, p);
      HistoryOnlyGrows(events, e, p);
    }
    forall p | Passed(raw, p) && p in raw.pages ensures RegisteredAgain(all, p) {
      HistoryOnlyGrows(events, e, p);
      if p !in t.pages {
        RegisteredHasEvent(events, p);
        var i :| 0 <= i < |events| && events[i].Register? && events[i].index == p;
        assert all[i] == events[i] && all[|events|] == e;
      }
    }
  }

  lemma {:induction false} RunSound(events: seq<Event>)
    ensures Sound(events, Run(events)) && AtRest(Run(events))
  {
    if events != [] {
      var h, e := events[..|events| - 1], events[|events| - 1];
      assert events == h + [e];
      RunSound(h);
      RawSound(h, Run(h), e);
      AdvanceSound(events, Raw(Run(h), e));
      assert AtRest(Raw(Run(h), e)) ==> Advance(Raw(Run(h), e)) == Raw(Run(h), e);
    }
  }

  /** After any sequence of events the watermark is the one the history defines. */
  lemma WatermarkRefines(events: seq<Event>)
    ensures IsWatermark(events, Run(events).watermark)
  {
    RunSound(events);
    assert Tracks(events, Run(events), Run(events).watermark);
  }

  lemma {:induction false} WatermarkGrows(events: seq<Event>)
    requires events != []
    ensures Run(events[..|events| - 1]).watermark <= Run(events).watermark
  {
    var h, e := events[..|events| - 1], events[|events| - 1];
    assert events == h + [e];
    RunSound(h);
    RawSound(h, Run(h), e);
    AdvanceSound(events, Raw(Run(h), e));
  }

  /** Acks are strictly increasing and the latest one is the watermark minus one. */
  lemma {:induction false} AcksMatchWatermark(events: seq<Event>)
    ensures var acks := Acks(events);
      && (forall i, j | 0 <= i < j < |acks| :: acks[i] < acks[j])
      && (forall i | 0 <= i < |acks| :: 0 <= acks[i] < Run(events).watermark)
      && (acks == [] <==> Run(events).watermark == 0)
      && (acks != [] ==> acks[|acks| - 1] == Run(events).watermark - 1)
  {
    if events != [] {
      hide Step;
      AcksMatchWatermark(events[..|events| - 1]);
      WatermarkGrows(events);
    }
  }

  /** No ack names a final page or anything past it. */
  lemma FinalPageNeverAcked(events: seq<Event>, p: nat, ack: int)
    requires TallyOf(events, p).Tally? && TallyOf(events, p).last && ack in Acks(events)
    ensures ack < p
  {
    hide Step;
    AcksMatchWatermark(events);
    WatermarkRefines(events);
  }

  // ----- Order independence -----------------------------------------------------------------------

  /** Each page is registered at most once, before anything is completed on it. */
  predicate Orderly(events: seq<Event>) {
    events == [] ||
    var h, e := events[..|events| - 1], events[|events| - 1];
    Orderly(h) && (e.Register? ==>
      Complete(Some(e.index)) !in h && forall r | r in h :: !(r.Register? && r.index == e.index))
  }

  /** For an orderly history only the collection of events matters. */
  lemma {:induction false} TallyCounts(events: seq<Event>, p: int)
    requires Orderly(events)
    ensures match TallyOf(events, p)
            case Unregistered => forall r | r in events :: !(r.Register? && r.index == p)
            case Tally(total, last, done) =>
              && (forall r | r in events && r.Register? && r.index == p :: r == Register(p, total, last))
              && Register(p, total, last) in events
              && done == multiset(events)[Complete(Some(p))]
  {
    if events != [] {
      var h, e := events[..|events| - 1], events[|events| - 1];
      assert events == h + [e];
      TallyCounts(h, p);
      assert multiset(events) == multiset(h) + multiset{e};
    }
  }

  lemma SameTally(a: seq<Event>, b: seq<Event>, p: int)
    requires Orderly(a) && Orderly(b) && multiset(a) == multiset(b)
    ensures TallyOf(a, p) == TallyOf(b, p)
  {
    TallyCounts(a, p);
    TallyCounts(b, p);
    assert forall r :: r in a <==> r in multiset(a);
    assert forall r :: r in b <==> r in multiset(b);
  }

  lemma {:induction false} OrderlyOnce(events: seq<Event>, p: int)
    requires Orderly(events)
    ensures !RegisteredAgain(events, p)
  {
    if events != [] {
      var n := |events| - 1;
      OrderlyOnce(events[..n], p);
      assert forall i | 0 <= i < n :: events[..n][i] == events[i];
    }
  }

  /** Two orderly interleavings of the same events end in the same state, and their highest acks
      agree. */
  lemma OrderIndependent(a: seq<Event>, b: seq<Event>)
    requires Orderly(a) && Orderly(b) && multiset(a) == multiset(b)
    ensures Run(a) == Run(b)
    ensures (Acks(a) == [] <==> Acks(b) == [])
         && (Acks(a) != [] ==> Acks(a)[|Acks(a)| - 1] == Acks(b)[|Acks(b)| - 1])
  {
    var s, t := Run(a), Run(b);
    forall p ensures TallyOf(a, p) == TallyOf(b, p) {
      SameTally(a, b, p);
    }
    WatermarkRefines(a);
    WatermarkRefines(b);
    RunSound(a);
    RunSound(b);
    assert s.watermark == t.watermark;
    forall p ensures p in s.pages <==> p in t.pages
             ensures p in s.pages ==> s.pages[p] == t.pages[p]
    {
      OrderlyOnce(a, p);
      OrderlyOnce(b, p);
      assert Passed(s, p) || (Tracks(a, s, p) && Tracks(b, t, p));
    }
    assert s.pages == t.pages;
    AcksMatchWatermark(a);
    AcksMatchWatermark(b);
  }
}
