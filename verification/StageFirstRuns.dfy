/** Whole runs of the stage-first controller. */
module StageFirstRuns {
  import opened Prelude
  import opened Backoff
  import opened StageFirst

  datatype Tick = Tick(now: int, domains: seq<string>, sights: seq<Sighting>)

  /** The controller after some ticks: its books, everything it reported, how many
      staging entries lost their route, and the time of the last tick. */
  datatype History = History(books: Books, log: seq<Entry>, dropped: nat, now: int)

  ghost predicate WellFormed(ticks: seq<Tick>) {
    forall i :: 0 <= i < |ticks| ==> |ticks[i].domains| == |ticks[i].sights|
  }

  ghost predicate ClockForward(start: int, ticks: seq<Tick>) {
    && (forall i :: 0 <= i < |ticks| ==> start <= ticks[i].now)
    && (forall i, j :: 0 <= i < j < |ticks| ==> ticks[i].now <= ticks[j].now)
  }

  function AfterTick(c: Settings, h: History, t: Tick): History
    requires |t.domains| == |t.sights|
  {
    var p := Reconciled(c, h.books, t.now, t.domains, t.sights);
    History(p.books, h.log + p.log, h.dropped + |Dead(h.books, t.domains)|, t.now)
  }

  function Ran(c: Settings, start: int, ticks: seq<Tick>): History
    requires WellFormed(ticks)
    decreases ticks
  {
    if ticks == [] then History(EMPTY_BOOKS, [], 0, start)
    else AfterTick(c, Ran(c, start, ticks[..|ticks| - 1]), ticks[|ticks| - 1])
  }

  /** A pass adds its own entries to whatever was reported before. */
  lemma {:induction false} VisitAllAppends(c: Settings, b: Books, log: seq<Entry>, now: int, domains: seq<string>, sights: seq<Sighting>)
    requires |domains| == |sights|
    ensures var p, q := VisitAll(c, Pass(b, log), now, domains, sights), VisitAll(c, Pass(b, []), now, domains, sights);
            p == Pass(q.books, log + q.log)
    decreases domains
  {
    if domains == [] {
      assert log + [] == log;
    } else {
      var n := |domains| - 1;
      VisitAllAppends(c, b, log, now, domains[..n], sights[..n]);
      VisitedAppends(c, VisitAll(c, Pass(b, []), now, domains[..n], sights[..n]), log, now, domains[n], sights[n]);
    }
  }

  lemma VisitedAppends(c: Settings, p: Pass, log: seq<Entry>, now: int, d: string, s: Sighting)
    ensures var q := Visited(c, p, now, d, s); Visited(c, Pass(p.books, log + p.log), now, d, s) == Pass(q.books, log + q.log)
  {
    var stamped := Stamp(now, d, VisitDomain(c, p.books, now, d, s).notes);
    assert log + p.log + stamped == log + (p.log + stamped);
  }

  // ---- Each domain is in at most one place -----------------------------------------------

  ghost predicate Exclusive(b: Books) {
    && b.staging !! b.pendingProd.Keys
    && b.staging !! b.backoff.Keys
    && b.staging !! b.prodBackoff.Keys
    && b.pendingProd.Keys !! b.backoff.Keys
    && b.pendingProd.Keys !! b.prodBackoff.Keys
    && b.backoff.Keys !! b.prodBackoff.Keys
  }

  lemma DecideExclusive(c: Settings, b: Books, now: int, d: string, issued: bool)
    requires Exclusive(b) && d !in b.staging && d !in b.pendingProd
    ensures Exclusive(Decide(c, b, now, d, issued).books)
  {
  }

  lemma VisitExclusive(c: Settings, b: Books, now: int, d: string, s: Sighting)
    requires Exclusive(b)
    ensures Exclusive(VisitDomain(c, b, now, d, s).books)
  {
    if d !in b.staging && (d !in b.pendingProd || s.issued) {
      var b1 := if d !in b.pendingProd then b
                else b.(pendingProd := b.pendingProd - {d}, prodFails := b.prodFails - {d}, prodBackoff := b.prodBackoff - {d});
      DecideExclusive(c, b1, now, d, s.issuedAgain);
    }
  }

  // ---- Accounting -----------------------------------------------------------------------

  /** How a note changes the number of staging entries, and of pending promotions. */
  function StagingWeight(n: Note): int {
    if n.Staged? then 1 else if n.Promoted? || n.StageFailed? || n.Converged? then -1 else 0
  }

  function PendingWeight(n: Note): int {
    if n.Promoted? then 1 else if n.ProdIssued? || n.ProdFailed? then -1 else 0
  }

  function Net(log: seq<Entry>, w: Note -> int): int {
    if log == [] then 0 else Net(log[..|log| - 1], w) + w(log[|log| - 1].note)
  }

  lemma {:induction false} NetConcat(a: seq<Entry>, b: seq<Entry>, w: Note -> int)
    ensures Net(a + b, w) == Net(a, w) + Net(b, w)
    decreases b
  {
    if b == [] {
      assert a + b == a;
    } else {
      assert (a + b)[..|a + b| - 1] == a + b[..|b| - 1];
      NetConcat(a, b[..|b| - 1], w);
    }
  }

  /** The total weight of the at most two notes of a visit. */
  function Weigh(notes: seq<Note>, w: Note -> int): int {
    (if |notes| > 0 then w(notes[0]) else 0) + (if |notes| > 1 then w(notes[1]) else 0)
  }

  lemma NetOfVisit(now: int, d: string, notes: seq<Note>, w: Note -> int)
    requires |notes| <= 2
    ensures Net(Stamp(now, d, notes), w) == Weigh(notes, w)
  {
    var log := Stamp(now, d, notes);
    if |notes| == 2 {
      assert log[..|log| - 1] == [log[0]];
      assert Net([log[0]], w) == w(notes[0]);
    }
  }

  lemma DecideBalances(c: Settings, b: Books, now: int, d: string, issued: bool)
    requires d !in b.staging
    ensures var v := Decide(c, b, now, d, issued);
            && (v.notes == [] || v.notes == [Staged])
            && |v.books.staging| == |b.staging| + |v.notes|
            && v.books.pendingProd == b.pendingProd
  {
  }

  lemma PendingWithout(b: Books, d: string)
    requires d in b.pendingProd
    ensures |b.pendingProd - {d}| == |b.pendingProd| - 1
  {
  }

  lemma PendingWith(b: Books, d: string, until: int)
    requires d !in b.pendingProd
    ensures |b.pendingProd[d := until]| == |b.pendingProd| + 1
  {
  }

  lemma StagingBalances(c: Settings, b: Books, now: int, d: string, s: Sighting)
    requires d in b.staging && d !in b.pendingProd
    ensures var v := VisitDomain(c, b, now, d, s); Balances(b, v)
  {
    PendingWith(b, d, now + PENDING_WINDOW);
    assert b.pendingProd - {d} == b.pendingProd;
    var v := VisitDomain(c, b, now, d, s);
    assert |v.notes| <= 1 && (v.notes == [] ==> v.books == b);
    assert v.notes != [] ==> v.books.staging == b.staging - {d};
  }

  lemma PendingBalances(c: Settings, b: Books, now: int, d: string, s: Sighting)
    requires d !in b.staging && d in b.pendingProd
    ensures var v := VisitDomain(c, b, now, d, s); Balances(b, v)
  {
    PendingWithout(b, d);
    if s.issued {
      var cleared := b.(pendingProd := b.pendingProd - {d}, prodFails := b.prodFails - {d}, prodBackoff := b.prodBackoff - {d});
      DecideBalances(c, cleared, now, d, s.issuedAgain);
    }
  }

  /** The visit changes the books exactly as its notes say. */
  ghost predicate Balances(b: Books, v: Visit) {
    && |v.notes| <= 2
    && |v.books.staging| == |b.staging| + Weigh(v.notes, StagingWeight)
    && |v.books.pendingProd| == |b.pendingProd| + Weigh(v.notes, PendingWeight)
  }

  lemma VisitBalances(c: Settings, b: Books, now: int, d: string, s: Sighting)
    requires Exclusive(b)
    ensures Balances(b, VisitDomain(c, b, now, d, s))
  {
    if d in b.staging {
      StagingBalances(c, b, now, d, s);
    } else if d in b.pendingProd {
      PendingBalances(c, b, now, d, s);
    } else {
      DecideBalances(c, b, now, d, s.issuedAgain);
    }
  }

  ghost predicate Balanced(b: Books, log: seq<Entry>, dropped: nat) {
    && Exclusive(b)
    && Net(log, StagingWeight) == |b.staging| + dropped
    && Net(log, PendingWeight) == |b.pendingProd|
  }

  lemma VisitKeepsBalance(c: Settings, b: Books, log: seq<Entry>, dropped: nat, now: int, d: string, s: Sighting)
    requires Balanced(b, log, dropped)
    ensures var v := VisitDomain(c, b, now, d, s); Balanced(v.books, log + Stamp(now, d, v.notes), dropped)
  {
    var v := VisitDomain(c, b, now, d, s);
    VisitExclusive(c, b, now, d, s);
    VisitBalances(c, b, now, d, s);
    NetOfVisit(now, d, v.notes, StagingWeight);
    NetOfVisit(now, d, v.notes, PendingWeight);
    NetConcat(log, Stamp(now, d, v.notes), StagingWeight);
    NetConcat(log, Stamp(now, d, v.notes), PendingWeight);
  }

  lemma {:induction false} VisitAllBalances(c: Settings, p: Pass, dropped: nat, now: int, domains: seq<string>, sights: seq<Sighting>)
    requires |domains| == |sights| && Balanced(p.books, p.log, dropped)
    ensures var r := VisitAll(c, p, now, domains, sights); Balanced(r.books, r.log, dropped)
    decreases domains
  {
    if domains != [] {
      var n := |domains| - 1;
      VisitAllBalances(c, p, dropped, now, domains[..n], sights[..n]);
      var q := VisitAll(c, p, now, domains[..n], sights[..n]);
      VisitKeepsBalance(c, q.books, q.log, dropped, now, domains[n], sights[n]);
    }
  }

  lemma {:induction false} RunBalances(c: Settings, start: int, ticks: seq<Tick>)
    requires WellFormed(ticks)
    ensures var h := Ran(c, start, ticks); Balanced(h.books, h.log, h.dropped)
    decreases ticks
  {
    if ticks != [] {
      var n := |ticks| - 1;
      RunBalances(c, start, ticks[..n]);
      var h, t := Ran(c, start, ticks[..n]), ticks[n];
      var dead := Dead(h.books, t.domains);
      assert |h.books.staging - dead| == |h.books.staging| - |dead|;
      var b := h.books.(staging := h.books.staging - dead);
      VisitAllBalances(c, Pass(b, h.log), h.dropped + |dead|, t.now, t.domains, t.sights);
      VisitAllAppends(c, b, h.log, t.now, t.domains, t.sights);
    }
  }

  function Count(log: seq<Entry>, kind: Note -> bool): nat {
    if log == [] then 0 else Count(log[..|log| - 1], kind) + if kind(log[|log| - 1].note) then 1 else 0
  }

  function IsStaged(n: Note): bool { n.Staged? }
  function IsPromoted(n: Note): bool { n.Promoted? }
  function IsStageFailed(n: Note): bool { n.StageFailed? }
  function IsConverged(n: Note): bool { n.Converged? }
  function IsProdIssued(n: Note): bool { n.ProdIssued? }
  function IsProdFailed(n: Note): bool { n.ProdFailed? }

  lemma {:induction false} NetCounts(log: seq<Entry>)
    ensures Net(log, StagingWeight) ==
            Count(log, IsStaged) - Count(log, IsPromoted) - Count(log, IsStageFailed) - Count(log, IsConverged)
    ensures Net(log, PendingWeight) == Count(log, IsPromoted) - Count(log, IsProdIssued) - Count(log, IsProdFailed)
  {
    if log != [] {
      NetCounts(log[..|log| - 1]);
    }
  }

  /** Over every run each domain is in at most one of staging, pendingProd, backoff
      and prodBackoff; every stage entry is still staging or was promoted, failed,
      converged or dropped; every promotion is still pending or ended one way. */
  lemma {:induction false} RunAccounts(c: Settings, start: int, ticks: seq<Tick>)
    requires WellFormed(ticks)
    ensures var h := Ran(c, start, ticks);
            && Exclusive(h.books)
            && Count(h.log, IsStaged) == |h.books.staging| + Count(h.log, IsPromoted) + Count(h.log, IsStageFailed)
                                         + Count(h.log, IsConverged) + h.dropped
            && Count(h.log, IsPromoted) == |h.books.pendingProd| + Count(h.log, IsProdFailed) + Count(h.log, IsProdIssued)
  {
    RunBalances(c, start, ticks);
    NetCounts(Ran(c, start, ticks).log);
  }

  // ---- Spacing of promotions ------------------------------------------------------------

  predicate SeesProdCert(n: Note) { n.Converged? || n.ProdIssued? }

  /** The domain's latest promotion, unless a prod certificate was observed since. */
  function LastPromotion(log: seq<Entry>, d: string): Option<int> {
    if log == [] then None
    else
      var e := log[|log| - 1];
      if e.domain == d && e.note.Promoted? then Some(e.at)
      else if e.domain == d && SeesProdCert(e.note) then None
      else LastPromotion(log[..|log| - 1], d)
  }

  /** The domain's prod failures since a prod certificate was last observed. */
  function Failures(log: seq<Entry>, d: string): nat {
    if log == [] then 0
    else
      var e := log[|log| - 1];
      if e.domain == d && SeesProdCert(e.note) then 0
      else Failures(log[..|log| - 1], d) + if e.domain == d && e.note.ProdFailed? then 1 else 0
  }

  /** No promotion of a domain comes sooner after its previous one than the pending
      window plus the backoff of the failures recorded in between. */
  ghost predicate PromotionSpaced(log: seq<Entry>, j: nat)
    requires j < |log|
  {
    var d := log[j].domain;
    log[j].note.Promoted? && LastPromotion(log[..j], d).Some? ==>
      && Failures(log[..j], d) >= 1
      && log[j].at >= LastPromotion(log[..j], d).value + PENDING_WINDOW + ProdBackoffFor(Failures(log[..j], d))
  }

  ghost predicate Spaced(log: seq<Entry>) {
    forall j :: 0 <= j < |log| ==> PromotionSpaced(log, j)
  }

  /** What the books know about one domain agrees with what was reported about it. */
  ghost predicate Linked(b: Books, log: seq<Entry>, now: int, d: string) {
    var k := Failures(log, d);
    && FailCount(b, d) == k
    && (d in b.pendingProd ==> LastPromotion(log, d) == Some(b.pendingProd[d] - PENDING_WINDOW))
    && (LastPromotion(log, d).Some? && d !in b.pendingProd ==>
          var earliest := LastPromotion(log, d).value + PENDING_WINDOW + ProdBackoffFor(k);
          k >= 1 && if d in b.prodBackoff then b.prodBackoff[d] >= earliest else now >= earliest)
  }

  ghost predicate Tracked(b: Books, log: seq<Entry>, now: int) {
    Exclusive(b) && Spaced(log) && forall d :: Linked(b, log, now, d)
  }

  lemma SpacedAppend(log: seq<Entry>, e: Entry)
    requires Spaced(log) && PromotionSpaced(log + [e], |log|)
    ensures Spaced(log + [e])
  {
    forall j | 0 <= j < |log + [e]| ensures PromotionSpaced(log + [e], j) {
      if j < |log| {
        assert PromotionSpaced(log, j);
        assert (log + [e])[..j] == log[..j];
      }
    }
  }

  lemma LastEntry(log: seq<Entry>, e: Entry)
    ensures (log + [e])[..|log + [e]| - 1] == log && (log + [e])[|log + [e]| - 1] == e
  {
  }

  lemma NoteSpaced(b: Books, log: seq<Entry>, now: int, e: Entry)
    requires Tracked(b, log, now) && now <= e.at
    requires e.note.Promoted? ==> e.domain !in b.pendingProd && e.domain !in b.prodBackoff
    ensures Spaced(log + [e])
  {
    assert (log + [e])[..|log|] == log;
    assert Linked(b, log, now, e.domain);
    SpacedAppend(log, e);
  }

  /** The two books differ at most at `d` in what the spacing depends on. */
  ghost predicate SameElsewhere(b: Books, b': Books, d: string) {
    && b.prodFails - {d} == b'.prodFails - {d}
    && b.pendingProd - {d} == b'.pendingProd - {d}
    && b.prodBackoff - {d} == b'.prodBackoff - {d}
  }

  lemma ElsewhereAt(b: Books, b': Books, d: string, x: string)
    requires SameElsewhere(b, b', d) && x != d
    ensures FailCount(b, x) == FailCount(b', x)
    ensures x in b.pendingProd <==> x in b'.pendingProd
    ensures x in b.pendingProd ==> b.pendingProd[x] == b'.pendingProd[x]
    ensures x in b.prodBackoff <==> x in b'.prodBackoff
    ensures x in b.prodBackoff ==> b.prodBackoff[x] == b'.prodBackoff[x]
  {
    assert x in b.prodFails <==> x in b.prodFails - {d};
    assert x in b'.prodFails <==> x in b'.prodFails - {d};
    assert x in b.pendingProd <==> x in b.pendingProd - {d};
    assert x in b'.pendingProd <==> x in b'.pendingProd - {d};
    assert x in b.prodBackoff <==> x in b.prodBackoff - {d};
    assert x in b'.prodBackoff <==> x in b'.prodBackoff - {d};
  }

  /** A change of the books that is reported by one entry. */
  lemma TrackNote(b: Books, b': Books, log: seq<Entry>, now: int, e: Entry)
    requires Tracked(b, log, now) && now <= e.at && Exclusive(b') && SameElsewhere(b, b', e.domain)
    requires e.note.Promoted? ==> e.domain in b.staging
    requires Linked(b', log + [e], e.at, e.domain)
    ensures Tracked(b', log + [e], e.at)
  {
    NoteSpaced(b, log, now, e);
    forall x ensures Linked(b', log + [e], e.at, x) {
      if x != e.domain {
        assert Linked(b, log, now, x);
        ElsewhereAt(b, b', e.domain, x);
        LastEntry(log, e);
      }
    }
  }

  /** A change of the books that is not reported. */
  lemma TrackQuiet(b: Books, b': Books, log: seq<Entry>, now: int, now': int, d: string)
    requires Tracked(b, log, now) && now <= now' && Exclusive(b') && SameElsewhere(b, b', d)
    requires Linked(b', log, now', d)
    ensures Tracked(b', log, now')
  {
    forall x ensures Linked(b', log, now', x) {
      if x != d {
        assert Linked(b, log, now, x);
        ElsewhereAt(b, b', d, x);
      }
    }
  }

  lemma LinkDecide(c: Settings, b: Books, log: seq<Entry>, now: int, now': int, d: string, issued: bool)
    requires Linked(b, log, now, d) && now <= now' && d !in b.staging && d !in b.pendingProd
    ensures var v := Decide(c, b, now', d, issued);
            && SameElsewhere(b, v.books, d)
            && (v.notes == [] ==> Linked(v.books, log, now', d))
            && (v.notes != [] ==> v.notes == [Staged] && Linked(v.books, log + [Entry(now', d, Staged)], now', d))
  {
    LastEntry(log, Entry(now', d, Staged));
  }

  lemma TrackDecide(c: Settings, b: Books, log: seq<Entry>, now: int, now': int, d: string, issued: bool)
    requires Tracked(b, log, now) && now <= now' && d !in b.staging && d !in b.pendingProd
    ensures var v := Decide(c, b, now', d, issued); Tracked(v.books, log + Stamp(now', d, v.notes), now')
  {
    DecideExclusive(c, b, now', d, issued);
    LinkDecide(c, b, log, now, now', d, issued);
    TrackOne(b, Decide(c, b, now', d, issued), log, now, now', d);
  }

  /** A visit with at most one note keeps the books tracked if it keeps its own domain linked. */
  lemma TrackOne(b: Books, v: Visit, log: seq<Entry>, now: int, now': int, d: string)
    requires Tracked(b, log, now) && now <= now' && Exclusive(v.books) && SameElsewhere(b, v.books, d) && |v.notes| <= 1
    requires v.notes == [] ==> Linked(v.books, log, now', d)
    requires v.notes != [] ==> Linked(v.books, log + [Entry(now', d, v.notes[0])], now', d)
    requires v.notes == [Promoted] ==> d in b.staging
    ensures Tracked(v.books, log + Stamp(now', d, v.notes), now')
  {
    if v.notes == [] {
      assert log + Stamp(now', d, v.notes) == log;
      TrackQuiet(b, v.books, log, now, now', d);
    } else {
      assert Stamp(now', d, v.notes) == [Entry(now', d, v.notes[0])];
      TrackNote(b, v.books, log, now, Entry(now', d, v.notes[0]));
    }
  }

  /** What one more entry about a domain changes in what was reported about it. */
  lemma NoteCounts(log: seq<Entry>, e: Entry)
    ensures LastPromotion(log + [e], e.domain) ==
            if e.note.Promoted? then Some(e.at) else if SeesProdCert(e.note) then None else LastPromotion(log, e.domain)
    ensures Failures(log + [e], e.domain) ==
            if SeesProdCert(e.note) then 0 else Failures(log, e.domain) + if e.note.ProdFailed? then 1 else 0
  {
    LastEntry(log, e);
  }

  lemma LinkConverged(b: Books, log: seq<Entry>, now: int, d: string)
    requires d !in b.pendingProd && d !in b.prodFails
    ensures Linked(b, log + [Entry(now, d, Converged)], now, d)
  {
    NoteCounts(log, Entry(now, d, Converged));
  }

  lemma LinkPromoted(b: Books, log: seq<Entry>, now: int, d: string)
    requires FailCount(b, d) == Failures(log, d) && d in b.pendingProd && b.pendingProd[d] == now + PENDING_WINDOW
    ensures Linked(b, log + [Entry(now, d, Promoted)], now, d)
  {
    NoteCounts(log, Entry(now, d, Promoted));
  }

  lemma LinkStageFailed(b: Books, b': Books, log: seq<Entry>, now: int, now': int, d: string)
    requires Linked(b, log, now, d) && now <= now' && d !in b.pendingProd && d !in b.prodBackoff
    requires b' == b.(staging := b'.staging, backoff := b'.backoff)
    ensures Linked(b', log + [Entry(now', d, StageFailed)], now', d)
  {
    NoteCounts(log, Entry(now', d, StageFailed));
  }

  lemma LinkStaging(c: Settings, b: Books, log: seq<Entry>, now: int, now': int, d: string, s: Sighting)
    requires Linked(b, log, now, d) && now <= now'
    requires d in b.staging && d !in b.pendingProd && d !in b.prodBackoff
    ensures var v := VisitDomain(c, b, now', d, s);
            && |v.notes| <= 1
            && SameElsewhere(b, v.books, d)
            && (v.notes == [] ==> Linked(v.books, log, now', d))
            && (v.notes != [] ==> Linked(v.books, log + [Entry(now', d, v.notes[0])], now', d))
  {
    var b' := VisitDomain(c, b, now', d, s).books;
    if s.issued {
      LinkConverged(b', log, now', d);
    } else {
      match s.chain
      case Missing =>
      case Bad => LinkStageFailed(b, b', log, now, now', d);
      case Good => LinkPromoted(b', log, now', d);
    }
  }

  lemma LinkPending(c: Settings, b: Books, log: seq<Entry>, now: int, now': int, d: string, s: Sighting)
    requires Linked(b, log, now, d) && now <= now' && d !in b.staging && d in b.pendingProd && !s.issued
    ensures var v := VisitDomain(c, b, now', d, s);
            && |v.notes| <= 1
            && SameElsewhere(b, v.books, d)
            && (v.notes == [] ==> Linked(v.books, log, now', d))
            && (v.notes != [] ==> v.notes[0].ProdFailed? && Linked(v.books, log + [Entry(now', d, v.notes[0])], now', d))
  {
    var v := VisitDomain(c, b, now', d, s);
    if v.notes != [] {
      LastEntry(log, Entry(now', d, v.notes[0]));
    }
  }

  lemma TrackIssued(c: Settings, b: Books, log: seq<Entry>, now: int, now': int, d: string, s: Sighting)
    requires Tracked(b, log, now) && now <= now' && d !in b.staging && d in b.pendingProd && s.issued
    ensures var v := VisitDomain(c, b, now', d, s); Tracked(v.books, log + Stamp(now', d, v.notes), now')
  {
    var cleared := b.(pendingProd := b.pendingProd - {d}, prodFails := b.prodFails - {d}, prodBackoff := b.prodBackoff - {d});
    var e := Entry(now', d, ProdIssued);
    LastEntry(log, e);
    TrackNote(b, cleared, log, now, e);
    TrackDecide(c, cleared, log + [e], now', now', d, s.issuedAgain);
    var rest := Decide(c, cleared, now', d, s.issuedAgain).notes;
    assert log + [e] + Stamp(now', d, rest) == log + Stamp(now', d, [ProdIssued] + rest);
  }

  lemma TrackVisit(c: Settings, b: Books, log: seq<Entry>, now: int, now': int, d: string, s: Sighting)
    requires Tracked(b, log, now) && now <= now'
    ensures var v := VisitDomain(c, b, now', d, s); Tracked(v.books, log + Stamp(now', d, v.notes), now')
  {
    if d in b.pendingProd && s.issued {
      TrackIssued(c, b, log, now, now', d, s);
    } else if d in b.staging || d in b.pendingProd {
      VisitExclusive(c, b, now', d, s);
      assert Linked(b, log, now, d);
      if d in b.staging {
        LinkStaging(c, b, log, now, now', d, s);
      } else {
        LinkPending(c, b, log, now, now', d, s);
      }
      TrackOne(b, VisitDomain(c, b, now', d, s), log, now, now', d);
    } else {
      TrackDecide(c, b, log, now, now', d, s.issuedAgain);
    }
  }

  lemma {:induction false} TrackVisits(c: Settings, p: Pass, now: int, domains: seq<string>, sights: seq<Sighting>)
    requires |domains| == |sights| && Tracked(p.books, p.log, now)
    ensures var r := VisitAll(c, p, now, domains, sights); Tracked(r.books, r.log, now)
    decreases domains
  {
    if domains != [] {
      var n := |domains| - 1;
      TrackVisits(c, p, now, domains[..n], sights[..n]);
      var q := VisitAll(c, p, now, domains[..n], sights[..n]);
      TrackVisit(c, q.books, q.log, now, now, domains[n], sights[n]);
    }
  }

  lemma TrackDrop(b: Books, log: seq<Entry>, now: int, now': int, dead: set<string>)
    requires Tracked(b, log, now) && now <= now'
    ensures Tracked(b.(staging := b.staging - dead), log, now')
  {
    forall x ensures Linked(b.(staging := b.staging - dead), log, now', x) {
      assert Linked(b, log, now, x);
    }
  }

  lemma {:induction false} RunTracks(c: Settings, start: int, ticks: seq<Tick>)
    requires WellFormed(ticks) && ClockForward(start, ticks)
    ensures var h := Ran(c, start, ticks); Tracked(h.books, h.log, h.now)
    ensures Ran(c, start, ticks).now == if ticks == [] then start else ticks[|ticks| - 1].now
    decreases ticks
  {
    if ticks != [] {
      var n := |ticks| - 1;
      RunTracks(c, start, ticks[..n]);
      var h, t := Ran(c, start, ticks[..n]), ticks[n];
      TrackDrop(h.books, h.log, h.now, t.now, Dead(h.books, t.domains));
      var b := h.books.(staging := h.books.staging - Dead(h.books, t.domains));
      TrackVisits(c, Pass(b, h.log), t.now, t.domains, t.sights);
      VisitAllAppends(c, b, h.log, t.now, t.domains, t.sights);
    }
  }

  /** Over every run with a clock that does not go back, whatever routes come and
      go: two promotions of a domain with no prod certificate observed in between
      are at least the pending window plus the current backoff apart. */
  lemma {:induction false} PromotionsAreSpaced(c: Settings, start: int, ticks: seq<Tick>)
    requires WellFormed(ticks) && ClockForward(start, ticks)
    ensures Spaced(Ran(c, start, ticks).log)
  {
    RunTracks(c, start, ticks);
  }

  /** After a pass that read one replicated state throughout, no domain with a prod
      certificate is staging, and neither is any domain without a tls:auto route. */
  lemma {:induction false} IssuedLeavesStaging(c: Settings, b: Books, now: int, domains: seq<string>, sights: seq<Sighting>, issued: string -> bool, d: string)
    requires |domains| == |sights|
    requires forall i :: 0 <= i < |domains| ==> sights[i].issued == sights[i].issuedAgain == issued(domains[i])
    requires d in Reconciled(c, b, now, domains, sights).books.staging
    ensures d in domains && !issued(d)
  {
    VisitedStaging(c, b.(staging := b.staging - Dead(b, domains)), now, domains, sights, issued, d);
  }

  lemma {:induction false} VisitedStaging(c: Settings, b: Books, now: int, domains: seq<string>, sights: seq<Sighting>, issued: string -> bool, d: string)
    requires |domains| == |sights|
    requires forall i :: 0 <= i < |domains| ==> sights[i].issued == sights[i].issuedAgain == issued(domains[i])
    requires d in VisitAll(c, Pass(b, []), now, domains, sights).books.staging
    ensures (d in b.staging && d !in domains) || (d in domains && !issued(d))
    decreases domains
  {
    if domains != [] {
      var n := |domains| - 1;
      var q := VisitAll(c, Pass(b, []), now, domains[..n], sights[..n]);
      assert domains == domains[..n] + [domains[n]];
      if d in q.books.staging {
        VisitedStaging(c, b, now, domains[..n], sights[..n], issued, d);
      }
    }
  }
}
