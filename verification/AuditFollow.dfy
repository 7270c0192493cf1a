/** The audit log's follow stream: history first, then the broker's queue, deduplicated
    by raft index, for every interleaving of appends, channel operations and receives. */
module AuditFollow {
  import opened Prelude
  import opened Sorting
  import opened Entities
  import opened Fsm
  import W = Watch

  type Log = seq<AuditEvent>

  // ---- Sending what is new ----------------------------------------------------------------

  datatype Progress = Progress(sent: Log, lastIdx: nat)

  /** Forwards, in order, every event above the last index. */
  function Forwarded(p: Progress, evs: Log, matches: AuditEvent -> bool): Progress {
    if evs == [] then p
    else
      var n := |evs| - 1;
      var q, e := Forwarded(p, evs[..n], matches), evs[n];
      if e.raftIndex <= q.lastIdx then q
      else Progress(q.sent + (if matches(e) then [e] else []), e.raftIndex)
  }

  method Forward(p: Progress, evs: Log, matches: AuditEvent -> bool) returns (q: Progress)
    ensures q == Forwarded(p, evs, matches)
  {
    q := p;
    for i := 0 to |evs|
      invariant q == Forwarded(p, evs[..i], matches)
    {
      assert evs[..i + 1][..i] == evs[..i];
      if evs[i].raftIndex > q.lastIdx {
        q := q.(lastIdx := evs[i].raftIndex);
        if matches(evs[i]) {
          q := q.(sent := q.sent + [evs[i]]);
        }
      }
    }
    assert evs[..|evs|] == evs;
  }

  function Matching(evs: Log, matches: AuditEvent -> bool): Log { Pick(evs, matches, Same) }

  function MaxIndex(evs: Log): nat {
    if evs == [] then 0
    else
      var n := |evs| - 1;
      if evs[n].raftIndex > MaxIndex(evs[..n]) then evs[n].raftIndex else MaxIndex(evs[..n])
  }

  /** Sends the history; unlike following, this does not deduplicate. */
  method SendHistory(log: Log, matches: AuditEvent -> bool) returns (sent: Log, lastIdx: nat)
    ensures sent == Matching(log, matches) && lastIdx == MaxIndex(log)
  {
    sent, lastIdx := [], 0;
    for i := 0 to |log|
      invariant sent == Matching(log[..i], matches) && lastIdx == MaxIndex(log[..i])
    {
      assert log[..i + 1][..i] == log[..i];
      if log[i].raftIndex > lastIdx {
        lastIdx := log[i].raftIndex;
      }
      if matches(log[i]) {
        sent := sent + [log[i]];
      }
    }
    assert log[..|log|] == log;
  }

  // ---- The protocol -----------------------------------------------------------------------------

  /** A queued delivery: the event at a log position, or a Resync. */
  datatype Item = At(pos: nat) | Resync

  datatype Phase = Idle | Subscribed | Following

  /** The next channel operation of a publish on the follower's channel. */
  datatype Stage = TrySend | DropOldest | EnqueueResync

  /** One writer, one follower. Positions before `published` have been published, `listed`
      is where the history ended, `done` is how far the follower has looked, and `skipped`
      are the positions before `done` that it passed over. */
  datatype System = System(
    log: Log, published: nat, stage: Stage, phase: Phase, queue: seq<Item>, hand: Option<Item>,
    history: Log, listed: nat, tail: Progress, done: nat, skipped: set<nat>)

  datatype Step = Append(e: AuditEvent) | Advance | Subscribe | List | Receive | Handle

  predicate Enabled(s: System, step: Step) {
    match step
    case Append(_) => s.published == |s.log|
    case Advance => s.published < |s.log|
    case Subscribe => s.phase.Idle?
    case List => s.phase.Subscribed?
    case Receive => s.phase.Following? && s.hand.None? && s.queue != []
    case Handle => s.hand.Some?
  }

  /** One channel operation of the publish in flight; without a subscription there is none. */
  function Advanced(s: System, buffer: nat): System {
    if s.phase.Idle? then s.(published := s.published + 1)
    else match s.stage
      case TrySend =>
        if |s.queue| < buffer then s.(queue := s.queue + [At(s.published)], published := s.published + 1)
        else s.(stage := DropOldest)
      case DropOldest => s.(queue := if s.queue != [] then s.queue[1..] else [], stage := EnqueueResync)
      case EnqueueResync =>
        s.(queue := if |s.queue| < buffer then s.queue + [Resync] else s.queue, published := s.published + 1, stage := TrySend)
  }

  function Range(from: nat, upto: nat): (r: set<nat>)
    ensures forall i :: i in r <==> from <= i < upto
    decreases upto - from
  {
    if from >= upto then {} else {from} + Range(from + 1, upto)
  }

  /** A Resync re-reads the log as it is by then; an event is forwarded by itself. */
  function Handled(s: System, matches: AuditEvent -> bool): System
    requires s.hand.Some?
  {
    match s.hand.value
    case Resync => s.(hand := None, tail := Forwarded(s.tail, s.log, matches), done := |s.log|)
    case At(p) =>
      if p >= |s.log| then s.(hand := None)
      else s.(hand := None, tail := Forwarded(s.tail, [s.log[p]], matches),
              skipped := s.skipped + Range(s.done, p), done := if p < s.done then s.done else p + 1)
  }

  function Do(s: System, step: Step, buffer: nat, matches: AuditEvent -> bool): System
    requires Enabled(s, step)
  {
    match step
    case Append(e) => s.(log := s.log + [e])
    case Advance => Advanced(s, buffer)
    case Subscribe => s.(phase := Subscribed)
    case List => s.(phase := Following, history := Matching(s.log, matches), listed := |s.log|,
                    tail := Progress([], MaxIndex(s.log)), done := |s.log|)
    case Receive => s.(hand := Some(s.queue[0]), queue := s.queue[1..])
    case Handle => Handled(s, matches)
  }

  const START := System([], 0, TrySend, Idle, [], None, [], 0, Progress([], 0), 0, {})

  predicate Legal(s: System, run: seq<Step>, buffer: nat, matches: AuditEvent -> bool)
    decreases run
  {
    run == [] || (Enabled(s, run[0]) && Legal(Do(s, run[0], buffer, matches), run[1..], buffer, matches))
  }

  function After(s: System, run: seq<Step>, buffer: nat, matches: AuditEvent -> bool): System
    requires Legal(s, run, buffer, matches)
    decreases run
  {
    if run == [] then s else After(Do(s, run[0], buffer, matches), run[1..], buffer, matches)
  }

  /** The queue as the broker holds it. */
  function Events(log: Log, queue: seq<Item>): seq<W.Event<AuditEvent>>
    requires forall i :: 0 <= i < |queue| && queue[i].At? ==> queue[i].pos < |log|
  {
    seq(|queue|, i requires 0 <= i < |queue| =>
      if queue[i].At? then W.Added(log[queue[i].pos], log[queue[i].pos].raftIndex) else W.Resync)
  }

  /** Uninterrupted, the channel operations of a publish are the broker's offer. */
  lemma AdvancesRefineOffer(s: System, buffer: nat)
    requires 0 < buffer && |s.queue| <= buffer && s.published < |s.log| && s.stage.TrySend? && !s.phase.Idle?
    requires forall i :: 0 <= i < |s.queue| && s.queue[i].At? ==> s.queue[i].pos < |s.log|
    ensures var one := Advanced(s, buffer);
            var end := if |s.queue| < buffer then one else Advanced(Advanced(one, buffer), buffer);
            && end == s.(queue := end.queue, published := s.published + 1)
            && (forall i :: 0 <= i < |end.queue| && end.queue[i].At? ==> end.queue[i].pos < |s.log|)
            && Events(s.log, end.queue) ==
               W.Offer(Events(s.log, s.queue), buffer, W.Added(s.log[s.published], s.log[s.published].raftIndex))
  {
  }

  // ---- What every run keeps ----------------------------------------------------------------------

  /** Queued positions are published, consecutive between Resyncs, and end at the latest. */
  ghost predicate QueueOk(queue: seq<Item>, published: nat) {
    && (forall i :: 0 <= i < |queue| && queue[i].At? ==> queue[i].pos < published)
    && (forall i :: 0 < i < |queue| && queue[i - 1].At? && queue[i].At? ==> queue[i].pos == queue[i - 1].pos + 1)
    && (queue != [] && queue[|queue| - 1].At? ==> queue[|queue| - 1].pos == published - 1)
  }

  lemma PushKeeps(queue: seq<Item>, published: nat)
    requires QueueOk(queue, published)
    ensures QueueOk(queue + [At(published)], published + 1) && QueueOk(queue + [Resync], published + 1)
  {
  }

  lemma PopKeeps(queue: seq<Item>, published: nat)
    requires queue != [] && QueueOk(queue, published)
    ensures QueueOk(queue[1..], published)
  {
  }

  /** Where the follower will have looked once it has handled what it holds. */
  function Next(s: System): nat {
    match s.hand
    case None => s.done
    case Some(Resync) => |s.log|
    case Some(At(p)) => if p < s.done then s.done else p + 1
  }

  /** What follow mode sent: matching log events with strictly increasing indices, all
      above the history's and at most the last index. */
  ghost predicate TailOk(tail: Progress, log: Log, floor: nat, matches: AuditEvent -> bool) {
    && floor <= tail.lastIdx
    && (forall i :: 0 <= i < |tail.sent| ==>
          tail.sent[i] in log && matches(tail.sent[i]) && floor < tail.sent[i].raftIndex <= tail.lastIdx)
    && (forall i, j :: 0 <= i < j < |tail.sent| ==> tail.sent[i].raftIndex < tail.sent[j].raftIndex)
  }

  ghost predicate FollowOk(s: System, matches: AuditEvent -> bool)
    requires s.listed <= |s.log|
  {
    && s.history == Matching(s.log[..s.listed], matches)
    && TailOk(s.tail, s.log, MaxIndex(s.log[..s.listed]), matches)
  }

  ghost predicate ChannelOk(s: System, buffer: nat) {
    && s.published <= |s.log| && |s.queue| <= buffer && QueueOk(s.queue, s.published)
    && (s.stage.EnqueueResync? ==> |s.queue| < buffer)
    && (s.published == |s.log| ==> s.stage.TrySend?)
    && (s.phase.Idle? ==> s.queue == [] && s.stage.TrySend?)
    && (s.hand.Some? ==> s.phase.Following? && (s.hand.value.At? ==> s.hand.value.pos < s.published))
    && (s.phase.Following? && s.queue == [] && !s.stage.EnqueueResync? ==> s.published <= Next(s))
  }

  ghost predicate Inv(s: System, buffer: nat, matches: AuditEvent -> bool) {
    && ChannelOk(s, buffer) && s.listed <= s.done <= |s.log|
    && (s.phase.Following? ==> FollowOk(s, matches))
  }

  lemma AdvanceKeepsChannel(s: System, buffer: nat)
    requires 0 < buffer && ChannelOk(s, buffer) && s.published < |s.log|
    ensures ChannelOk(Advanced(s, buffer), buffer)
  {
    PushKeeps(s.queue, s.published);
    if s.queue != [] {
      PopKeeps(s.queue, s.published);
    }
  }

  lemma StepKeepsChannel(s: System, step: Step, buffer: nat, matches: AuditEvent -> bool)
    requires 0 < buffer && ChannelOk(s, buffer) && s.done <= |s.log| && Enabled(s, step)
    ensures ChannelOk(Do(s, step, buffer, matches), buffer)
  {
    if step.Advance? {
      AdvanceKeepsChannel(s, buffer);
    } else if step.Receive? {
      PopKeeps(s.queue, s.published);
    }
  }

  lemma {:induction false} ForwardedOk(p: Progress, evs: Log, matches: AuditEvent -> bool, floor: nat, log: Log)
    requires TailOk(p, log, floor, matches) && forall e :: e in evs ==> e in log
    ensures TailOk(Forwarded(p, evs, matches), log, floor, matches)
    decreases evs
  {
    if evs != [] {
      ForwardedOk(p, evs[..|evs| - 1], matches, floor, log);
      assert evs[|evs| - 1] in evs;
    }
  }

  lemma HandleFollows(s: System, matches: AuditEvent -> bool)
    requires s.hand.Some? && s.listed <= |s.log| && FollowOk(s, matches)
    ensures FollowOk(Handled(s, matches), matches)
  {
    var floor := MaxIndex(s.log[..s.listed]);
    match s.hand.value
    case Resync => ForwardedOk(s.tail, s.log, matches, floor, s.log);
    case At(p) =>
      if p < |s.log| {
        ForwardedOk(s.tail, [s.log[p]], matches, floor, s.log);
      }
  }

  lemma AppendFollows(s: System, e: AuditEvent, matches: AuditEvent -> bool)
    requires s.listed <= |s.log| && FollowOk(s, matches)
    ensures FollowOk(s.(log := s.log + [e]), matches)
  {
    assert (s.log + [e])[..s.listed] == s.log[..s.listed];
  }

  lemma StepKeepsInv(s: System, step: Step, buffer: nat, matches: AuditEvent -> bool)
    requires 0 < buffer && Inv(s, buffer, matches) && Enabled(s, step)
    ensures Inv(Do(s, step, buffer, matches), buffer, matches)
  {
    StepKeepsChannel(s, step, buffer, matches);
    match step
    case Append(e) =>
      if s.phase.Following? {
        AppendFollows(s, e, matches);
      }
    case List => assert s.log[..|s.log|] == s.log;
    case Handle => HandleFollows(s, matches);
    case _ =>
  }

  lemma {:induction false} RunKeepsInv(s: System, run: seq<Step>, buffer: nat, matches: AuditEvent -> bool)
    requires 0 < buffer && Inv(s, buffer, matches) && Legal(s, run, buffer, matches)
    ensures Inv(After(s, run, buffer, matches), buffer, matches)
    decreases run
  {
    if run != [] {
      StepKeepsInv(s, run[0], buffer, matches);
      RunKeepsInv(Do(s, run[0], buffer, matches), run[1..], buffer, matches);
    }
  }

  lemma {:induction false} MaxBounds(log: Log, i: nat)
    requires i < |log|
    ensures log[i].raftIndex <= MaxIndex(log)
    decreases log
  {
    if i < |log| - 1 {
      MaxBounds(log[..|log| - 1], i);
    }
  }

  /** In every run, overflow or not and whatever indices are appended: follow mode sends
      nothing twice, and what it sends has strictly increasing indices above everything
      in the history. */
  lemma NeverTwice(run: seq<Step>, buffer: nat, matches: AuditEvent -> bool, i: nat, j: nat)
    requires 0 < buffer && Legal(START, run, buffer, matches)
    requires var s := After(START, run, buffer, matches); s.phase.Following? && j < |s.tail.sent|
    ensures var s := After(START, run, buffer, matches);
            && s.listed <= |s.log|
            && (i < j ==> s.tail.sent[i].raftIndex < s.tail.sent[j].raftIndex)
            && (i < s.listed ==> s.log[i].raftIndex < s.tail.sent[j].raftIndex)
            && s.tail.sent[j] in s.log && matches(s.tail.sent[j]) && s.tail.sent[j] !in s.history
  {
    RunKeepsInv(START, run, buffer, matches);
    var s := After(START, run, buffer, matches);
    var past, e := s.log[..s.listed], s.tail.sent[j];
    if i < s.listed {
      MaxBounds(past, i);
    }
    PickMember(past, matches, Same, e);
    if e in s.history {
      var k :| 0 <= k < |past| && past[k] == e;
      MaxBounds(past, k);
    }
  }

  /** Whenever the follower has drained its queue and every append is published, it has
      looked up to the end of the log. */
  lemma DrainedSawAll(run: seq<Step>, buffer: nat, matches: AuditEvent -> bool)
    requires 0 < buffer && Legal(START, run, buffer, matches)
    requires var s := After(START, run, buffer, matches);
             s.phase.Following? && s.queue == [] && s.hand.None? && s.published == |s.log|
    ensures var s := After(START, run, buffer, matches); s.done == |s.log|
  {
    RunKeepsInv(START, run, buffer, matches);
  }

  // ---- Exactness ------------------------------------------------------------------------------------

  ghost predicate Ordered(log: Log) {
    forall i, j :: 0 <= i < j < |log| ==> log[i].raftIndex <= log[j].raftIndex
  }

  /** The index of the last event before position `i` that was not skipped, zero without one. */
  function IndexSeen(log: Log, skipped: set<nat>, i: nat): nat
    requires i <= |log|
  {
    if i == 0 then 0 else if i - 1 in skipped then IndexSeen(log, skipped, i - 1) else log[i - 1].raftIndex
  }

  /** A position that is looked at and whose index is above the one looked at before. */
  predicate Fresh(log: Log, skipped: set<nat>, i: nat)
    requires i < |log|
  {
    i !in skipped && log[i].raftIndex > IndexSeen(log, skipped, i)
  }

  /** The matching fresh events at positions `from..upto`. */
  function Kept(log: Log, from: nat, upto: nat, skipped: set<nat>, matches: AuditEvent -> bool): Log
    requires from <= upto <= |log|
    decreases upto - from
  {
    if from == upto then []
    else
      Kept(log, from, upto - 1, skipped, matches)
        + if Fresh(log, skipped, upto - 1) && matches(log[upto - 1]) then [log[upto - 1]] else []
  }

  /** The stream holds exactly the matching fresh events up to where the follower looked. */
  ghost predicate Exact(s: System, matches: AuditEvent -> bool) {
    && s.listed <= s.done <= |s.log|
    && (forall i :: i in s.skipped ==> s.listed <= i < s.done)
    && (s.done > 0 ==> s.done - 1 !in s.skipped)
    && s.tail == Progress(Kept(s.log, s.listed, s.done, s.skipped, matches), IndexSeen(s.log, s.skipped, s.done))
  }

  lemma MaxIsLast(log: Log)
    requires Ordered(log)
    ensures MaxIndex(log) == if log == [] then 0 else log[|log| - 1].raftIndex
  {
  }

  lemma {:induction false} KeptStable(log: Log, more: Log, a: nat, b: nat, skipped: set<nat>, matches: AuditEvent -> bool)
    requires a <= b <= |log|
    ensures Kept(log + more, a, b, skipped, matches) == Kept(log, a, b, skipped, matches)
    ensures IndexSeen(log + more, skipped, b) == IndexSeen(log, skipped, b)
    decreases b
  {
    if b > 0 {
      KeptStable(log, more, if a < b then a else b - 1, b - 1, skipped, matches);
    }
  }

  /** Skipping a stretch at the end adds nothing. */
  lemma {:induction false} KeptSkips(log: Log, a: nat, b: nat, p: nat, skipped: set<nat>, matches: AuditEvent -> bool)
    requires a <= b <= p <= |log| && forall i :: i in skipped ==> i < b
    ensures Kept(log, a, p, skipped + Range(b, p), matches) == Kept(log, a, b, skipped, matches)
    ensures IndexSeen(log, skipped + Range(b, p), p) == IndexSeen(log, skipped, b)
    decreases p
  {
    if b == p {
      assert skipped + Range(b, p) == skipped;
    } else {
      KeptSkips(log, a, b, p - 1, skipped, matches);
      KeptBelow(log, a, p - 1, skipped + Range(b, p - 1), skipped + Range(b, p), matches);
    }
  }

  /** What is kept below `b` depends on what was skipped below `b`. */
  lemma {:induction false} KeptBelow(log: Log, a: nat, b: nat, skipped: set<nat>, skipped': set<nat>, matches: AuditEvent -> bool)
    requires a <= b <= |log| && forall i: nat :: i < b ==> (i in skipped <==> i in skipped')
    ensures Kept(log, a, b, skipped, matches) == Kept(log, a, b, skipped', matches)
    ensures IndexSeen(log, skipped, b) == IndexSeen(log, skipped', b)
    decreases b
  {
    if b > 0 {
      KeptBelow(log, if a < b then a else b - 1, b - 1, skipped, skipped', matches);
    }
  }

  /** Re-reading the log forwards exactly the fresh events not yet looked at. */
  lemma {:induction false} ForwardedKept(p: Progress, log: Log, from: nat, upto: nat, skipped: set<nat>, matches: AuditEvent -> bool)
    requires Ordered(log) && from <= |log| && upto <= |log| && p.lastIdx == IndexSeen(log, skipped, from)
    requires (forall i :: i in skipped ==> i < from) && (from > 0 ==> from - 1 !in skipped)
    ensures Forwarded(p, log[..upto], matches) ==
            if upto <= from then p else Progress(p.sent + Kept(log, from, upto, skipped, matches), IndexSeen(log, skipped, upto))
    decreases upto
  {
    if upto > 0 {
      ForwardedKept(p, log, from, upto - 1, skipped, matches);
      assert log[..upto][..upto - 1] == log[..upto - 1];
    }
  }

  lemma {:induction false} KeptJoin(log: Log, a: nat, b: nat, c: nat, skipped: set<nat>, matches: AuditEvent -> bool)
    requires a <= b <= c <= |log|
    ensures Kept(log, a, c, skipped, matches) == Kept(log, a, b, skipped, matches) + Kept(log, b, c, skipped, matches)
    decreases c - b
  {
    if b < c {
      KeptJoin(log, a, b, c - 1, skipped, matches);
    }
  }

  lemma ForwardedOne(p: Progress, e: AuditEvent, matches: AuditEvent -> bool)
    ensures Forwarded(p, [e], matches) ==
            if e.raftIndex <= p.lastIdx then p else Progress(p.sent + (if matches(e) then [e] else []), e.raftIndex)
  {
    assert [e][..0] == [];
  }

  lemma ResyncExact(s: System, matches: AuditEvent -> bool)
    requires s.hand == Some(Resync) && Ordered(s.log) && Exact(s, matches)
    ensures Exact(Handled(s, matches), matches)
  {
    ForwardedKept(s.tail, s.log, s.done, |s.log|, s.skipped, matches);
    assert s.log[..|s.log|] == s.log;
    KeptJoin(s.log, s.listed, s.done, |s.log|, s.skipped, matches);
  }

  lemma DeliveryExact(s: System, matches: AuditEvent -> bool, p: nat)
    requires s.hand == Some(At(p)) && p < |s.log| && Ordered(s.log) && Exact(s, matches)
    ensures Exact(Handled(s, matches), matches)
  {
    ForwardedOne(s.tail, s.log[p], matches);
    if p < s.done {
      assert s.skipped + Range(s.done, p) == s.skipped;
      assert s.log[p].raftIndex <= s.log[s.done - 1].raftIndex;
    } else {
      KeptSkips(s.log, s.listed, s.done, p, s.skipped, matches);
    }
  }

  ghost predicate FollowsExactly(s: System, matches: AuditEvent -> bool) {
    if s.phase.Following? then Exact(s, matches) else s.skipped == {}
  }

  lemma StepExact(s: System, step: Step, buffer: nat, matches: AuditEvent -> bool)
    requires 0 < buffer && Inv(s, buffer, matches) && Enabled(s, step) && FollowsExactly(s, matches)
    requires Ordered(s.log)
    ensures FollowsExactly(Do(s, step, buffer, matches), matches)
  {
    match step
    case Append(e) =>
      if s.phase.Following? {
        KeptStable(s.log, [e], s.listed, s.done, s.skipped, matches);
      }
    case List => MaxIsLast(s.log);
    case Handle =>
      if s.hand.value.At? {
        DeliveryExact(s, matches, s.hand.value.pos);
      } else {
        ResyncExact(s, matches);
      }
    case _ =>
  }

  /** Logs and skipped positions only grow. */
  lemma {:induction false} RunGrows(s: System, run: seq<Step>, buffer: nat, matches: AuditEvent -> bool)
    requires Legal(s, run, buffer, matches)
    ensures s.log <= After(s, run, buffer, matches).log && s.skipped <= After(s, run, buffer, matches).skipped
    decreases run
  {
    if run != [] {
      RunGrows(Do(s, run[0], buffer, matches), run[1..], buffer, matches);
    }
  }

  lemma {:induction false} RunExact(s: System, run: seq<Step>, buffer: nat, matches: AuditEvent -> bool)
    requires 0 < buffer && Inv(s, buffer, matches) && Legal(s, run, buffer, matches) && FollowsExactly(s, matches)
    requires Ordered(After(s, run, buffer, matches).log)
    ensures FollowsExactly(After(s, run, buffer, matches), matches)
    decreases run
  {
    if run != [] {
      RunGrows(s, run, buffer, matches);
      OrderedPrefix(s.log, After(s, run, buffer, matches).log);
      StepExact(s, run[0], buffer, matches);
      StepKeepsInv(s, run[0], buffer, matches);
      RunExact(Do(s, run[0], buffer, matches), run[1..], buffer, matches);
    }
  }

  lemma OrderedPrefix(a: Log, b: Log)
    requires a <= b && Ordered(b)
    ensures Ordered(a)
  {
  }

  lemma {:induction false} KeptIsAll(log: Log, a: nat, b: nat, skipped: set<nat>, matches: AuditEvent -> bool)
    requires a <= b <= |log|
    ensures |Matching(log[..a], matches) + Kept(log, a, b, skipped, matches)| <= |Matching(log[..b], matches)|
    ensures Matching(log[..a], matches) + Kept(log, a, b, skipped, matches) == Matching(log[..b], matches)
            <==> forall i :: a <= i < b && matches(log[i]) ==> Fresh(log, skipped, i)
    ensures |Matching(log[..a], matches) + Kept(log, a, b, skipped, matches)| == |Matching(log[..b], matches)|
            ==> forall i :: a <= i < b && matches(log[i]) ==> Fresh(log, skipped, i)
    decreases b
  {
    if a < b {
      KeptIsAll(log, a, b - 1, skipped, matches);
      assert log[..b][..b - 1] == log[..b - 1];
    }
  }

  /** In every run over a log in index order, overflow or not: history plus follow is
      exactly the matching part of the log looked at, if and only if every matching event
      after the history was not skipped and has a greater index than the event looked at
      before it. Overflows skip; batches repeat indices. */
  lemma FollowExactIff(run: seq<Step>, buffer: nat, matches: AuditEvent -> bool)
    requires 0 < buffer && Legal(START, run, buffer, matches)
    requires var s := After(START, run, buffer, matches); s.phase.Following? && Ordered(s.log)
    ensures var s := After(START, run, buffer, matches);
            && s.listed <= s.done <= |s.log|
            && (s.history + s.tail.sent == Matching(s.log[..s.done], matches) <==>
                  forall i :: s.listed <= i < s.done && matches(s.log[i]) ==> Fresh(s.log, s.skipped, i))
  {
    RunKeepsInv(START, run, buffer, matches);
    RunExact(START, run, buffer, matches);
    var s := After(START, run, buffer, matches);
    KeptIsAll(s.log, s.listed, s.done, s.skipped, matches);
  }

  lemma {:induction false} KeptMember(log: Log, a: nat, b: nat, skipped: set<nat>, matches: AuditEvent -> bool, e: AuditEvent)
    requires a <= b <= |log|
    ensures e in Kept(log, a, b, skipped, matches) <==>
            exists i :: a <= i < b && log[i] == e && Fresh(log, skipped, i) && matches(e)
    decreases b
  {
    if a < b {
      KeptMember(log, a, b - 1, skipped, matches, e);
    }
  }

  /** Which events follow mode sent, in every run over a log in index order. */
  lemma SentIff(run: seq<Step>, buffer: nat, matches: AuditEvent -> bool, e: AuditEvent)
    requires 0 < buffer && Legal(START, run, buffer, matches)
    requires var s := After(START, run, buffer, matches); s.phase.Following? && Ordered(s.log)
    ensures var s := After(START, run, buffer, matches);
            && s.done <= |s.log|
            && (e in s.tail.sent <==> exists i :: s.listed <= i < s.done && s.log[i] == e && Fresh(s.log, s.skipped, i) && matches(e))
  {
    RunKeepsInv(START, run, buffer, matches);
    RunExact(START, run, buffer, matches);
    var s := After(START, run, buffer, matches);
    KeptMember(s.log, s.listed, s.done, s.skipped, matches, e);
  }

  // ---- When positions are skipped ------------------------------------------------------------------------

  /** The next delivery lies beyond where the follower will have looked. */
  predicate Exposed(s: System) {
    s.phase.Following? && s.queue != [] && s.queue[0].At? && s.queue[0].pos > Next(s)
  }

  /** Nothing was skipped and nothing is about to be. */
  predicate Clean(s: System) {
    s.skipped == {} && (s.hand.Some? && s.hand.value.At? ==> s.hand.value.pos <= s.done)
  }

  /** The overflow that exposes: it drops the head, and the delivery behind it is an event
      beyond where the follower will have looked. */
  predicate Exposes(s: System, step: Step) {
    && step.Advance? && s.phase.Following? && s.stage.DropOldest?
    && |s.queue| >= 2 && s.queue[1].At? && s.queue[1].pos > Next(s)
  }

  lemma ExposedIff(s: System, step: Step, buffer: nat, matches: AuditEvent -> bool)
    requires 0 < buffer && Inv(s, buffer, matches) && Enabled(s, step) && !Exposed(s)
    ensures Exposed(Do(s, step, buffer, matches)) <==> Exposes(s, step)
  {
  }

  /** A step spoils a clean state exactly by receiving from an exposed queue, and no step cleans. */
  lemma CleanIff(s: System, step: Step, buffer: nat, matches: AuditEvent -> bool)
    requires 0 < buffer && Inv(s, buffer, matches) && Enabled(s, step)
    ensures Clean(Do(s, step, buffer, matches)) <==> Clean(s) && !(step.Receive? && Exposed(s))
  {
    var t := Do(s, step, buffer, matches);
    if step.Handle? && s.hand.value.At? {
      var p := s.hand.value.pos;
      assert p <= s.done ==> Range(s.done, p) == {};
      assert p > s.done ==> s.done in Range(s.done, p);
    }
  }

  /** Some receive of the run takes its delivery from an exposed queue. */
  predicate TakesExposed(s: System, run: seq<Step>, buffer: nat, matches: AuditEvent -> bool)
    requires Legal(s, run, buffer, matches)
    decreases run
  {
    run != [] && ((run[0].Receive? && Exposed(s)) || TakesExposed(Do(s, run[0], buffer, matches), run[1..], buffer, matches))
  }

  lemma {:induction false} RunCleanIff(s: System, run: seq<Step>, buffer: nat, matches: AuditEvent -> bool)
    requires 0 < buffer && Inv(s, buffer, matches) && Legal(s, run, buffer, matches)
    ensures Clean(After(s, run, buffer, matches)) <==> Clean(s) && !TakesExposed(s, run, buffer, matches)
    decreases run
  {
    if run != [] {
      CleanIff(s, run[0], buffer, matches);
      StepKeepsInv(s, run[0], buffer, matches);
      RunCleanIff(Do(s, run[0], buffer, matches), run[1..], buffer, matches);
    }
  }

  /** A run skips nothing, and is about to skip nothing, if and only if no receive takes its
      delivery from an exposed queue. */
  lemma GaplessIff(run: seq<Step>, buffer: nat, matches: AuditEvent -> bool)
    requires 0 < buffer && Legal(START, run, buffer, matches)
    ensures Clean(After(START, run, buffer, matches)) <==> !TakesExposed(START, run, buffer, matches)
  {
    RunCleanIff(START, run, buffer, matches);
  }

  /** No step of the run is an overflow that exposes. */
  predicate NeverExposes(s: System, run: seq<Step>, buffer: nat, matches: AuditEvent -> bool)
    requires Legal(s, run, buffer, matches)
    decreases run
  {
    run == [] || (!Exposes(s, run[0]) && NeverExposes(Do(s, run[0], buffer, matches), run[1..], buffer, matches))
  }

  lemma {:induction false} UnexposedTakesNone(s: System, run: seq<Step>, buffer: nat, matches: AuditEvent -> bool)
    requires 0 < buffer && Inv(s, buffer, matches) && Legal(s, run, buffer, matches) && !Exposed(s)
    requires NeverExposes(s, run, buffer, matches)
    ensures !TakesExposed(s, run, buffer, matches)
    decreases run
  {
    if run != [] {
      ExposedIff(s, run[0], buffer, matches);
      StepKeepsInv(s, run[0], buffer, matches);
      UnexposedTakesNone(Do(s, run[0], buffer, matches), run[1..], buffer, matches);
    }
  }

  /** A run without an exposing overflow skips nothing; with a buffer of one, or without
      overflow at all, there is none. */
  lemma OnlyOverflowsSkip(run: seq<Step>, buffer: nat, matches: AuditEvent -> bool)
    requires 0 < buffer && Legal(START, run, buffer, matches)
    requires buffer == 1 || NeverExposes(START, run, buffer, matches)
    ensures Clean(After(START, run, buffer, matches))
  {
    if buffer == 1 {
      OneSlotNeverExposes(START, run, matches);
    }
    UnexposedTakesNone(START, run, buffer, matches);
    GaplessIff(run, buffer, matches);
  }

  lemma {:induction false} OneSlotNeverExposes(s: System, run: seq<Step>, matches: AuditEvent -> bool)
    requires Inv(s, 1, matches) && Legal(s, run, 1, matches)
    ensures NeverExposes(s, run, 1, matches)
    decreases run
  {
    if run != [] {
      StepKeepsInv(s, run[0], 1, matches);
      OneSlotNeverExposes(Do(s, run[0], 1, matches), run[1..], matches);
    }
  }

  /** Raft indices start at one, and no two events share one. */
  ghost predicate OnePerIndex(log: Log) {
    && (forall i :: 0 <= i < |log| ==> log[i].raftIndex > 0)
    && (forall i, j :: 0 <= i < j < |log| ==> log[i].raftIndex < log[j].raftIndex)
  }

  /** Without an exposing overflow, and with one event per index, history plus follow is
      exactly the matching part of the log looked at. */
  lemma QuietFollowIsExact(run: seq<Step>, buffer: nat, matches: AuditEvent -> bool)
    requires 0 < buffer && Legal(START, run, buffer, matches)
    requires buffer == 1 || NeverExposes(START, run, buffer, matches)
    requires var s := After(START, run, buffer, matches); s.phase.Following? && OnePerIndex(s.log)
    ensures var s := After(START, run, buffer, matches);
            s.done <= |s.log| && s.history + s.tail.sent == Matching(s.log[..s.done], matches)
  {
    var s := After(START, run, buffer, matches);
    OnlyOverflowsSkip(run, buffer, matches);
    assert forall i :: 0 <= i < |s.log| ==> Fresh(s.log, {}, i);
    FollowExactIff(run, buffer, matches);
  }

  // ---- Concrete overflows, and what a skip costs ---------------------------------------------------------------

  lemma {:induction false} RunConcat(s: System, a: seq<Step>, b: seq<Step>, buffer: nat, matches: AuditEvent -> bool)
    ensures Legal(s, a + b, buffer, matches) <==> Legal(s, a, buffer, matches) && Legal(After(s, a, buffer, matches), b, buffer, matches)
    ensures Legal(s, a + b, buffer, matches) ==> After(s, a + b, buffer, matches) == After(After(s, a, buffer, matches), b, buffer, matches)
    decreases a
  {
    if a == [] {
      assert a + b == b;
    } else {
      assert (a + b)[1..] == a[1..] + b;
      if Enabled(s, a[0]) {
        RunConcat(Do(s, a[0], buffer, matches), a[1..], b, buffer, matches);
      }
    }
  }

  lemma TwoSteps(s: System, a: Step, b: Step, buffer: nat, matches: AuditEvent -> bool)
    requires Enabled(s, a) && Enabled(Do(s, a, buffer, matches), b)
    ensures Legal(s, [a, b], buffer, matches)
    ensures After(s, [a, b], buffer, matches) == Do(Do(s, a, buffer, matches), b, buffer, matches)
  {
    OneStep(s, a, buffer, matches);
    OneStep(Do(s, a, buffer, matches), b, buffer, matches);
    RunConcat(s, [a], [b], buffer, matches);
    assert [a] + [b] == [a, b];
  }

  lemma OneStep(s: System, a: Step, buffer: nat, matches: AuditEvent -> bool)
    requires Enabled(s, a)
    ensures Legal(s, [a], buffer, matches) && After(s, [a], buffer, matches) == Do(s, a, buffer, matches)
  {
    assert [a][1..] == [];
  }

  /** An append whose publish finds room, and one whose publish overflows. */
  function Room(e: AuditEvent): seq<Step> { [Append(e), Advance] }
  function Overflow(e: AuditEvent): seq<Step> { [Append(e), Advance] + [Advance, Advance] }

  lemma RoomDoes(s: System, e: AuditEvent, buffer: nat, matches: AuditEvent -> bool)
    requires s.published == |s.log| && !s.phase.Idle? && s.stage.TrySend? && |s.queue| < buffer
    ensures Legal(s, Room(e), buffer, matches)
    ensures After(s, Room(e), buffer, matches) ==
            s.(log := s.log + [e], published := s.published + 1, queue := s.queue + [At(s.published)])
  {
    TwoSteps(s, Append(e), Advance, buffer, matches);
  }

  lemma OverflowDoes(s: System, e: AuditEvent, buffer: nat, matches: AuditEvent -> bool)
    requires s.published == |s.log| && !s.phase.Idle? && s.stage.TrySend? && 0 < |s.queue| == buffer
    ensures Legal(s, Overflow(e), buffer, matches)
    ensures After(s, Overflow(e), buffer, matches) ==
            s.(log := s.log + [e], published := s.published + 1, queue := s.queue[1..] + [Resync])
  {
    TwoSteps(s, Append(e), Advance, buffer, matches);
    var t := s.(log := s.log + [e], stage := DropOldest);
    assert After(s, [Append(e), Advance], buffer, matches) == t;
    DropAndResync(t, buffer, matches);
    RunConcat(s, [Append(e), Advance], [Advance, Advance], buffer, matches);
  }

  lemma DropAndResync(s: System, buffer: nat, matches: AuditEvent -> bool)
    requires s.published < |s.log| && !s.phase.Idle? && s.stage.DropOldest? && 0 < |s.queue| <= buffer
    ensures Legal(s, [Advance, Advance], buffer, matches)
    ensures After(s, [Advance, Advance], buffer, matches) ==
            s.(published := s.published + 1, stage := TrySend, queue := s.queue[1..] + [Resync])
  {
    TwoSteps(s, Advance, Advance, buffer, matches);
  }

  /** A follower that joins an empty log and has two events queued. */
  function TwoQueued(a: AuditEvent, b: AuditEvent): seq<Step> {
    [Subscribe, List] + Room(a) + Room(b)
  }

  lemma TwoQueuedDoes(a: AuditEvent, b: AuditEvent, matches: AuditEvent -> bool)
    ensures Legal(START, TwoQueued(a, b), 2, matches)
    ensures After(START, TwoQueued(a, b), 2, matches) ==
            START.(log := [a, b], published := 2, phase := Following, queue := [At(0), At(1)])
  {
    TwoSteps(START, Subscribe, List, 2, matches);
    var s := START.(phase := Following);
    assert After(START, [Subscribe, List], 2, matches) == s;
    RoomDoes(s, a, 2, matches);
    RoomDoes(After(s, Room(a), 2, matches), b, 2, matches);
    assert [a] + [b] == [a, b];
    RunConcat(START, [Subscribe, List], Room(a), 2, matches);
    RunConcat(START, [Subscribe, List] + Room(a), Room(b), 2, matches);
  }

  /** A reachable loss: of three events through a channel of two, the first is dropped by the
      overflow, the second is delivered before the Resync, and the first is never sent. */
  lemma OverflowLoses(a: AuditEvent, b: AuditEvent, c: AuditEvent, matches: AuditEvent -> bool)
    requires 0 < a.raftIndex < b.raftIndex < c.raftIndex && matches(a)
    ensures var run := TwoQueued(a, b) + Overflow(c) + [Receive, Handle];
            && Legal(START, run, 2, matches)
            && var s := After(START, run, 2, matches);
               && s.skipped == {0} && s.done == 2 && |s.log| == 3 && s.queue == [Resync]
               && a !in s.history + s.tail.sent && a in Matching(s.log[..s.done], matches)
  {
    TwoQueuedDoes(a, b, matches);
    var s := After(START, TwoQueued(a, b), 2, matches);
    OverflowDoes(s, c, 2, matches);
    var t := After(s, Overflow(c), 2, matches);
    TwoSteps(t, Receive, Handle, 2, matches);
    RunConcat(START, TwoQueued(a, b), Overflow(c), 2, matches);
    RunConcat(START, TwoQueued(a, b) + Overflow(c), [Receive, Handle], 2, matches);
    ForwardedOne(t.tail, b, matches);
    assert [a, b, c][..2] == [a, b];
    PickMember([a, b], matches, Same, a);
    assert Range(0, 1) == {0};
  }

  /** An exposing overflow alone loses nothing: a second overflow may drop the exposed event
      and bring the Resync to the front. */
  lemma SecondOverflowRescues(a: AuditEvent, b: AuditEvent, c: AuditEvent, d: AuditEvent, matches: AuditEvent -> bool)
    ensures var run := TwoQueued(a, b) + Overflow(c);
            && Legal(START, run, 2, matches) && Exposed(After(START, run, 2, matches))
            && Legal(START, run + Overflow(d), 2, matches)
            && !Exposed(After(START, run + Overflow(d), 2, matches)) && Clean(After(START, run + Overflow(d), 2, matches))
  {
    TwoQueuedDoes(a, b, matches);
    var s := After(START, TwoQueued(a, b), 2, matches);
    OverflowDoes(s, c, 2, matches);
    OverflowDoes(After(s, Overflow(c), 2, matches), d, 2, matches);
    RunConcat(START, TwoQueued(a, b), Overflow(c), 2, matches);
    RunConcat(START, TwoQueued(a, b) + Overflow(c), Overflow(d), 2, matches);
  }

  /** A follower whose queue of three filled up before it listed the log. */
  function FilledEarly(e: AuditEvent): seq<Step> { [Subscribe] + Room(e) + Room(e) + Room(e) + [List] }

  lemma FilledEarlyDoes(e: AuditEvent, matches: AuditEvent -> bool)
    ensures Legal(START, FilledEarly(e), 3, matches)
    ensures var s := After(START, FilledEarly(e), 3, matches);
            && s.queue == [At(0), At(1), At(2)] && s.done == s.published == |s.log| == 3
            && s.phase.Following? && s.stage.TrySend? && s.hand.None?
  {
    OneStep(START, Subscribe, 3, matches);
    var s0 := After(START, [Subscribe], 3, matches);
    RoomDoes(s0, e, 3, matches);
    var s1 := After(s0, Room(e), 3, matches);
    RoomDoes(s1, e, 3, matches);
    var s2 := After(s1, Room(e), 3, matches);
    RoomDoes(s2, e, 3, matches);
    OneStep(After(s2, Room(e), 3, matches), List, 3, matches);
    RunConcat(START, [Subscribe], Room(e), 3, matches);
    RunConcat(START, [Subscribe] + Room(e), Room(e), 3, matches);
    RunConcat(START, [Subscribe] + Room(e) + Room(e), Room(e), 3, matches);
    RunConcat(START, [Subscribe] + Room(e) + Room(e) + Room(e), [List], 3, matches);
  }

  /** From there, a Resync comes to the front with an event behind it. */
  function BehindResync(e: AuditEvent): seq<Step> { FilledEarly(e) + Overflow(e) + [Receive, Handle] + Room(e) + Overflow(e) }

  lemma BehindResyncDoes(e: AuditEvent, matches: AuditEvent -> bool)
    ensures Legal(START, BehindResync(e), 3, matches)
    ensures var s := After(START, BehindResync(e), 3, matches);
            && s.queue == [Resync, At(4), Resync] && s.done == 3 && s.published == |s.log| == 6
            && s.phase.Following? && s.stage.TrySend? && s.hand.None?
  {
    FilledEarlyDoes(e, matches);
    var s0 := After(START, FilledEarly(e), 3, matches);
    OverflowDoes(s0, e, 3, matches);
    var s1 := After(s0, Overflow(e), 3, matches);
    TwoSteps(s1, Receive, Handle, 3, matches);
    var s2 := After(s1, [Receive, Handle], 3, matches);
    RoomDoes(s2, e, 3, matches);
    OverflowDoes(After(s2, Room(e), 3, matches), e, 3, matches);
    RunConcat(START, FilledEarly(e), Overflow(e), 3, matches);
    RunConcat(START, FilledEarly(e) + Overflow(e), [Receive, Handle], 3, matches);
    RunConcat(START, FilledEarly(e) + Overflow(e) + [Receive, Handle], Room(e), 3, matches);
    RunConcat(START, FilledEarly(e) + Overflow(e) + [Receive, Handle] + Room(e), Overflow(e), 3, matches);
  }

  /** An overflow can also expose by dropping a Resync. */
  lemma ResyncDropExposes(e: AuditEvent, matches: AuditEvent -> bool)
    ensures Legal(START, BehindResync(e), 3, matches)
    ensures var s := After(START, BehindResync(e), 3, matches); !Exposed(s) && s.queue != [] && s.queue[0].Resync?
    ensures Legal(START, BehindResync(e) + Overflow(e), 3, matches)
    ensures Exposed(After(START, BehindResync(e) + Overflow(e), 3, matches))
  {
    BehindResyncDoes(e, matches);
    OverflowDoes(After(START, BehindResync(e), 3, matches), e, 3, matches);
    RunConcat(START, BehindResync(e), Overflow(e), 3, matches);
  }

  /** A skipped event is lost for good: whatever follows, it stays skipped, and it is sent
      only if an equal event stands at a position that was not skipped. If it matches, the
      stream is not exact. */
  lemma GapLosesEvent(run: seq<Step>, more: seq<Step>, buffer: nat, matches: AuditEvent -> bool, i: nat)
    requires 0 < buffer && Legal(START, run + more, buffer, matches)
    requires var t := After(START, run + more, buffer, matches); t.phase.Following? && Ordered(t.log)
    requires Legal(START, run, buffer, matches) && i in After(START, run, buffer, matches).skipped
    ensures var t := After(START, run + more, buffer, matches);
            && i in t.skipped && t.listed <= i < t.done <= |t.log|
            && (t.log[i] in t.tail.sent ==> exists j :: t.listed <= j < t.done && j !in t.skipped && t.log[j] == t.log[i])
            && (matches(t.log[i]) ==> t.history + t.tail.sent != Matching(t.log[..t.done], matches))
  {
    RunConcat(START, run, more, buffer, matches);
    RunGrows(After(START, run, buffer, matches), more, buffer, matches);
    RunKeepsInv(START, run + more, buffer, matches);
    RunExact(START, run + more, buffer, matches);
    var t := After(START, run + more, buffer, matches);
    SentIff(run + more, buffer, matches, t.log[i]);
    FollowExactIff(run + more, buffer, matches);
  }

  // ---- The log the state machine writes ---------------------------------------------------------------------

  /** `b` is `a` with events of index `idx` appended. */
  ghost predicate Extends(a: Log, b: Log, idx: nat) {
    a <= b && forall i :: |a| <= i < |b| ==> b[i].raftIndex == idx
  }

  lemma {:induction false} AppliedAudit(s: State, cmd: Command, idx: nat)
    ensures Extends(s.audit, Applied(s, cmd, idx).audit, idx)
    decreases cmd, 1
  {
    if cmd.payload.Batch? {
      AppliedAllAudit(s, cmd.payload.children, idx);
    } else {
      assert Applied(s, cmd, idx).audit == s.audit + Carried(cmd.payload, idx) + Noted(cmd, idx);
    }
  }

  lemma {:induction false} AppliedAllAudit(s: State, cmds: seq<Command>, idx: nat)
    ensures Extends(s.audit, AppliedAll(s, cmds, idx).audit, idx)
    decreases cmds, 0
  {
    if cmds != [] {
      AppliedAudit(s, cmds[0], idx);
      AppliedAllAudit(Applied(s, cmds[0], idx), cmds[1..], idx);
    }
  }

  /** Replaying a raft log writes audit events in index order, as exactness asks. */
  lemma {:induction false} ReplayedAuditOrdered(s: State, log: seq<Entry>)
    requires Ordered(s.audit) && forall i, j :: 0 <= i < |s.audit| && 0 <= j < |log| ==> s.audit[i].raftIndex <= log[j].index
    requires forall i, j :: 0 <= i < j < |log| ==> log[i].index <= log[j].index
    ensures Ordered(Replayed(s, log).audit)
    decreases log
  {
    if log != [] {
      var t := if log[0].command.Some? then Applied(s, log[0].command.value, log[0].index) else s;
      if log[0].command.Some? {
        AppliedAudit(s, log[0].command.value, log[0].index);
      }
      ReplayedAuditOrdered(t, log[1..]);
    }
  }

  lemma NotedGrows(s: State, cmd: Command, idx: nat)
    requires !cmd.payload.Batch? && Noted(cmd, idx) != []
    ensures |Applied(s, cmd, idx).audit| > |s.audit|
  {
    assert Applied(s, cmd, idx).audit == s.audit + Carried(cmd.payload, idx) + Noted(cmd, idx);
  }

  lemma AppliedFirst(s: State, cmds: seq<Command>, idx: nat)
    requires cmds != []
    ensures AppliedAll(s, cmds, idx) == AppliedAll(Applied(s, cmds[0], idx), cmds[1..], idx)
  {
  }

  /** A batch of two audited commands appends two events with one index: the second is
      what follow mode drops. */
  lemma BatchSharesIndex(s: State, a: Command, b: Command, ts: Timestamp, idx: nat)
    requires !a.payload.Batch? && !b.payload.Batch? && Noted(a, idx) != [] && Noted(b, idx) != []
    ensures var log := Applied(s, Command(ts, "", Batch([a, b])), idx).audit;
            && |log| >= |s.audit| + 2
            && forall i :: |s.audit| <= i < |log| ==> log[i].raftIndex == idx
  {
    AppliedAudit(s, Command(ts, "", Batch([a, b])), idx);
    AppliedFirst(s, [a, b], idx);
    AppliedFirst(Applied(s, a, idx), [b], idx);
    NotedGrows(s, a, idx);
    NotedGrows(Applied(s, a, idx), b, idx);
  }
}
