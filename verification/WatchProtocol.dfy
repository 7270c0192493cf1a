/** Every interleaving of one store's writer, its broker and its subscribers.

    The writer mutates the store first and publishes afterwards; Publish holds
    the broker's lock while it serves one subscriber after another, and the three
    channel operations of an overflow are separate steps, so a subscriber may
    receive between any two of them. */
module WatchProtocol {
  import opened Prelude
  import opened Watch

  datatype Stage = TrySend | DropOldest | EnqueueResync

  datatype Phase<T> =
    | Idle
    | Written(ev: Event<T>)
    | Publishing(ev: Event<T>, owed: set<nat>, at: Option<(nat, Stage)>)

  /** A subscriber's channel, the event it has received and not yet handled, and its view. */
  datatype Subscriber<T> = Subscriber(queue: seq<Event<T>>, hand: seq<Event<T>>, view: map<string, T>)

  datatype System<!T> = System(
    key: T -> string,
    buffer: nat,
    store: map<string, T>,
    subs: map<nat, Subscriber<T>>,
    phase: Phase<T>)

  datatype Step<T> =
    | Write(v: T, idx: nat)
    | Erase(k: string, idx: nat)
    | Lock
    | Pick(i: nat)
    | Advance
    | Unlock
    | Receive(i: nat)
    | Handle(i: nat)
    | Join(i: nat, view: map<string, T>)
    | Leave(i: nat)

  ghost predicate Initial<T>(s: System<T>) {
    0 < s.buffer && s.store == map[] && s.subs == map[] && s.phase.Idle?
  }

  /** How a subscriber handles an event: deltas patch its view, Resync re-reads the store. */
  ghost function Observe<T>(view: map<string, T>, e: Event<T>, s: System<T>): map<string, T> {
    match e
    case Added(after, _) => view[s.key(after) := after]
    case Updated(_, after, _) => view[s.key(after) := after]
    case Removed(before, _) => view - {s.key(before)}
    case Resync => s.store
  }

  /** The broker's lock keeps joins and leaves out of a publish. */
  ghost predicate Enabled<T>(s: System<T>, step: Step<T>) {
    match step
    case Write(_, _) => s.phase.Idle?
    case Erase(_, _) => s.phase.Idle?
    case Lock => s.phase.Written?
    case Pick(i) => s.phase.Publishing? && s.phase.at.None? && i in s.phase.owed
    case Advance => s.phase.Publishing? && s.phase.at.Some? && s.phase.at.value.0 in s.subs
    case Unlock => s.phase.Publishing? && s.phase.at.None? && s.phase.owed == {}
    case Receive(i) => i in s.subs && s.subs[i].hand == [] && s.subs[i].queue != []
    case Handle(i) => i in s.subs && s.subs[i].hand != []
    case Join(i, _) => i !in s.subs && !s.phase.Publishing?
    case Leave(i) => !s.phase.Publishing?
  }

  ghost function Do<T>(s: System<T>, step: Step<T>): System<T>
    requires Enabled(s, step)
  {
    match step
    case Write(v, idx) =>
      s.(store := s.store[s.key(v) := v], phase := Written(PutEvent(s.store, s.key(v), v, idx)))
    case Erase(k, idx) =>
      if k in s.store then s.(store := s.store - {k}, phase := Written(Removed(s.store[k], idx))) else s
    case Lock => s.(phase := Publishing(s.phase.ev, s.subs.Keys, None))
    case Pick(i) => s.(phase := s.phase.(owed := s.phase.owed - {i}, at := Some((i, TrySend))))
    case Advance => DoAdvance(s, s.phase.at.value.0, s.phase.at.value.1)
    case Unlock => s.(phase := Idle)
    case Receive(i) =>
      var sub := s.subs[i];
      s.(subs := s.subs[i := sub.(queue := sub.queue[1..], hand := [sub.queue[0]])])
    case Handle(i) =>
      var sub := s.subs[i];
      s.(subs := s.subs[i := sub.(hand := sub.hand[1..], view := Observe(sub.view, sub.hand[0], s))])
    case Join(i, view) => s.(subs := s.subs[i := Subscriber([], [Resync], view)])
    case Leave(i) => s.(subs := s.subs - {i})
  }

  /** One channel operation of Publish on subscriber `i`. */
  ghost function DoAdvance<T>(s: System<T>, i: nat, stage: Stage): System<T>
    requires s.phase.Publishing? && i in s.subs
  {
    var q := s.subs[i].queue;
    match stage
    case TrySend =>
      if |q| < s.buffer then SetQueue(s, i, q + [s.phase.ev], None) else s.(phase := s.phase.(at := Some((i, DropOldest))))
    case DropOldest =>
      SetQueue(s, i, if |q| > 0 then q[1..] else q, Some((i, EnqueueResync)))
    case EnqueueResync =>
      SetQueue(s, i, if |q| < s.buffer then q + [Resync] else q, None)
  }

  ghost function SetQueue<T>(s: System<T>, i: nat, q: seq<Event<T>>, at: Option<(nat, Stage)>): System<T>
    requires s.phase.Publishing? && i in s.subs
  {
    s.(subs := s.subs[i := s.subs[i].(queue := q)], phase := s.phase.(at := at))
  }

  ghost predicate Legal<T>(s: System<T>, steps: seq<Step<T>>)
    decreases steps
  {
    steps != [] ==> Enabled(s, steps[0]) && Legal(Do(s, steps[0]), steps[1..])
  }

  ghost function After<T>(s: System<T>, steps: seq<Step<T>>): System<T>
    requires Legal(s, steps)
    decreases steps
  {
    if steps == [] then s else After(Do(s, steps[0]), steps[1..])
  }

  // ---- The invariant ----------------------------------------------------------

  /** The view after handling `es` in order, re-reading the current store on Resync. */
  ghost function Catchup<T>(view: map<string, T>, es: seq<Event<T>>, s: System<T>): map<string, T>
    decreases es
  {
    if es == [] then view else Catchup(Observe(view, es[0], s), es[1..], s)
  }

  /** What the publish in flight will still put in subscriber `i`'s channel. */
  ghost function Owed<T>(s: System<T>, i: nat): seq<Event<T>> {
    match s.phase
    case Idle => []
    case Written(ev) => [ev]
    case Publishing(ev, owed, at) =>
      if i in owed || at == Some((i, TrySend)) then [ev]
      else if at.Some? && at.value.0 == i then [Resync]
      else []
  }

  ghost function Pipeline<T>(s: System<T>, i: nat): seq<Event<T>>
    requires i in s.subs
  {
    s.subs[i].hand + s.subs[i].queue + Owed(s, i)
  }

  ghost predicate SubInv<T>(s: System<T>, i: nat)
    requires i in s.subs
  {
    && |s.subs[i].queue| <= s.buffer
    && Catchup(s.subs[i].view, Pipeline(s, i), s) == s.store
  }

  ghost predicate PhaseInv<T>(s: System<T>) {
    match s.phase
    case Idle => true
    case Written(ev) => Observe(s.store, ev, s) == s.store
    case Publishing(_, owed, at) =>
      && owed <= s.subs.Keys
      && (at.Some? ==>
            && at.value.0 in s.subs
            && at.value.0 !in owed
            && (at.value.1 == EnqueueResync ==> |s.subs[at.value.0].queue| < s.buffer))
  }

  ghost predicate Inv<T>(s: System<T>) {
    && 0 < s.buffer
    && Filed(s.store, s.key)
    && PhaseInv(s)
    && forall i :: i in s.subs ==> SubInv(s, i)
  }

  lemma {:induction false} CatchupLast<T>(view: map<string, T>, es: seq<Event<T>>, e: Event<T>, s: System<T>)
    ensures Catchup(view, es + [e], s) == Observe(Catchup(view, es, s), e, s)
    decreases es
  {
    if es != [] {
      assert (es + [e])[1..] == es[1..] + [e];
      CatchupLast(Observe(view, es[0], s), es[1..], e, s);
    } else {
      assert [e][1..] == [];
    }
  }

  /** Two systems with the same key function whose stores agree off key `k`. */
  ghost predicate AgreeOff<T>(a: map<string, T>, b: map<string, T>, k: string) {
    a - {k} == b - {k}
  }

  lemma {:induction false} CatchupOff<T>(v: map<string, T>, v': map<string, T>, es: seq<Event<T>>, s: System<T>, s': System<T>, k: string)
    requires s.key == s'.key && AgreeOff(v, v', k) && AgreeOff(s.store, s'.store, k)
    ensures AgreeOff(Catchup(v, es, s), Catchup(v', es, s'), k)
    decreases es
  {
    if es != [] {
      ObserveOff(v, v', es[0], s, s', k);
      CatchupOff(Observe(v, es[0], s), Observe(v', es[0], s'), es[1..], s, s', k);
    }
  }

  lemma ObserveOff<T>(v: map<string, T>, v': map<string, T>, e: Event<T>, s: System<T>, s': System<T>, k: string)
    requires s.key == s'.key && AgreeOff(v, v', k) && AgreeOff(s.store, s'.store, k)
    ensures AgreeOff(Observe(v, e, s), Observe(v', e, s'), k)
  {
    var w, w' := Observe(v, e, s), Observe(v', e, s');
    forall x | x != k ensures (x in w <==> x in w') && (x in w ==> w[x] == w'[x]) {
      assert x in v <==> x in v - {k};
      assert x in v' <==> x in v' - {k};
      assert x in s.store <==> x in s.store - {k};
      assert x in s'.store <==> x in s'.store - {k};
    }
    assert w - {k} == w' - {k};
  }

  /** A pipeline that settles on the store still does so after a mutation whose
      event is appended to it. */
  lemma MutationSettles<T>(view: map<string, T>, es: seq<Event<T>>, s: System<T>, step: Step<T>)
    requires Inv(s) && (step.Write? || (step.Erase? && step.k in s.store)) && Enabled(s, step)
    requires Catchup(view, es, s) == s.store
    ensures Catchup(view, es + [Do(s, step).phase.ev], Do(s, step)) == Do(s, step).store
  {
    var s' := Do(s, step);
    var k := if step.Write? then s.key(step.v) else step.k;
    assert AgreeOff(s.store, s'.store, k);
    CatchupOff(view, view, es, s, s', k);
    CatchupLast(view, es, s'.phase.ev, s');
    var w := Catchup(view, es, s');
    assert w - {k} == s'.store - {k};
    assert forall x :: x != k ==> (x in w <==> x in w - {k}) && (x in s'.store <==> x in s'.store - {k});
  }

  lemma {:induction false} SameStoreCatchup<T>(view: map<string, T>, es: seq<Event<T>>, s: System<T>, s': System<T>)
    requires s.key == s'.key && s.store == s'.store
    ensures Catchup(view, es, s) == Catchup(view, es, s')
    decreases es
  {
    if es != [] {
      SameStoreCatchup(Observe(view, es[0], s), es[1..], s, s');
    }
  }

  lemma MutateKeepsInv<T>(s: System<T>, step: Step<T>)
    requires Inv(s) && Enabled(s, step) && (step.Write? || step.Erase?)
    ensures Inv(Do(s, step))
  {
    if step.Write? || step.k in s.store {
      var s' := Do(s, step);
      forall i | i in s'.subs ensures SubInv(s', i) {
        var sub := s.subs[i];
        assert SubInv(s, i);
        assert Pipeline(s, i) == sub.hand + sub.queue;
        MutationSettles(sub.view, sub.hand + sub.queue, s, step);
      }
    }
  }

  lemma AdvanceKeepsInv<T>(s: System<T>)
    requires Inv(s) && Enabled(s, Advance)
    ensures Inv(Do(s, Advance))
  {
    var s' := Do(s, Advance);
    forall i | i in s'.subs ensures SubInv(s', i) {
      assert SubInv(s, i);
      if i == s.phase.at.value.0 {
        ServedSettles(s);
      } else {
        BystanderSettles(s, i);
      }
    }
  }

  lemma BystanderSettles<T>(s: System<T>, i: nat)
    requires Enabled(s, Advance) && i in s.subs && i != s.phase.at.value.0 && SubInv(s, i)
    ensures i in Do(s, Advance).subs && SubInv(Do(s, Advance), i)
  {
    var s' := Do(s, Advance);
    assert s'.subs[i] == s.subs[i] && Owed(s', i) == Owed(s, i);
    SameStoreCatchup(s.subs[i].view, Pipeline(s, i), s, s');
  }

  /** The subscriber being served: its pipeline is unchanged, or it now ends with a Resync. */
  lemma ServedSettles<T>(s: System<T>)
    requires PhaseInv(s) && Enabled(s, Advance) && SubInv(s, s.phase.at.value.0) && 0 < s.buffer
    ensures SubInv(Do(s, Advance), s.phase.at.value.0)
  {
    var s', i := Do(s, Advance), s.phase.at.value.0;
    var sub, sub' := s.subs[i], s'.subs[i];
    if s'.phase.at.None? {
      assert Pipeline(s', i) == Pipeline(s, i);
      SameStoreCatchup(sub.view, Pipeline(s, i), s, s');
    } else {
      CatchupLast(sub'.view, sub'.hand + sub'.queue, Resync, s');
    }
  }

  lemma ReceiveKeepsInv<T>(s: System<T>, r: nat)
    requires Inv(s) && Enabled(s, Receive(r))
    ensures Inv(Do(s, Receive(r)))
  {
    var s' := Do(s, Receive(r));
    forall i | i in s'.subs ensures SubInv(s', i) {
      assert SubInv(s, i);
      ReceiveSettles(s, r, i);
    }
  }

  /** Taking an event in hand leaves every pipeline as it was. */
  lemma ReceiveSettles<T>(s: System<T>, r: nat, i: nat)
    requires Enabled(s, Receive(r)) && i in s.subs && SubInv(s, i)
    ensures i in Do(s, Receive(r)).subs && SubInv(Do(s, Receive(r)), i)
  {
    var s' := Do(s, Receive(r));
    assert s'.subs[i].hand + s'.subs[i].queue == s.subs[i].hand + s.subs[i].queue;
    assert Owed(s', i) == Owed(s, i);
    SameStoreCatchup(s.subs[i].view, Pipeline(s, i), s, s');
  }

  lemma HandleKeepsInv<T>(s: System<T>, r: nat)
    requires Inv(s) && Enabled(s, Handle(r))
    ensures Inv(Do(s, Handle(r)))
  {
    var s' := Do(s, Handle(r));
    forall i | i in s'.subs ensures SubInv(s', i) {
      assert SubInv(s, i);
      if i == r {
        HandleSettles(s, r);
      } else {
        assert Pipeline(s', i) == Pipeline(s, i);
        SameStoreCatchup(s.subs[i].view, Pipeline(s, i), s, s');
      }
    }
  }

  lemma HandleSettles<T>(s: System<T>, r: nat)
    requires r in s.subs && SubInv(s, r) && Enabled(s, Handle(r))
    ensures SubInv(Do(s, Handle(r)), r)
  {
    var s' := Do(s, Handle(r));
    var sub := s.subs[r];
    var es := sub.hand[1..] + sub.queue + Owed(s, r);
    assert Pipeline(s, r) == [sub.hand[0]] + es;
    assert Pipeline(s, r)[1..] == es;
    assert Pipeline(s', r) == es;
    SameStoreCatchup(Observe(sub.view, sub.hand[0], s), es, s, s');
  }

  lemma BookkeepingKeepsInv<T>(s: System<T>, step: Step<T>)
    requires Inv(s) && Enabled(s, step)
    requires step.Lock? || step.Pick? || step.Unlock? || step.Join? || step.Leave?
    ensures Inv(Do(s, step))
  {
    var s' := Do(s, step);
    forall i | i in s'.subs ensures SubInv(s', i) {
      if step.Join? && i == step.i {
        JoinerSettles(s', i);
      } else {
        assert SubInv(s, i);
        SameStoreCatchup(s.subs[i].view, Pipeline(s, i), s, s');
        assert Pipeline(s', i) == Pipeline(s, i);
      }
    }
  }

  /** A new subscriber first reads the whole store, so a publish already in flight is harmless. */
  lemma JoinerSettles<T>(s: System<T>, i: nat)
    requires i in s.subs && s.subs[i].hand == [Resync] && s.subs[i].queue == []
    requires s.phase.Idle? || (s.phase.Written? && Observe(s.store, s.phase.ev, s) == s.store)
    ensures Catchup(s.subs[i].view, Pipeline(s, i), s) == s.store
  {
    CatchupLast(s.subs[i].view, [], Resync, s);
    if s.phase.Written? {
      CatchupLast(s.subs[i].view, [Resync], s.phase.ev, s);
    } else {
      assert Pipeline(s, i) == [] + [Resync];
    }
  }

  lemma StepKeepsInv<T>(s: System<T>, step: Step<T>)
    requires Inv(s) && Enabled(s, step)
    ensures Inv(Do(s, step))
  {
    match step
    case Write(_, _) => MutateKeepsInv(s, step);
    case Erase(_, _) => MutateKeepsInv(s, step);
    case Advance => AdvanceKeepsInv(s);
    case Receive(r) => ReceiveKeepsInv(s, r);
    case Handle(r) => HandleKeepsInv(s, r);
    case _ => BookkeepingKeepsInv(s, step);
  }

  lemma {:induction false} RunKeepsInv<T>(s: System<T>, steps: seq<Step<T>>)
    requires Inv(s) && Legal(s, steps)
    ensures Inv(After(s, steps))
    decreases steps
  {
    if steps != [] {
      StepKeepsInv(s, steps[0]);
      RunKeepsInv(Do(s, steps[0]), steps[1..]);
    }
  }

  // ---- Main results -----------------------------------------------------------

  /** However often channels overflowed along the way: no channel exceeds its
      buffer, the Resync of an overflow always finds a slot, and once the writer
      is idle a subscriber that handles what it still holds ends with exactly the
      store; with nothing left to handle its view is the store already. */
  lemma SubscribersConverge<T>(init: System<T>, steps: seq<Step<T>>, i: nat)
    requires Initial(init) && Legal(init, steps) && i in After(init, steps).subs
    ensures var s := After(init, steps); var sub := s.subs[i];
            && |sub.queue| <= init.buffer
            && (s.phase.Publishing? && s.phase.at == Some((i, EnqueueResync)) ==> |sub.queue| < init.buffer)
            && (s.phase.Idle? ==> Catchup(sub.view, sub.hand + sub.queue, s) == s.store)
            && (s.phase.Idle? && sub.hand == sub.queue == [] ==> sub.view == s.store)
  {
    RunKeepsInv(init, steps);
    BufferFixed(init, steps);
    var s := After(init, steps);
    assert SubInv(s, i);
    assert s.phase.Idle? ==> Pipeline(s, i) == s.subs[i].hand + s.subs[i].queue;
  }

  lemma {:induction false} BufferFixed<T>(s: System<T>, steps: seq<Step<T>>)
    requires Legal(s, steps)
    ensures After(s, steps).buffer == s.buffer
    decreases steps
  {
    if steps != [] {
      BufferFixed(Do(s, steps[0]), steps[1..]);
    }
  }

  /** Served without interruption, a subscriber's channel ends as `Offer` says:
      the stepwise protocol refines the atomic publish of the broker class. */
  lemma AdvancesRefineOffer<T>(s: System<T>, i: nat)
    requires s.phase.Publishing? && i in s.subs && |s.subs[i].queue| <= s.buffer && 0 < s.buffer
    ensures var offered := SetQueue(s, i, Offer(s.subs[i].queue, s.buffer, s.phase.ev), None);
            var s1 := DoAdvance(s, i, TrySend);
            if |s.subs[i].queue| < s.buffer then s1 == offered
            else DoAdvance(DoAdvance(s1, i, DropOldest), i, EnqueueResync) == offered
  {
    var q := s.subs[i].queue;
    if |q| >= s.buffer {
      var s1 := DoAdvance(s, i, TrySend);
      var s2 := DoAdvance(s1, i, DropOldest);
      assert s2.subs[i].queue == q[1..];
    }
  }
}
