/** What repeated reconcile passes achieve, and what a rolling pass may change. */
module SchedulerRuns {
  import opened Prelude
  import opened Text
  import opened Sorting
  import opened Cidr
  import opened Entities
  import opened Fsm
  import opened Placement
  import opened Scheduler

  /** The batch the scheduler submits for a pass. */
  function Upsert(r: ReplicaDesired): Command { Command(None, "scheduler", DesiredUpsert(Some(r))) }
  function Remove(id: string): Command { Command(None, "scheduler", DesiredRemove(id)) }

  function Commands(reps: seq<ReplicaDesired>, removes: seq<string>): seq<Command> {
    seq(|reps|, i requires 0 <= i < |reps| => Upsert(reps[i])) + seq(|removes|, i requires 0 <= i < |removes| => Remove(removes[i]))
  }

  function Submitted(s: State, o: Outcome, idx: nat): State
    requires o.Pass?
  {
    Applied(s, Command(None, "scheduler", Batch(Commands(o.reps, o.removes))), idx)
  }

  // ---- Effect of a batch on the records -------------------------------------------------------

  function Stamped(reps: seq<ReplicaDesired>, idx: nat): seq<ReplicaDesired> {
    seq(|reps|, i requires 0 <= i < |reps| => reps[i].(raftIndex := idx))
  }

  lemma LeafDesired(s: State, cmd: Command, idx: nat)
    requires cmd.payload.DesiredUpsert? || cmd.payload.DesiredRemove?
    ensures Applied(s, cmd, idx).desired == DesiredStep(s.desired, cmd.payload, idx)
  {
    assert Mutated(s, cmd, idx) == AfterEntry(s, cmd, idx);
  }

  predicate TouchesDesired(cmd: Command) { cmd.payload.DesiredUpsert? || cmd.payload.DesiredRemove? }

  function DesiredRun(desired: Replicas, cmds: seq<Command>, idx: nat): Replicas
    decreases cmds
  {
    if cmds == [] then desired else DesiredRun(DesiredStep(desired, cmds[0].payload, idx), cmds[1..], idx)
  }

  /** The records after a batch of upserts and removes. */
  lemma {:induction false} DesiredFollows(s: State, cmds: seq<Command>, idx: nat)
    requires forall c :: c in cmds ==> TouchesDesired(c)
    ensures AppliedAll(s, cmds, idx).desired == DesiredRun(s.desired, cmds, idx)
    decreases cmds
  {
    if cmds != [] {
      assert cmds[0] in cmds;
      LeafDesired(s, cmds[0], idx);
      DesiredFollows(Applied(s, cmds[0], idx), cmds[1..], idx);
    }
  }

  lemma {:induction false} DesiredRunLast(desired: Replicas, cmds: seq<Command>, last: Command, idx: nat)
    ensures DesiredRun(desired, cmds + [last], idx) == DesiredStep(DesiredRun(desired, cmds, idx), last.payload, idx)
    decreases cmds
  {
    if cmds != [] {
      assert (cmds + [last])[1..] == cmds[1..] + [last];
      DesiredRunLast(DesiredStep(desired, cmds[0].payload, idx), cmds[1..], last, idx);
    }
  }

  function AsSet(ids: seq<string>): set<string> { set k | k in ids }

  lemma {:induction false} RunOfUpserts(desired: Replicas, reps: seq<ReplicaDesired>, idx: nat)
    ensures DesiredRun(desired, Commands(reps, []), idx) == UpsertAll(desired, Stamped(reps, idx), KeyOfDesired)
    decreases reps
  {
    if reps != [] {
      var n := |reps| - 1;
      RunOfUpserts(desired, reps[..n], idx);
      assert Commands(reps, []) == Commands(reps[..n], []) + [Upsert(reps[n])];
      DesiredRunLast(desired, Commands(reps[..n], []), Upsert(reps[n]), idx);
      assert Stamped(reps, idx)[..n] == Stamped(reps[..n], idx);
    }
  }

  lemma {:induction false} RunOfCommands(desired: Replicas, reps: seq<ReplicaDesired>, removes: seq<string>, idx: nat)
    ensures DesiredRun(desired, Commands(reps, removes), idx) ==
            UpsertAll(desired, Stamped(reps, idx), KeyOfDesired) - AsSet(removes)
    decreases removes
  {
    if removes == [] {
      RunOfUpserts(desired, reps, idx);
      assert AsSet(removes) == {};
    } else {
      var n := |removes| - 1;
      RunOfCommands(desired, reps, removes[..n], idx);
      assert Commands(reps, removes) == Commands(reps, removes[..n]) + [Remove(removes[n])];
      DesiredRunLast(desired, Commands(reps, removes[..n]), Remove(removes[n]), idx);
      RemoveOneMore(UpsertAll(desired, Stamped(reps, idx), KeyOfDesired), AsSet(removes[..n]), removes[n]);
      assert removes == removes[..n] + [removes[n]];
      assert AsSet(removes) == AsSet(removes[..n]) + {removes[n]};
    }
  }

  lemma {:induction false} PassApplies(s: State, o: Outcome, idx: nat)
    requires o.Pass?
    ensures Submitted(s, o, idx).desired == UpsertAll(s.desired, Stamped(o.reps, idx), KeyOfDesired) - AsSet(o.removes)
  {
    DesiredFollows(s, Commands(o.reps, o.removes), idx);
    RunOfCommands(s.desired, o.reps, o.removes, idx);
  }

  // ---- Settled ids ------------------------------------------------------------------------

  /** A replica on an admissible host with the right image and spec. */
  predicate Good(t: Target, r: ReplicaDesired) {
    Admissible(t, r.host) && r.image == t.image && r.specHash == t.specHash
  }

  /** The ids on which records and wants disagree: wanted but missing or wrong, or surplus. */
  function Unsettled(t: Target, desired: Replicas, ids: set<string>): set<string> {
    set k | k in Mine(t, desired).Keys + ids && !(k in ids && k in Mine(t, desired) && Good(t, desired[k]))
  }

  /** The inputs the source validates: real host names, and a host list under HOSTS. */
  ghost predicate ValidTarget(t: Target) {
    && "" !in t.eligible
    && (t.svc.placement.Hosts? ==> forall h :: h in t.eligible ==> h in t.svc.hosts)
  }

  /** Eligible hosts of named nodes make a valid target, given the host list that the
      spec validation demands under HOSTS. */
  lemma EligibleIsValid(t: Target, nodes: seq<Node>)
    requires multiset(t.eligible) == multiset(Pick(nodes, EligibleTo(t.svc), HostnameOf))
    requires (forall n :: n in nodes ==> n.hostname != "") && (t.svc.placement.Hosts? ==> t.svc.hosts != [])
    ensures ValidTarget(t)
  {
    forall h | h in t.eligible ensures h != "" && (t.svc.placement.Hosts? ==> h in t.svc.hosts) {
      EligibleArePinned(t.svc, nodes, t.eligible, h);
    }
  }

  lemma WantsAdmissible(t: Target, counts: map<string, nat>, hash: (string, string, nat) -> nat, wants: seq<Want>, w: Want)
    requires ValidTarget(t) && IsWants(t, counts, hash, wants) && w in wants
    ensures Admissible(t, w.host)
  {
  }

  /** With admissible wants, a want matches exactly when its record is good. */
  lemma MatchIsGood(t: Target, cur: Replicas, w: Want)
    requires Admissible(t, w.host)
    ensures Matches(t, cur, w) <==> w.id in cur && Good(t, cur[w.id])
    ensures Good(t, Rep(t, cur, w))
  {
  }

  /** The ids a pass upserts. */
  function RepIds(reps: seq<ReplicaDesired>): set<string> { set r | r in reps :: r.id }

  /** Every upsert of a plan comes from a want it found lacking. */
  lemma {:induction false} PlannedFrom(t: Target, cur: Replicas, wants: seq<Want>, r: ReplicaDesired)
    requires r in Planned(t, cur, wants).reps
    ensures exists w :: w in wants && r == Rep(t, cur, w) && !Matches(t, cur, w)
    decreases wants
  {
    var n := |wants| - 1;
    if r in Planned(t, cur, wants[..n]).reps {
      PlannedFrom(t, cur, wants[..n], r);
      assert wants == wants[..n] + [wants[n]];
    }
  }

  /** A plan that emits nothing found nothing lacking. */
  lemma {:induction false} EmptyPlan(t: Target, cur: Replicas, wants: seq<Want>)
    requires t.step < 0 && Planned(t, cur, wants).reps == []
    ensures forall w :: w in wants ==> Matches(t, cur, w)
    ensures !Planned(t, cur, wants).flipped
    decreases wants
  {
    if wants != [] {
      var n := |wants| - 1;
      EmptyPlan(t, cur, wants[..n]);
      assert wants == wants[..n] + [wants[n]];
    }
  }

  /** A plan over matching wants is empty. */
  lemma {:induction false} MatchingPlan(t: Target, cur: Replicas, wants: seq<Want>)
    requires forall w :: w in wants ==> Matches(t, cur, w)
    ensures Planned(t, cur, wants) == Plan([], false)
    decreases wants
  {
    if wants != [] {
      MatchingPlan(t, cur, wants[..|wants| - 1]);
    }
  }

  // ---- Progress -----------------------------------------------------------------------------

  ghost function FirstIds(deployment: string, service: string, n: nat): (r: set<string>)
    ensures forall i: nat :: i < n ==> ReplicaID(deployment, service, i) in r
    ensures forall k :: k in r ==> exists i: nat :: i < n && k == ReplicaID(deployment, service, i)
  {
    if n == 0 then {} else FirstIds(deployment, service, n - 1) + {ReplicaID(deployment, service, n - 1)}
  }

  /** The ids a service should have; they do not depend on where replicas run now. */
  ghost function DesiredIds(t: Target): set<string> {
    if t.svc.placement.Global? then set h | h in t.eligible :: ReplicaIDForHost(t.deployment, t.svc.name, h)
    else FirstIds(t.deployment, t.svc.name, if t.svc.replicas < 0 then 0 else t.svc.replicas)
  }

  lemma WantIdsAreDesired(t: Target, counts: map<string, nat>, hash: (string, string, nat) -> nat, wants: seq<Want>)
    requires IsWants(t, counts, hash, wants)
    ensures WantIds(wants) == DesiredIds(t)
  {
  }

  /** The record of one id after a pass: removed, upserted as planned, or untouched. */
  lemma RecordAfter(desired: Replicas, reps: seq<ReplicaDesired>, removes: seq<string>, idx: nat, k: string)
    ensures var after := UpsertAll(desired, Stamped(reps, idx), KeyOfDesired) - AsSet(removes);
            && (k in removes ==> k !in after)
            && (k !in removes && k !in RepIds(reps) ==>
                  (k in after <==> k in desired) && (k in after ==> after[k] == desired[k]))
            && (k !in removes && k in RepIds(reps) ==>
                  k in after && exists r :: r in reps && r.id == k && after[k] == r.(raftIndex := idx))
  {
    var stamped := Stamped(reps, idx);
    UpsertAllAt(desired, stamped, KeyOfDesired, k);
    var last := LastWith(stamped, KeyOfDesired, k);
    if last.Some? {
      var i :| 0 <= i < |stamped| && stamped[i] == last.value;
      assert reps[i] in reps && stamped[i] == reps[i].(raftIndex := idx);
    } else {
      forall i | 0 <= i < |reps| ensures reps[i].id != k {
        assert stamped[i] in stamped;
      }
    }
  }

  /** Everything a pass does to one id: surplus ids go, upserted ids end up good, the rest keep their record. */
  lemma PassAt(t: Target, s: State, hash: (string, string, nat) -> nat, counts: map<string, nat>, wants: seq<Want>, o: Outcome, idx: nat, k: string)
    requires ValidTarget(t) && IsPass(t, s.desired, hash, counts, wants, o)
    ensures var d, d' := s.desired, Submitted(s, o, idx).desired;
            && (k in o.removes ==> k in Mine(t, d) && k !in DesiredIds(t) && k !in d')
            && (k in RepIds(o.reps) ==>
                  && k in DesiredIds(t) && !(k in Mine(t, d) && Good(t, d[k]))
                  && k in Mine(t, d') && Good(t, d'[k]))
            && (k !in o.removes && k !in RepIds(o.reps) ==> (k in d' <==> k in d) && (k in d' ==> d'[k] == d[k]))
  {
    PassApplies(s, o, idx);
    WantIdsAreDesired(t, counts, hash, wants);
    RecordAfter(s.desired, o.reps, o.removes, idx, k);
    if k in RepIds(o.reps) {
      UpsertIsGood(t, s.desired, hash, counts, wants, o, k);
    }
  }

  lemma UpsertIsGood(t: Target, desired: Replicas, hash: (string, string, nat) -> nat, counts: map<string, nat>, wants: seq<Want>, o: Outcome, k: string)
    requires ValidTarget(t) && IsPass(t, desired, hash, counts, wants, o) && k in RepIds(o.reps)
    ensures k in WantIds(wants) && k !in o.removes
    ensures !(k in Mine(t, desired) && Good(t, desired[k]))
    ensures forall r :: r in o.reps && r.id == k ==> Good(t, r) && IsMine(t, r)
  {
    var cur := Mine(t, desired);
    forall r | r in o.reps && r.id == k
      ensures k in WantIds(wants) && Good(t, r) && IsMine(t, r) && !(k in cur && Good(t, cur[k]))
    {
      PlannedFrom(t, cur, wants, r);
      var w :| w in wants && r == Rep(t, cur, w) && !Matches(t, cur, w);
      WantsAdmissible(t, counts, hash, wants, w);
      MatchIsGood(t, cur, w);
    }
  }

  /** Every pass that emits anything settles at least one id and unsettles none. */
  lemma PassMakesProgress(t: Target, s: State, hash: (string, string, nat) -> nat, o: Outcome, idx: nat)
    requires ValidTarget(t) && Passes(t, s.desired, hash, o)
    requires o.reps != [] || o.removes != []
    ensures Unsettled(t, Submitted(s, o, idx).desired, DesiredIds(t)) < Unsettled(t, s.desired, DesiredIds(t))
  {
    var counts, wants :| IsPass(t, s.desired, hash, counts, wants, o);
    var ids, before, after := DesiredIds(t), Unsettled(t, s.desired, DesiredIds(t)),
                              Unsettled(t, Submitted(s, o, idx).desired, DesiredIds(t));
    forall k | k in after ensures k in before {
      PassAt(t, s, hash, counts, wants, o, idx, k);
    }
    var k := if o.reps != [] then o.reps[0].id else o.removes[0];
    PassAt(t, s, hash, counts, wants, o, idx, k);
    assert o.reps != [] ==> o.reps[0].id in RepIds(o.reps);
    assert k in before && k !in after;
  }

  /** With no rollout driving, a pass emits nothing exactly when every id is settled. */
  lemma PassEmptyIffSettled(t: Target, desired: Replicas, hash: (string, string, nat) -> nat, o: Outcome)
    requires ValidTarget(t) && t.step < 0 && Passes(t, desired, hash, o)
    ensures o.reps == [] && o.removes == [] <==> Unsettled(t, desired, DesiredIds(t)) == {}
  {
    var counts, wants :| IsPass(t, desired, hash, counts, wants, o);
    var cur := Mine(t, desired);
    WantIdsAreDesired(t, counts, hash, wants);
    assert o.removes == [] || o.removes[0] in Surplus(cur, wants);
    if o.reps == [] && o.removes == [] {
      EmptyPlan(t, cur, wants);
      assert Surplus(cur, wants) == {};
      forall k | k in cur.Keys + DesiredIds(t) ensures k in DesiredIds(t) && k in cur && Good(t, desired[k]) {
        assert k in cur ==> k !in Surplus(cur, wants);
        var w: Want :| w in wants && w.id == k;
        WantsAdmissible(t, counts, hash, wants, w);
        MatchIsGood(t, cur, w);
      }
    }
    if Unsettled(t, desired, DesiredIds(t)) == {} {
      forall w | w in wants ensures Matches(t, cur, w) {
        assert w.id in WantIds(wants);
        assert w.id !in Unsettled(t, desired, DesiredIds(t));
        WantsAdmissible(t, counts, hash, wants, w);
        MatchIsGood(t, cur, w);
      }
      MatchingPlan(t, cur, wants);
      assert Surplus(cur, wants) <= Unsettled(t, desired, DesiredIds(t));
    }
  }

  lemma IdsInjective(deployment: string, service: string, i: nat, j: nat)
    requires ReplicaID(deployment, service, i) == ReplicaID(deployment, service, j)
    ensures i == j
  {
    var head := deployment + "-" + service + "-";
    assert ReplicaID(deployment, service, i)[|head|..] == Digits(i) && ReplicaID(deployment, service, j)[|head|..] == Digits(j);
    ParseDigits(i);
    ParseDigits(j);
  }

  lemma {:induction false} FirstIdsCount(deployment: string, service: string, n: nat)
    ensures |FirstIds(deployment, service, n)| == n
    decreases n
  {
    if n > 0 {
      FirstIdsCount(deployment, service, n - 1);
      var last := ReplicaID(deployment, service, n - 1);
      if last in FirstIds(deployment, service, n - 1) {
        var i: nat :| i < n - 1 && last == ReplicaID(deployment, service, i);
        IdsInjective(deployment, service, i, n - 1);
      }
    }
  }

  /** A settled service has exactly its ids on record, all good, and, unless GLOBAL, as
      many as it asked for. */
  lemma SettledMeans(t: Target, desired: Replicas)
    requires Unsettled(t, desired, DesiredIds(t)) == {}
    ensures Mine(t, desired).Keys == DesiredIds(t)
    ensures forall k :: k in Mine(t, desired) ==> Good(t, desired[k])
    ensures !t.svc.placement.Global? && t.svc.replicas >= 0 ==> |Mine(t, desired)| == t.svc.replicas
  {
    forall k | k in Mine(t, desired).Keys + DesiredIds(t) ensures k in DesiredIds(t) && k in Mine(t, desired) && Good(t, desired[k]) {
      assert k !in Unsettled(t, desired, DesiredIds(t));
    }
    if !t.svc.placement.Global? && t.svc.replicas >= 0 {
      FirstIdsCount(t.deployment, t.svc.name, t.svc.replicas);
    }
  }

  /** One non-empty pass, submitted as a batch. */
  ghost predicate Advances(t: Target, hash: (string, string, nat) -> nat, s: State, s': State) {
    exists o, idx ::
      Passes(t, s.desired, hash, o) && (o.reps != [] || o.removes != []) && s' == Submitted(s, o, idx)
  }

  /** Reconciling terminates: a run of non-empty passes is no longer than the number of
      ids that were unsettled at its start. */
  lemma {:induction false} PassesTerminate(t: Target, hash: (string, string, nat) -> nat, states: seq<State>)
    requires ValidTarget(t) && states != []
    requires forall i :: 0 <= i < |states| - 1 ==> Advances(t, hash, states[i], states[i + 1])
    ensures |states| - 1 <= |Unsettled(t, states[0].desired, DesiredIds(t))|
    decreases states
  {
    if |states| > 1 {
      assert Advances(t, hash, states[0], states[1]);
      var o, idx :|
        Passes(t, states[0].desired, hash, o) && (o.reps != [] || o.removes != []) && states[1] == Submitted(states[0], o, idx);
      PassMakesProgress(t, states[0], hash, o, idx);
      forall i | 0 <= i < |states[1..]| - 1 ensures Advances(t, hash, states[1..][i], states[1..][i + 1]) {
        assert Advances(t, hash, states[i + 1], states[i + 2]);
      }
      PassesTerminate(t, hash, states[1..]);
      SmallerSet(Unsettled(t, states[1].desired, DesiredIds(t)), Unsettled(t, states[0].desired, DesiredIds(t)));
    }
  }

  lemma SmallerSet(a: set<string>, b: set<string>)
    requires a < b
    ensures |a| < |b|
  {
    assert b == a + (b - a);
    assert |b - a| > 0;
  }

  // ---- Rolling image changes -------------------------------------------------------------------

  /** How many upserts change the image of a replica that keeps its host. */
  function Flipped(t: Target, cur: Replicas, reps: seq<ReplicaDesired>): nat {
    if reps == [] then 0
    else
      var n := |reps| - 1;
      var r := reps[n];
      Flipped(t, cur, reps[..n])
        + if r.id in cur && cur[r.id].host == r.host && cur[r.id].image != r.image then 1 else 0
  }

  lemma FlippedNext(t: Target, cur: Replicas, reps: seq<ReplicaDesired>, r: ReplicaDesired)
    ensures Flipped(t, cur, reps + [r]) ==
            Flipped(t, cur, reps) + if r.id in cur && cur[r.id].host == r.host && cur[r.id].image != r.image then 1 else 0
  {
    assert (reps + [r])[..|reps|] == reps;
  }

  lemma {:induction false} FlipsBounded(t: Target, cur: Replicas, wants: seq<Want>)
    requires IsRolling(cur, t.image)
    requires forall i :: 0 <= i < |wants| ==> wants[i].index == i
    ensures var p := Planned(t, cur, wants);
            && Flipped(t, cur, p.reps) <= 1
            && (t.step < 0 && !p.flipped ==> Flipped(t, cur, p.reps) == 0)
            && (t.step >= |wants| ==> Flipped(t, cur, p.reps) == 0)
    decreases wants
  {
    if wants != [] {
      var n := |wants| - 1;
      FlipsBounded(t, cur, wants[..n]);
      FlippedNext(t, cur, Planned(t, cur, wants[..n]).reps, Rep(t, cur, wants[n]));
    }
  }

  /** Whatever the rollout driver returned: in a rolling pass at most one replica that
      keeps its host gets a new image, and no replica on an admissible host is moved. */
  lemma RollingPassIsGentle(t: Target, desired: Replicas, hash: (string, string, nat) -> nat, o: Outcome, r: ReplicaDesired)
    requires Passes(t, desired, hash, o)
    ensures IsRolling(Mine(t, desired), t.image) ==> Flipped(t, Mine(t, desired), o.reps) <= 1
    ensures r in o.reps && r.id in Mine(t, desired) && Admissible(t, desired[r.id].host) ==> r.host == desired[r.id].host
  {
    var counts, wants :| IsPass(t, desired, hash, counts, wants, o);
    if IsRolling(Mine(t, desired), t.image) {
      FlipsBounded(t, Mine(t, desired), wants);
    }
    if r in o.reps {
      PlannedFrom(t, Mine(t, desired), wants, r);
    }
  }
}
