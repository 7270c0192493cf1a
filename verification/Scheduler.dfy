/** One service's reconcile pass: the difference between the desired replicas on
    record and those the service should have. */
module Scheduler {
  import opened Prelude
  import opened Sorting
  import opened Entities
  import opened Placement

  /** A replica the service should have, with the host placement would give it. */
  datatype Want = Want(id: string, host: string, index: int)

  /** The fixed inputs of a pass. `step` is what the rollout driver returned, -1 when
      it drives nothing. */
  datatype Target = Target(
    deployment: string, svc: ServiceSpec, eligible: seq<string>, image: string, specHash: Bytes, step: int)

  type Replicas = map<string, ReplicaDesired>

  predicate IsMine(t: Target, r: ReplicaDesired) {
    r.deployment == t.deployment && r.service == t.svc.name
  }

  /** The replicas on record for this service. */
  function Mine(t: Target, desired: Replicas): (r: Replicas)
    ensures forall k :: k in r <==> k in desired && IsMine(t, desired[k])
    ensures forall k :: k in r ==> r[k] == desired[k]
  {
    map k | k in desired && IsMine(t, desired[k]) :: desired[k]
  }

  /** A replica stays on a host that is eligible and, under HOSTS, still pinned. */
  predicate Admissible(t: Target, h: string) {
    h != "" && h in t.eligible && (t.svc.placement.Hosts? ==> h in t.svc.hosts)
  }

  function HostFor(t: Target, cur: Replicas, w: Want): string {
    if w.id in cur && Admissible(t, cur[w.id].host) then cur[w.id].host else w.host
  }

  function Rep(t: Target, cur: Replicas, w: Want): ReplicaDesired {
    ReplicaDesired(w.id, t.deployment, t.svc.name, w.index, HostFor(t, cur, w), t.image, 0, t.specHash)
  }

  /** Host, image and spec hash already match. */
  predicate Matches(t: Target, cur: Replicas, w: Want) {
    && w.id in cur
    && cur[w.id].host == HostFor(t, cur, w)
    && cur[w.id].image == t.image
    && cur[w.id].specHash == t.specHash
  }

  /** Some replica already runs the new image, or all run named older ones. */
  predicate IsRolling(cur: Replicas, image: string) {
    && cur != map[]
    && ((exists k :: k in cur && cur[k].image == image) || (forall k :: k in cur ==> cur[k].image != ""))
  }

  /** An image change in place while rolling: only one of these may go through per pass. */
  predicate Flips(t: Target, cur: Replicas, w: Want) {
    && IsRolling(cur, t.image)
    && w.id in cur
    && cur[w.id].host == HostFor(t, cur, w)
    && cur[w.id].image != t.image
  }

  /** Whether a want is emitted, given whether an image change was let through before. */
  predicate Emits(t: Target, cur: Replicas, w: Want, flipped: bool) {
    && !Matches(t, cur, w)
    && (Flips(t, cur, w) ==> if t.step >= 0 then w.index == t.step else !flipped)
  }

  datatype Plan = Plan(reps: seq<ReplicaDesired>, flipped: bool)

  /** The upserts of a pass, in the order of the wants. */
  function Planned(t: Target, cur: Replicas, wants: seq<Want>): Plan {
    if wants == [] then Plan([], false)
    else
      var n := |wants| - 1;
      var p, w := Planned(t, cur, wants[..n]), wants[n];
      if Emits(t, cur, w, p.flipped) then
        Plan(p.reps + [Rep(t, cur, w)], p.flipped || (Flips(t, cur, w) && t.step < 0))
      else p
  }

  function WantIds(wants: seq<Want>): set<string> {
    set w | w in wants :: w.id
  }

  /** The replicas on record that the service should no longer have. */
  function Surplus(cur: Replicas, wants: seq<Want>): set<string> {
    cur.Keys - WantIds(wants)
  }

  datatype Outcome = Blocked | Pass(reps: seq<ReplicaDesired>, removes: seq<string>)

  ghost predicate Enumerates(s: seq<string>, ids: set<string>) {
    && (forall i, j :: 0 <= i < j < |s| ==> s[i] != s[j])
    && (forall k :: k in s <==> k in ids)
  }

  /** The replicas a service should have, for the per-host counts at hand. */
  ghost predicate IsWants(t: Target, counts: map<string, nat>, hash: (string, string, nat) -> nat, wants: seq<Want>) {
    if t.svc.placement.Global? then
      && |wants| == |t.eligible|
      && forall i :: 0 <= i < |wants| ==>
           wants[i] == Want(ReplicaIDForHost(t.deployment, t.svc.name, t.eligible[i]), t.eligible[i], i)
    else
      && |wants| == (if t.svc.replicas < 0 then 0 else t.svc.replicas)
      && forall i :: 0 <= i < |wants| ==>
           && PlaceReplica(t.deployment, t.svc, t.eligible, i, counts, hash) == Some(wants[i].host)
           && wants[i].id == ReplicaID(t.deployment, t.svc.name, i)
           && wants[i].index == i
  }

  function OnHost(cur: Replicas, h: string): set<string> {
    set k | k in cur && cur[k].host == h
  }

  /** The number of the service's replicas on each host. */
  ghost predicate IsCount(cur: Replicas, counts: map<string, nat>) {
    forall h :: CountOn(counts, h) == |OnHost(cur, h)|
  }

  /** What a pass may return for the records at hand. */
  ghost predicate IsPass(t: Target, desired: Replicas, hash: (string, string, nat) -> nat, counts: map<string, nat>, wants: seq<Want>, o: Outcome) {
    && o.Pass?
    && IsCount(Mine(t, desired), counts)
    && IsWants(t, counts, hash, wants)
    && o.reps == Planned(t, Mine(t, desired), wants).reps
    && Enumerates(o.removes, Surplus(Mine(t, desired), wants))
  }

  ghost predicate Passes(t: Target, desired: Replicas, hash: (string, string, nat) -> nat, o: Outcome) {
    exists counts, wants :: IsPass(t, desired, hash, counts, wants, o)
  }

  // ---- The pass as it runs ----------------------------------------------------------------

  method Current(t: Target, desired: Replicas) returns (cur: Replicas, counts: map<string, nat>)
    requires Filed(desired, KeyOfDesired)
    ensures cur == Mine(t, desired) && IsCount(cur, counts)
  {
    var todo := desired.Keys;
    cur, counts := map[], map[];
    while todo != {}
      invariant todo <= desired.Keys
      invariant forall k :: k in cur <==> k in desired && k !in todo && IsMine(t, desired[k])
      invariant forall k :: k in cur ==> cur[k] == desired[k]
      invariant IsCount(cur, counts)
      decreases todo
    {
      var k :| k in todo;
      todo := todo - {k};
      var r := desired[k];
      if r.deployment == t.deployment && r.service == t.svc.name {
        CountOneMore(cur, counts, r);
        cur := cur[r.id := r];
        counts := counts[r.host := CountOn(counts, r.host) + 1];
      }
    }
  }

  lemma CountOneMore(cur: Replicas, counts: map<string, nat>, r: ReplicaDesired)
    requires IsCount(cur, counts) && r.id !in cur
    ensures IsCount(cur[r.id := r], counts[r.host := CountOn(counts, r.host) + 1])
  {
    var cur', counts' := cur[r.id := r], counts[r.host := CountOn(counts, r.host) + 1];
    forall h ensures CountOn(counts', h) == |OnHost(cur', h)| {
      assert CountOn(counts, h) == |OnHost(cur, h)|;
      OnHostNext(cur, r, h);
    }
  }

  lemma OnHostNext(cur: Replicas, r: ReplicaDesired, h: string)
    requires r.id !in cur
    ensures |OnHost(cur[r.id := r], h)| == |OnHost(cur, h)| + if h == r.host then 1 else 0
  {
    var after := OnHost(cur[r.id := r], h);
    if h == r.host {
      assert after == OnHost(cur, h) + {r.id};
    } else {
      assert after == OnHost(cur, h);
    }
  }

  method BuildWants(t: Target, counts: map<string, nat>, hash: (string, string, nat) -> nat) returns (r: Option<seq<Want>>)
    ensures r.Some? ==> IsWants(t, counts, hash, r.value)
    ensures r.None? ==> !t.svc.placement.Global? &&
                        exists i :: 0 <= i < t.svc.replicas && PlaceReplica(t.deployment, t.svc, t.eligible, i, counts, hash).None?
  {
    var wants: seq<Want> := [];
    if t.svc.placement.Global? {
      for i := 0 to |t.eligible|
        invariant |wants| == i
        invariant forall j :: 0 <= j < i ==>
                    wants[j] == Want(ReplicaIDForHost(t.deployment, t.svc.name, t.eligible[j]), t.eligible[j], j)
      {
        wants := wants + [Want(ReplicaIDForHost(t.deployment, t.svc.name, t.eligible[i]), t.eligible[i], i)];
      }
      return Some(wants);
    }
    var i := 0;
    while i < t.svc.replicas
      invariant 0 <= i && |wants| == i && i <= (if t.svc.replicas < 0 then 0 else t.svc.replicas)
      invariant forall j :: 0 <= j < i ==>
                  && PlaceReplica(t.deployment, t.svc, t.eligible, j, counts, hash) == Some(wants[j].host)
                  && wants[j].id == ReplicaID(t.deployment, t.svc.name, j)
                  && wants[j].index == j
    {
      var host := PlaceReplica(t.deployment, t.svc, t.eligible, i, counts, hash);
      if host.None? {
        return None;
      }
      wants := wants + [Want(ReplicaID(t.deployment, t.svc.name, i), host.value, i)];
      i := i + 1;
    }
    return Some(wants);
  }

  /** Diffs the records against the wants: drift gate, image gate, then surplus removal
      in whatever order the record map yields. */
  method ReconcileTarget(t: Target, desired: Replicas, hash: (string, string, nat) -> nat) returns (o: Outcome)
    requires Filed(desired, KeyOfDesired)
    ensures o.Pass? ==> Passes(t, desired, hash, o)
    ensures o.Blocked? <==>
            || t.image == ""
            || (!t.svc.placement.Global? && t.svc.replicas > 0
                && (t.eligible == [] || (t.svc.placement.Hosts? && t.svc.replicas > |t.eligible|)))
  {
    if t.image == "" {
      return Blocked;
    }
    var cur, counts := Current(t, desired);
    var wants := BuildWants(t, counts, hash);
    if wants.None? {
      return Blocked;
    }
    var reps := Upserts(t, cur, wants.value);
    var removes := Removals(cur, wants.value);
    o := Pass(reps, removes);
    assert IsPass(t, desired, hash, counts, wants.value, o);
    assert !t.svc.placement.Global? && t.svc.replicas > 0 ==>
        PlaceReplica(t.deployment, t.svc, t.eligible, 0, counts, hash) == Some(wants.value[0].host);
  }

  /** The pass from the nodes as they are: `t` is the target it worked out. What the rollout
      driver would return is an input. */
  method ReconcileService(
    deployment: string, svc: ServiceSpec, nodes: seq<Node>, image: string, specHash: Bytes, step: int, desired: Replicas,
    hash: (string, string, nat) -> nat) returns (t: Target, o: Outcome)
    requires Filed(desired, KeyOfDesired)
    ensures t == Target(deployment, svc, t.eligible, image, specHash, step)
    ensures Sorted(t.eligible, Leq) && multiset(t.eligible) == multiset(Pick(nodes, EligibleTo(svc), HostnameOf))
    ensures o.Pass? ==> Passes(t, desired, hash, o)
    ensures o.Blocked? <==>
            || image == ""
            || (!svc.placement.Global? && svc.replicas > 0
                && (t.eligible == [] || (svc.placement.Hosts? && svc.replicas > |t.eligible|)))
  {
    var eligible := EligibleHosts(svc, nodes);
    t := Target(deployment, svc, eligible, image, specHash, step);
    o := ReconcileTarget(t, desired, hash);
  }

  /** Two scans of the records: one for the new image, one for a missing image. */
  method IsRollingImageChange(cur: Replicas, image: string) returns (r: bool)
    ensures r == IsRolling(cur, image)
  {
    if cur == map[] {
      return false;
    }
    var todo := cur.Keys;
    while todo != {}
      invariant todo <= cur.Keys && forall k :: k in cur && k !in todo ==> cur[k].image != image
      decreases todo
    {
      var k :| k in todo;
      todo := todo - {k};
      if cur[k].image == image {
        return true;
      }
    }
    todo := cur.Keys;
    while todo != {}
      invariant todo <= cur.Keys && forall k :: k in cur && k !in todo ==> cur[k].image != ""
      decreases todo
    {
      var k :| k in todo;
      todo := todo - {k};
      if cur[k].image == "" || cur[k].image == image {
        return false;
      }
    }
    return true;
  }

  method Upserts(t: Target, cur: Replicas, wants: seq<Want>) returns (reps: seq<ReplicaDesired>)
    ensures reps == Planned(t, cur, wants).reps
  {
    var rolling := IsRollingImageChange(cur, t.image);
    var flipped := false;
    reps := [];
    for i := 0 to |wants|
      invariant Plan(reps, flipped) == Planned(t, cur, wants[..i])
    {
      var w := wants[i];
      assert wants[..i + 1][..i] == wants[..i];
      var host := w.host;
      if w.id in cur && Admissible(t, cur[w.id].host) {
        host := cur[w.id].host;
      }
      var rep := ReplicaDesired(w.id, t.deployment, t.svc.name, w.index, host, t.image, 0, t.specHash);
      if w.id in cur {
        var c := cur[w.id];
        if c.host == host && c.image == t.image && c.specHash == t.specHash {
          continue;
        }
        if rolling && c.host == host && c.image != t.image {
          if t.step >= 0 {
            if w.index != t.step {
              continue;
            }
          } else {
            if flipped {
              continue;
            }
            flipped := true;
          }
        }
      }
      reps := reps + [rep];
    }
    assert wants[..|wants|] == wants;
  }

  method Removals(cur: Replicas, wants: seq<Want>) returns (removes: seq<string>)
    ensures Enumerates(removes, Surplus(cur, wants))
  {
    removes := [];
    var todo := cur.Keys;
    while todo != {}
      invariant todo <= cur.Keys
      invariant forall i, j :: 0 <= i < j < |removes| ==> removes[i] != removes[j]
      invariant forall k :: k in removes <==> k in Surplus(cur, wants) && k !in todo
      decreases todo
    {
      var k :| k in todo;
      todo := todo - {k};
      if k !in WantIds(wants) {
        removes := removes + [k];
      }
    }
  }
}
