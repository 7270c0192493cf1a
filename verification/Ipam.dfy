/** The /24 allocator on top of the replicated subnets. */
module Ipam {
  import opened Prelude
  import opened Cidr
  import opened Entities
  import opened Fsm
  import opened Machine
  import opened Recovery

  /** The first two octets of the /16 pool. */
  datatype Pool = Pool(a: Octet, b: Octet)

  function OctetOf(n: Subnet): (r: Option<int>)
    ensures r.Some? ==> 0 <= r.value < 256
  {
    ThirdOctet(n.cidr)
  }

  /** The third octet is in use, whatever pool the block was cut from. */
  ghost predicate Taken(subnets: map<string, Subnet>, o: int) {
    Used(subnets, OctetOf, o)
  }

  /** The lowest octet that is not taken. */
  ghost function LowestFree(subnets: map<string, Subnet>): (r: Option<nat>)
    ensures r.Some? ==> r.value < 256 && !Taken(subnets, r.value)
  {
    LowestUnused(subnets, OctetOf, 0, 256)
  }

  /** Lists the subnets, marks their octets, and walks the 256 candidates. */
  method NextFree(pool: Pool, subnets: map<string, Subnet>) returns (r: Option<string>)
    ensures var o := LowestFree(subnets);
            r == if o.Some? then Some(Slash24(pool.a, pool.b, o.value)) else None
  {
    var o := FindUnused(subnets, OctetOf, 256);
    return if o.Some? then Some(Slash24(pool.a, pool.b, o.value)) else None;
  }

  datatype Outcome = Invalid | Found(subnet: Subnet) | Exhausted | Allocated(subnet: Subnet)

  function AllocateCommand(pool: Pool, deployment: string, network: string, host: string, o: Octet, ts: Timestamp): Command {
    Command(ts, "scheduler", SubnetAllocate(deployment, network, Slash24(pool.a, pool.b, o), host))
  }

  lemma EntryAdds(s: State, cmd: Command, idx: nat)
    requires cmd.payload.SubnetAllocate?
    ensures Mutated(s, cmd, idx) == AfterSubnetAllocate(s, cmd.payload, cmd.ts) && Noted(cmd, idx) == []
  {
    assert Mutated(s, cmd, idx) == AfterEntry(s, cmd, idx);
  }

  lemma AllocateAdds(s: State, cmd: Command, idx: nat)
    requires cmd.payload.SubnetAllocate?
    ensures Applied(s, cmd, idx) == AfterSubnetAllocate(s, cmd.payload, cmd.ts)
  {
    EntryAdds(s, cmd, idx);
    assert Applied(s, cmd, idx) == Recorded(Mutated(s, cmd, idx), cmd, idx);
  }

  lemma AllocateSubnet(s: State, cmd: Command, idx: nat)
    requires cmd.payload.SubnetAllocate?
    ensures Applied(s, cmd, idx).subnets ==
            s.subnets[SubnetKey(cmd.payload.deployment, cmd.payload.network, cmd.payload.host) :=
              Subnet(cmd.payload.deployment, cmd.payload.network, cmd.payload.cidr, cmd.ts, cmd.payload.host)]
  {
    AllocateAdds(s, cmd, idx);
  }

  /** Allocation with nothing interleaved: idempotent, or the lowest free block. */
  method Allocate(m: Machine, pool: Pool, deployment: string, network: string, host: string, ts: Timestamp, idx: nat)
    returns (r: Outcome)
    requires WellFiled(m.state)
    modifies m
    ensures WellFiled(m.state)
    ensures var key, s := SubnetKey(deployment, network, host), old(m.state);
            if deployment == "" || network == "" || host == "" then r == Invalid && m.state == s
            else if key in s.subnets then r == Found(s.subnets[key]) && m.state == s
            else match LowestFree(s.subnets)
              case None => r == Exhausted && m.state == s
              case Some(o) =>
                && m.state == Applied(s, AllocateCommand(pool, deployment, network, host, o, ts), idx)
                && r == Allocated(Subnet(deployment, network, Slash24(pool.a, pool.b, o), ts, host))
  {
    if deployment == "" || network == "" || host == "" {
      return Invalid;
    }
    var key := SubnetKey(deployment, network, host);
    if key in m.state.subnets {
      return Found(m.state.subnets[key]);
    }
    var block := NextFree(pool, m.state.subnets);
    if block.None? {
      return Exhausted;
    }
    var cmd := Command(ts, "scheduler", SubnetAllocate(deployment, network, block.value, host));
    AllocateAdds(m.state, cmd, idx);
    m.Apply(cmd, idx);
    return Allocated(m.state.subnets[key]);
  }

  // ---- Interleaved allocation ---------------------------------------------------------------

  /** Where the one allocation that holds the allocator's lock has got to. */
  datatype Progress =
    | Resting
    | LookedUp(deployment: string, network: string, host: string)
    | Chosen(deployment: string, network: string, host: string, octet: Octet)

  datatype System = System(state: State, progress: Progress)

  datatype Step =
    | Foreign(cmd: Command, idx: nat) // any command, batch or not, that allocates no subnet
    | LookUp(deployment: string, network: string, host: string)
    | Scan
    | Commit(ts: Timestamp, idx: nat)
    | Fail // the apply is refused, and nothing is committed

  ghost predicate AllocatesNothing(cmd: Command) {
    forall c :: c in Leaves(cmd) ==> !c.payload.SubnetAllocate?
  }

  ghost predicate Enabled(s: System, step: Step) {
    match step
    case Foreign(cmd, _) => AllocatesNothing(cmd)
    case LookUp(d, n, h) => s.progress.Resting? && d != "" && n != "" && h != ""
    case Scan => s.progress.LookedUp?
    case Commit(_, _) => s.progress.Chosen?
    case Fail => s.progress.Chosen?
  }

  ghost function Do(pool: Pool, s: System, step: Step): System
    requires Enabled(s, step)
  {
    match step
    case Foreign(cmd, idx) => s.(state := Applied(s.state, cmd, idx))
    case LookUp(d, n, h) => if SubnetKey(d, n, h) in s.state.subnets then s else s.(progress := LookedUp(d, n, h))
    case Scan =>
      var p, o := s.progress, LowestFree(s.state.subnets);
      s.(progress := if o.Some? then Chosen(p.deployment, p.network, p.host, o.value) else Resting)
    case Commit(ts, idx) =>
      var p := s.progress;
      System(Applied(s.state, AllocateCommand(pool, p.deployment, p.network, p.host, p.octet, ts), idx), Resting)
    case Fail => s.(progress := Resting)
  }

  ghost predicate Legal(pool: Pool, s: System, steps: seq<Step>)
    decreases steps
  {
    steps != [] ==> Enabled(s, steps[0]) && Legal(pool, Do(pool, s, steps[0]), steps[1..])
  }

  ghost function After(pool: Pool, s: System, steps: seq<Step>): System
    requires Legal(pool, s, steps)
    decreases steps
  {
    if steps == [] then s else After(pool, Do(pool, s, steps[0]), steps[1..])
  }

  /** A /24 of the pool in its canonical text. */
  ghost predicate InPool(pool: Pool, cidr: string) {
    ThirdOctet(cidr).Some? && cidr == Slash24(pool.a, pool.b, ThirdOctet(cidr).value)
  }

  /** Every subnet is a /24 of the pool and no two share a block. */
  ghost predicate Disjoint(pool: Pool, subnets: map<string, Subnet>) {
    && (forall k :: k in subnets ==> InPool(pool, subnets[k].cidr))
    && (forall k, l :: k in subnets && l in subnets && k != l ==> subnets[k].cidr != subnets[l].cidr)
  }

  /** The allocation under way still finds its key free and its block unused. */
  ghost predicate Inv(pool: Pool, s: System) {
    && WellFiled(s.state)
    && Disjoint(pool, s.state.subnets)
    && (!s.progress.Resting? ==>
          SubnetKey(s.progress.deployment, s.progress.network, s.progress.host) !in s.state.subnets)
    && (s.progress.Chosen? ==> !Taken(s.state.subnets, s.progress.octet))
  }

  lemma {:induction false} LeavesOnlyFree(s: State, leaves: seq<Command>, idx: nat)
    requires forall c :: c in leaves ==> !c.payload.Batch? && !c.payload.SubnetAllocate?
    ensures SubMap(AppliedAll(s, leaves, idx).subnets, s.subnets)
    decreases leaves
  {
    if leaves != [] {
      LeavesOnlyFree(Applied(s, leaves[0], idx), leaves[1..], idx);
      LeafOnlyFrees(s, leaves[0], idx);
    }
  }

  lemma LeafOnlyFrees(s: State, cmd: Command, idx: nat)
    requires !cmd.payload.Batch? && !cmd.payload.SubnetAllocate?
    ensures SubMap(Applied(s, cmd, idx).subnets, s.subnets)
  {
    assert SubMap(Mutated(s, cmd, idx).subnets, s.subnets);
  }

  /** Commands that allocate nothing can only free subnets. */
  lemma ForeignOnlyFrees(s: State, cmd: Command, idx: nat)
    requires AllocatesNothing(cmd)
    ensures SubMap(Applied(s, cmd, idx).subnets, s.subnets)
  {
    BatchIsItsLeaves(s, cmd, idx);
    LeavesOnlyFree(s, Leaves(cmd), idx);
  }

  lemma FewerTaken(a: map<string, Subnet>, b: map<string, Subnet>, o: int)
    requires SubMap(a, b)
    ensures Taken(a, o) ==> Taken(b, o)
  {
  }

  lemma ShrinkKeepsInv(pool: Pool, s: System, t: State)
    requires Inv(pool, s) && WellFiled(t) && SubMap(t.subnets, s.state.subnets)
    ensures Inv(pool, s.(state := t))
  {
    if s.progress.Chosen? {
      FewerTaken(t.subnets, s.state.subnets, s.progress.octet);
    }
  }

  lemma CommitAdds(pool: Pool, s: System, ts: Timestamp, idx: nat)
    requires s.progress.Chosen?
    ensures var p, t := s.progress, Do(pool, s, Commit(ts, idx));
            && t.progress.Resting? && (WellFiled(s.state) ==> WellFiled(t.state))
            && t.state.subnets == s.state.subnets[SubnetKey(p.deployment, p.network, p.host) :=
                                    Subnet(p.deployment, p.network, Slash24(pool.a, pool.b, p.octet), ts, p.host)]
  {
    var p := s.progress;
    AllocateSubnet(s.state, AllocateCommand(pool, p.deployment, p.network, p.host, p.octet, ts), idx);
  }

  lemma CommitKeepsInv(pool: Pool, s: System, ts: Timestamp, idx: nat)
    requires Inv(pool, s) && s.progress.Chosen?
    ensures Inv(pool, Do(pool, s, Commit(ts, idx)))
  {
    var p := s.progress;
    CommitAdds(pool, s, ts, idx);
    AddKeepsDisjoint(pool, s.state.subnets, SubnetKey(p.deployment, p.network, p.host),
                     Subnet(p.deployment, p.network, Slash24(pool.a, pool.b, p.octet), ts, p.host), p.octet);
  }

  lemma AddKeepsDisjoint(pool: Pool, subnets: map<string, Subnet>, key: string, n: Subnet, o: Octet)
    requires Disjoint(pool, subnets) && key !in subnets && !Taken(subnets, o) && n.cidr == Slash24(pool.a, pool.b, o)
    ensures Disjoint(pool, subnets[key := n])
  {
    FreshBlock(pool, subnets, o);
  }

  /** A block whose octet is not taken is in the pool and differs from every block present. */
  lemma FreshBlock(pool: Pool, subnets: map<string, Subnet>, o: Octet)
    requires Disjoint(pool, subnets) && !Taken(subnets, o)
    ensures InPool(pool, Slash24(pool.a, pool.b, o))
    ensures forall k :: k in subnets ==> subnets[k].cidr != Slash24(pool.a, pool.b, o)
  {
    BlockRoundTrip(pool.a, pool.b, o, Address(0, 0, 0, 0));
    forall k | k in subnets ensures subnets[k].cidr != Slash24(pool.a, pool.b, o) {
      assert OctetOf(subnets[k]) != Some(o);
    }
  }

  lemma StepKeepsInv(pool: Pool, s: System, step: Step)
    requires Inv(pool, s) && Enabled(s, step)
    ensures Inv(pool, Do(pool, s, step))
  {
    match step
    case Foreign(cmd, idx) =>
      ForeignOnlyFrees(s.state, cmd, idx);
      ShrinkKeepsInv(pool, s, Applied(s.state, cmd, idx));
    case LookUp(_, _, _) =>
    case Scan =>
    case Commit(ts, idx) => CommitKeepsInv(pool, s, ts, idx);
    case Fail =>
  }

  /** In every state reachable by allocations, frees, node and deployment removals
      and any other commands, interleaved at will: all subnets are /24s of the pool
      and pairwise disjoint. */
  lemma {:induction false} AllocationsStayDisjoint(pool: Pool, s: System, steps: seq<Step>)
    requires Inv(pool, s) && Legal(pool, s, steps)
    ensures Inv(pool, After(pool, s, steps))
    decreases steps
  {
    if steps != [] {
      StepKeepsInv(pool, s, steps[0]);
      AllocationsStayDisjoint(pool, Do(pool, s, steps[0]), steps[1..]);
    }
  }

  /** A subnet keeps its block as long as it exists. */
  lemma StepKeepsBlocks(pool: Pool, s: System, step: Step, k: string)
    requires Inv(pool, s) && Enabled(s, step)
    requires k in s.state.subnets && k in Do(pool, s, step).state.subnets
    ensures Do(pool, s, step).state.subnets[k] == s.state.subnets[k]
  {
    match step
    case Foreign(cmd, idx) => ForeignOnlyFrees(s.state, cmd, idx);
    case LookUp(_, _, _) =>
    case Scan =>
    case Commit(ts, idx) =>
      CommitAdds(pool, s, ts, idx);
    case Fail =>
  }

  // ---- Exhaustion -------------------------------------------------------------------------

  /** While subnets are disjoint, a scan finds the pool exhausted exactly when 256 subnets exist. */
  lemma {:induction false} ExhaustedIffFull(pool: Pool, subnets: map<string, Subnet>)
    requires Disjoint(pool, subnets)
    ensures LowestFree(subnets).None? <==> |subnets| == 256
  {
    forall k, l | k in subnets && l in subnets && k != l ensures OctetOf(subnets[k]) != OctetOf(subnets[l]) {
      assert InPool(pool, subnets[k].cidr) && InPool(pool, subnets[l].cidr);
    }
    forall k | k in subnets ensures OctetOf(subnets[k]).Some? {
      assert InPool(pool, subnets[k].cidr);
    }
    NoneUnusedIffFull(subnets, OctetOf, 256);
  }

  // ---- Keys ----------------------------------------------------------------------------------

  predicate Plain(s: string) { '\0' !in s }

  lemma {:induction false} SplitAtSep(a: string, x: string, b: string, y: string)
    requires Plain(a) && Plain(b) && a + (SEP + x) == b + (SEP + y)
    ensures a == b && x == y
  {
    BeforeStop(a, '\0', x);
    BeforeStop(b, '\0', y);
    assert (a + (SEP + x))[|a| + 1..] == x;
    assert (b + (SEP + y))[|b| + 1..] == y;
  }

  /** Identifiers never hold the separator, so distinct triples have distinct keys. */
  lemma SubnetKeyInjective(d: string, n: string, h: string, d': string, n': string, h': string)
    requires Plain(d) && Plain(n) && Plain(d') && Plain(n')
    requires SubnetKey(d, n, h) == SubnetKey(d', n', h')
    ensures d == d' && n == n' && h == h'
  {
    assert SubnetKey(d, n, h) == d + (SEP + (n + (SEP + h)));
    assert SubnetKey(d', n', h') == d' + (SEP + (n' + (SEP + h')));
    SplitAtSep(d, n + (SEP + h), d', n' + (SEP + h'));
    SplitAtSep(n, h, n', h');
  }
}
