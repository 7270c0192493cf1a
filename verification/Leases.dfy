/** Certificate locks as leases kept by the state machine. */
module Leases {
  import opened Prelude
  import opened Entities
  import opened Fsm
  import opened Recovery

  const LOCK_TTL := 300_000_000_000 // five minutes, in nanoseconds

  function CertRun(certs: map<string, Cert>, cmds: seq<Command>): map<string, Cert>
    decreases cmds
  {
    if cmds == [] then certs else CertRun(CertStep(certs, cmds[0].payload, cmds[0].ts), cmds[1..])
  }

  /** A log's commands with every batch flattened. */
  function LogLeaves(log: seq<Entry>): seq<Command> {
    if log == [] then []
    else (if log[0].command.Some? then Leaves(log[0].command.value) else []) + LogLeaves(log[1..])
  }

  lemma LeafStep(s: State, cmd: Command, idx: nat)
    requires !cmd.payload.Batch?
    ensures Applied(s, cmd, idx).certs == CertStep(s.certs, cmd.payload, cmd.ts)
  {
  }

  lemma {:induction false} CertRunConcat(certs: map<string, Cert>, a: seq<Command>, b: seq<Command>)
    ensures CertRun(certs, a + b) == CertRun(CertRun(certs, a), b)
    decreases a
  {
    if a == [] {
      assert a + b == b;
    } else {
      assert (a + b)[1..] == a[1..] + b;
      CertRunConcat(CertStep(certs, a[0].payload, a[0].ts), a[1..], b);
    }
  }

  lemma {:induction false} LeavesStepCerts(s: State, leaves: seq<Command>, idx: nat)
    requires forall c :: c in leaves ==> !c.payload.Batch?
    ensures AppliedAll(s, leaves, idx).certs == CertRun(s.certs, leaves)
    decreases leaves
  {
    if leaves != [] {
      LeafStep(s, leaves[0], idx);
      LeavesStepCerts(Applied(s, leaves[0], idx), leaves[1..], idx);
    }
  }

  /** The certificate store after a log depends only on the lock and unlock commands
      among its leaves: every other command, and the batching, is irrelevant to leases. */
  lemma {:induction false} CertsFollowLeaves(s: State, log: seq<Entry>)
    ensures Replayed(s, log).certs == CertRun(s.certs, LogLeaves(log))
    decreases log
  {
    if log != [] {
      var e := log[0];
      var s' := if e.command.Some? then Applied(s, e.command.value, e.index) else s;
      if e.command.Some? {
        BatchIsItsLeaves(s, e.command.value, e.index);
        LeavesStepCerts(s, Leaves(e.command.value), e.index);
        CertRunConcat(s.certs, Leaves(e.command.value), LogLeaves(log[1..]));
      } else {
        assert [] + LogLeaves(log[1..]) == LogLeaves(log[1..]);
      }
      CertsFollowLeaves(s', log[1..]);
    }
  }

  // ---- Tenures -------------------------------------------------------------------------

  /** A command with the node that issued it; unlock commands do not carry it. */
  datatype Event = Event(cmd: Command, issuer: string) {
    function Time(): int { AsTime(cmd.ts) }
  }

  /** The time during which a lessee may believe it holds the lock. */
  datatype Tenure = Tenure(lessee: string, start: int, end: int)

  /** One lock's history: its record, the tenures that ended, when the open one began. */
  datatype Ledger = Ledger(certs: map<string, Cert>, past: seq<Tenure>, since: int)

  function Holder(certs: map<string, Cert>, name: string): string {
    if name in certs then certs[name].lessee else ""
  }

  /** When the current lease runs out; a lease without an expiry protects nothing. */
  function Expiry(l: Ledger, name: string): int {
    if name in l.certs && l.certs[name].lockUntil.Some? then l.certs[name].lockUntil.value else l.since
  }

  /** A lessee that unlocks knows its tenure is over; one that is unlocked by
      somebody else, or replaced, counts on it until it expires. */
  function Advance(l: Ledger, name: string, e: Event): Ledger {
    var certs := CertStep(l.certs, e.cmd.payload, e.cmd.ts);
    var before, after := Holder(l.certs, name), Holder(certs, name);
    if before == after then l.(certs := certs)
    else
      var end := if e.cmd.payload.CertUnlock? && e.issuer == before then Min(Expiry(l, name), e.Time()) else Expiry(l, name);
      Ledger(certs, if before == "" then l.past else l.past + [Tenure(before, l.since, end)], e.Time())
  }

  function Run(l: Ledger, name: string, es: seq<Event>): Ledger
    decreases es
  {
    if es == [] then l else Run(Advance(l, name, es[0]), name, es[1..])
  }

  ghost predicate Nondecreasing(now: int, es: seq<Event>)
    decreases es
  {
    es != [] ==> now <= es[0].Time() && Nondecreasing(es[0].Time(), es[1..])
  }

  /** Whoever unlocks a lease that is still running is its holder. */
  ghost predicate UnlockByHolder(l: Ledger, name: string, e: Event) {
    e.cmd.payload == CertUnlock(name) && Holder(l.certs, name) != "" ==>
      e.issuer == Holder(l.certs, name) || Expiry(l, name) <= e.Time()
  }

  ghost predicate HoldersUnlock(l: Ledger, name: string, es: seq<Event>)
    decreases es
  {
    es != [] ==> UnlockByHolder(l, name, es[0]) && HoldersUnlock(Advance(l, name, es[0]), name, es[1..])
  }

  /** Tenures in order, none starting before the previous one ended. */
  ghost predicate Disjoint(ts: seq<Tenure>) {
    forall i, j :: 0 <= i < j < |ts| ==> ts[i].end <= ts[j].start
  }

  /** Past tenures are disjoint and all over, both at the open tenure's start and at `now`. */
  ghost predicate Sound(l: Ledger, name: string, now: int) {
    && Filed(l.certs, KeyOfCert)
    && l.since <= now
    && Disjoint(l.past)
    && (forall i :: 0 <= i < |l.past| ==> l.past[i].end <= l.since)
  }

  lemma AdvanceSound(l: Ledger, name: string, now: int, e: Event)
    requires Sound(l, name, now) && now <= e.Time() && UnlockByHolder(l, name, e)
    ensures Sound(Advance(l, name, e), name, e.Time())
  {
    var l' := Advance(l, name, e);
    if Holder(l.certs, name) != Holder(l'.certs, name) && Holder(l.certs, name) != "" {
      var t := l'.past[|l.past|];
      assert l'.past == l.past + [t];
      assert t.end <= e.Time();
    }
  }

  function LastTime(now: int, es: seq<Event>): int {
    if es == [] then now else es[|es| - 1].Time()
  }

  lemma {:induction false} RunSound(l: Ledger, name: string, now: int, es: seq<Event>)
    requires Sound(l, name, now) && Nondecreasing(now, es) && HoldersUnlock(l, name, es)
    ensures Sound(Run(l, name, es), name, LastTime(now, es))
    decreases es
  {
    if es != [] {
      AdvanceSound(l, name, now, es[0]);
      RunSound(Advance(l, name, es[0]), name, es[0].Time(), es[1..]);
    }
  }

  /** With nondecreasing timestamps and only holders unlocking running leases, the
      tenures of one lock never overlap, the open one included. */
  lemma TenuresNeverOverlap(certs: map<string, Cert>, name: string, es: seq<Event>, start: int)
    requires Filed(certs, KeyOfCert) && Nondecreasing(start, es)
    requires HoldersUnlock(Ledger(certs, [], start), name, es)
    ensures var l := Run(Ledger(certs, [], start), name, es);
            && Disjoint(l.past)
            && forall i :: 0 <= i < |l.past| ==> l.past[i].end <= l.since
  {
    RunSound(Ledger(certs, [], start), name, start, es);
  }

  /** The condition is exact: an unlock of somebody else's running lease lets a
      third node in at once, and the two tenures overlap. */
  lemma ForeignUnlockOverlaps(l: Ledger, name: string, now: int, intruder: string, rival: string)
    requires Sound(l, name, now) && Holder(l.certs, name) != ""
    requires rival != "" && rival != Holder(l.certs, name)
    requires !UnlockByHolder(l, name, Event(Command(Some(now), "ingress", CertUnlock(name)), intruder))
    ensures var unlock := Event(Command(Some(now), "ingress", CertUnlock(name)), intruder);
            var lock := Event(Command(Some(now), "ingress", CertLock(name, rival, Some(now + LOCK_TTL))), rival);
            var l' := Run(l, name, [unlock, lock]);
            && l'.past == l.past + [Tenure(Holder(l.certs, name), l.since, Expiry(l, name))]
            && Holder(l'.certs, name) == rival && l'.since == now < Expiry(l, name)
  {
    var unlock := Event(Command(Some(now), "ingress", CertUnlock(name)), intruder);
    var lock := Event(Command(Some(now), "ingress", CertLock(name, rival, Some(now + LOCK_TTL))), rival);
    var l1 := Advance(l, name, unlock);
    var l2 := Advance(l1, name, lock);
    assert [unlock, lock][1..] == [lock] && [lock][1..] == [];
    assert Run(l1, name, [lock]) == l2;
  }

  // ---- Renewal -----------------------------------------------------------------------

  predicate IsRenewal(e: Event, name: string, lessee: string) {
    e.cmd.payload.CertLock? && e.cmd.payload.name == name && e.cmd.payload.lessee == lessee
  }

  /** Renewals carry the lease `applyLock` asks for and follow one another within
      the lease's lifetime; the events end with a renewal and contain no unlock of this lock. */
  ghost predicate Renewing(name: string, lessee: string, last: int, es: seq<Event>)
    decreases es
  {
    && es != []
    && es[0].cmd.payload != CertUnlock(name)
    && (if IsRenewal(es[0], name, lessee) then
          && es[0].cmd.payload.until == Some(es[0].Time() + LOCK_TTL)
          && es[0].Time() < last + LOCK_TTL
          && (es[1..] != [] ==> Renewing(name, lessee, es[0].Time(), es[1..]))
        else Renewing(name, lessee, last, es[1..]))
  }

  lemma {:induction false} RivalsComeTooSoon(name: string, lessee: string, last: int, now: int, es: seq<Event>)
    requires Renewing(name, lessee, last, es) && Nondecreasing(now, es)
    ensures es[0].Time() < last + LOCK_TTL
    decreases es
  {
    if !IsRenewal(es[0], name, lessee) {
      RivalsComeTooSoon(name, lessee, last, es[0].Time(), es[1..]);
    }
  }

  /** A holder that renews within the lease keeps the lock at every point of the
      interleaving, whatever rivals attempt. */
  lemma {:induction false} RenewalKeepsLock(certs: map<string, Cert>, name: string, lessee: string, last: int, now: int, es: seq<Event>, n: nat)
    requires Filed(certs, KeyOfCert) && lessee != ""
    requires name in certs && certs[name].lessee == lessee && certs[name].lockUntil == Some(last + LOCK_TTL)
    requires Renewing(name, lessee, last, es) && Nondecreasing(now, es) && n <= |es|
    ensures Holder(CertRun(certs, Commands(es[..n])), name) == lessee
    decreases es
  {
    if n > 0 {
      RivalsComeTooSoon(name, lessee, last, now, es);
      var certs' := CertStep(certs, es[0].cmd.payload, es[0].cmd.ts);
      assert Filed(certs', KeyOfCert);
      assert es[..n][1..] == es[1..][..n - 1];
      assert Commands(es[..n]) == [es[0].cmd] + Commands(es[1..][..n - 1]);
      assert Commands(es[..n])[1..] == Commands(es[1..][..n - 1]);
      if IsRenewal(es[0], name, lessee) {
        if es[1..] != [] {
          RenewalKeepsLock(certs', name, lessee, es[0].Time(), es[0].Time(), es[1..], n - 1);
        } else {
          assert n == 1 && Commands(es[..n])[1..] == [];
        }
      } else {
        RenewalKeepsLock(certs', name, lessee, last, es[0].Time(), es[1..], n - 1);
      }
    }
  }

  function Commands(es: seq<Event>): seq<Command> {
    if es == [] then [] else [es[0].cmd] + Commands(es[1..])
  }

  lemma {:induction false} RunIsCertRun(l: Ledger, name: string, es: seq<Event>)
    ensures Run(l, name, es).certs == CertRun(l.certs, Commands(es))
    decreases es
  {
    if es != [] {
      assert Commands(es)[1..] == Commands(es[1..]);
      RunIsCertRun(Advance(l, name, es[0]), name, es[1..]);
    }
  }
}
