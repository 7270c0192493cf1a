/** The stage-first ACME controller: which domains are in their staging dry run,
    which await a prod certificate, and which are backing off. */
module StageFirst {
  import opened Text
  import opened Backoff

  const BACKOFF_WINDOW := 60 * MINUTE
  const PENDING_WINDOW := 5 * MINUTE

  const LE_PROD_CA := "https://acme-v02.api.letsencrypt.org/directory"

  predicate IsProdCA(ca: string) {
    var c := Trim(ca, SPACE);
    c == "" || c == LE_PROD_CA
  }

  /** A domain is staged first only on the prod CA, unless opted out or already issued. */
  predicate ShouldStage(ca: string, skipStaging: bool, alreadyIssued: bool) {
    IsProdCA(ca) && !skipStaging && !alreadyIssued
  }

  /** The staging chain in storage: absent, failing its self-check, or passing it. */
  datatype Chain = Missing | Bad | Good

  /** What one visit to a domain reads: the replicated store may change between
      the controller's own look at the prod certificate and the staging decision's. */
  datatype Sighting = Sighting(issued: bool, issuedAgain: bool, chain: Chain)

  datatype Note =
    | Staged
    | StageFailed
    | Promoted
    | Converged // OnProdIssued for a domain still staging
    | ProdIssued // OnProdIssued for a promoted domain
    | ProdFailed(retryAfter: int)

  datatype Entry = Entry(at: int, domain: string, note: Note)

  datatype Settings = Settings(ca: string, skipStaging: bool)

  datatype Books = Books(
    staging: set<string>,
    backoff: map<string, int>,
    prodFails: map<string, int>,
    prodBackoff: map<string, int>,
    pendingProd: map<string, int>)

  const EMPTY_BOOKS := Books({}, map[], map[], map[], map[])

  datatype Visit = Visit(books: Books, notes: seq<Note>)

  function FailCount(b: Books, d: string): int {
    if d in b.prodFails then b.prodFails[d] else 0
  }

  /** The new-domain decision. */
  function Decide(c: Settings, b: Books, now: int, d: string, issued: bool): Visit {
    if !ShouldStage(c.ca, c.skipStaging, issued) then Visit(b, [])
    else if d in b.prodBackoff && now < b.prodBackoff[d] then Visit(b, [])
    else
      var b1 := b.(prodBackoff := b.prodBackoff - {d});
      if d in b1.backoff && now < b1.backoff[d] then Visit(b1, [])
      else Visit(b1.(backoff := b1.backoff - {d}, staging := b1.staging + {d}), [Staged])
  }

  /** One domain's turn in a pass. */
  function VisitDomain(c: Settings, b: Books, now: int, d: string, s: Sighting): Visit {
    if d in b.staging then
      var b1 := b.(staging := b.staging - {d});
      if s.issued then
        Visit(b1.(pendingProd := b.pendingProd - {d}, prodFails := b.prodFails - {d}, prodBackoff := b.prodBackoff - {d}),
              [Converged])
      else
        match s.chain
        case Missing => Visit(b, [])
        case Bad => Visit(b1.(backoff := b.backoff[d := now + BACKOFF_WINDOW]), [StageFailed])
        case Good => Visit(b1.(pendingProd := b.pendingProd[d := now + PENDING_WINDOW]), [Promoted])
    else if d in b.pendingProd then
      if s.issued then
        var cleared := b.(pendingProd := b.pendingProd - {d}, prodFails := b.prodFails - {d}, prodBackoff := b.prodBackoff - {d});
        var v := Decide(c, cleared, now, d, s.issuedAgain);
        Visit(v.books, [ProdIssued] + v.notes)
      else if now < b.pendingProd[d] then Visit(b, [])
      else
        var fails := FailCount(b, d) + 1;
        Visit(b.(prodFails := b.prodFails[d := fails],
                 prodBackoff := b.prodBackoff[d := now + ProdBackoffFor(fails)],
                 pendingProd := b.pendingProd - {d}),
              [ProdFailed(ProdBackoffFor(fails))])
    else Decide(c, b, now, d, s.issuedAgain)
  }

  function Stamp(now: int, d: string, notes: seq<Note>): seq<Entry> {
    seq(|notes|, i requires 0 <= i < |notes| => Entry(now, d, notes[i]))
  }

  datatype Pass = Pass(books: Books, log: seq<Entry>)

  function Visited(c: Settings, p: Pass, now: int, d: string, s: Sighting): Pass {
    var v := VisitDomain(c, p.books, now, d, s);
    Pass(v.books, p.log + Stamp(now, d, v.notes))
  }

  /** The visits of one pass, in the order the domains are given. */
  function VisitAll(c: Settings, p: Pass, now: int, domains: seq<string>, sights: seq<Sighting>): Pass
    requires |domains| == |sights|
    decreases domains
  {
    if domains == [] then p
    else
      var n := |domains| - 1;
      Visited(c, VisitAll(c, p, now, domains[..n], sights[..n]), now, domains[n], sights[n])
  }

  /** Staging entries whose domain lost its tls:auto route. */
  function Dead(b: Books, domains: seq<string>): set<string> {
    set d | d in b.staging && d !in domains
  }

  function Reconciled(c: Settings, b: Books, now: int, domains: seq<string>, sights: seq<Sighting>): Pass
    requires |domains| == |sights|
  {
    VisitAll(c, Pass(b.(staging := b.staging - Dead(b, domains)), []), now, domains, sights)
  }

  predicate ChangesStaging(n: Note) {
    n.Staged? || n.StageFailed? || n.Promoted? || n.Converged?
  }

  class Controller {
    const settings: Settings
    var staging: set<string>
    var backoff: map<string, int>
    var prodFails: map<string, int>
    var prodBackoff: map<string, int>
    var pendingProd: map<string, int>

    ghost function Value(): Books
      reads this
    {
      Books(staging, backoff, prodFails, prodBackoff, pendingProd)
    }

    constructor (settings: Settings)
      ensures Value() == EMPTY_BOOKS && this.settings == settings
    {
      this.settings := settings;
      staging, backoff, prodFails, prodBackoff, pendingProd := {}, map[], map[], map[], map[];
    }

    /** One per-tick pass. `log` records what the daemon is told; `changed` asks for a rebuild. */
    method Reconcile(now: int, domains: seq<string>, sights: seq<Sighting>) returns (changed: bool, log: seq<Entry>)
      requires |domains| == |sights|
      modifies this
      ensures Pass(Value(), log) == Reconciled(settings, old(Value()), now, domains, sights)
      ensures changed <==> Dead(old(Value()), domains) != {} || exists e :: e in log && ChangesStaging(e.note)
    {
      changed := DropDead(domains);
      log := [];
      ghost var start := Value();
      for i := 0 to |domains|
        invariant Pass(Value(), log) == VisitAll(settings, Pass(start, []), now, domains[..i], sights[..i])
        invariant changed <==> Dead(old(Value()), domains) != {} || exists e :: e in log && ChangesStaging(e.note)
      {
        var touched, notes := Turn(now, domains[i], sights[i]);
        assert domains[..i + 1][..i] == domains[..i] && sights[..i + 1][..i] == sights[..i];
        ghost var grown := Stamp(now, domains[i], notes);
        assert touched <==> exists e :: e in grown && ChangesStaging(e.note) by {
          assert forall j :: 0 <= j < |notes| ==> grown[j].note == notes[j];
        }
        log := log + Stamp(now, domains[i], notes);
        changed := changed || touched;
      }
      assert domains[..|domains|] == domains && sights[..|sights|] == sights;
    }

    method DropDead(domains: seq<string>) returns (changed: bool)
      modifies this`staging
      ensures staging == old(staging) - Dead(old(Value()), domains)
      ensures changed <==> Dead(old(Value()), domains) != {}
    {
      changed := false;
      var todo := staging;
      while todo != {}
        invariant todo <= old(staging) && staging <= old(staging) && todo <= staging
        invariant forall d :: d in old(staging) && d !in todo ==> (d in staging <==> d in domains)
        invariant changed <==> staging != old(staging)
        decreases todo
      {
        var d :| d in todo;
        todo := todo - {d};
        if d !in domains {
          staging := staging - {d};
          changed := true;
        }
      }
    }

    method Turn(now: int, d: string, s: Sighting) returns (changed: bool, notes: seq<Note>)
      modifies this
      ensures Visit(Value(), notes) == VisitDomain(settings, old(Value()), now, d, s)
      ensures changed <==> exists i :: 0 <= i < |notes| && ChangesStaging(notes[i])
    {
      if d in staging {
        notes := TurnStaging(now, d, s);
        assert notes != [] ==> ChangesStaging(notes[0]);
        return notes != [], notes;
      }
      notes := [];
      if d in pendingProd {
        if s.issued {
          pendingProd, prodFails, prodBackoff := pendingProd - {d}, prodFails - {d}, prodBackoff - {d};
          notes := [ProdIssued];
        } else if now < pendingProd[d] {
          return false, [];
        } else {
          prodFails := prodFails[d := (if d in prodFails then prodFails[d] else 0) + 1];
          var wait := ProdBackoffFor(prodFails[d]);
          prodBackoff := prodBackoff[d := now + wait];
          pendingProd := pendingProd - {d};
          return false, [ProdFailed(wait)];
        }
      }
      changed := TurnNew(now, d, s.issuedAgain);
      if changed {
        notes := notes + [Staged];
        assert notes[|notes| - 1] == Staged;
      }
    }

    method TurnStaging(now: int, d: string, s: Sighting) returns (notes: seq<Note>)
      requires d in staging
      modifies this
      ensures Visit(Value(), notes) == VisitDomain(settings, old(Value()), now, d, s)
    {
      if s.issued {
        staging, pendingProd, prodFails, prodBackoff := staging - {d}, pendingProd - {d}, prodFails - {d}, prodBackoff - {d};
        return [Converged];
      }
      match s.chain
      case Missing => return [];
      case Bad =>
        staging := staging - {d};
        backoff := backoff[d := now + BACKOFF_WINDOW];
        return [StageFailed];
      case Good =>
        staging := staging - {d};
        pendingProd := pendingProd[d := now + PENDING_WINDOW];
        return [Promoted];
    }

    method TurnNew(now: int, d: string, issued: bool) returns (staged: bool)
      modifies this
      ensures Visit(Value(), if staged then [Staged] else []) == Decide(settings, old(Value()), now, d, issued)
    {
      if !ShouldStage(settings.ca, settings.skipStaging, issued) {
        return false;
      }
      if d in prodBackoff {
        if now < prodBackoff[d] {
          return false;
        }
      }
      prodBackoff := prodBackoff - {d};
      if d in backoff {
        if now < backoff[d] {
          return false;
        }
      }
      backoff := backoff - {d};
      staging := staging + {d};
      return true;
    }
  }
}
