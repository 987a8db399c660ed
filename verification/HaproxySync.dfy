/**
  The haproxy-sync service: it keeps the worker's domains, certificates and bastion maps at a requested state,
  remembers that state, and gives it back to a worker that lost it in a reload. A reload may come between any two
  commands, so what an operation does to a worker is stated for the case that the worker is the same at its end.
*/
module HaproxySync {
  import opened Common
  import opened HaproxyWorker
  import opened HaproxyServing
  import opened HaproxyBastion
  import opened HaproxyDomains

  // ----- Domains ------------------------------------------------------------------------

  /** Onward to a worker with the same bastion maps, or to a new one with none. */
  predicate Aside(used: set<int>, w: Worker, used': set<int>, w': Worker) {
    && Onward(used, w, used', w')
    && w'.subdomains == (if w'.pid == w.pid then w.subdomains else {})
    && w'.individual == (if w'.pid == w.pid then w.individual else {})
  }

  lemma AsideTwice(u0: set<int>, w0: Worker, u1: set<int>, w1: Worker, u2: set<int>, w2: Worker)
    requires w0.pid in u0 && Aside(u0, w0, u1, w1) && Aside(u1, w1, u2, w2)
    ensures Aside(u0, w0, u2, w2) && (w2.pid == w0.pid ==> w1.pid == w0.pid)
  {
    OnwardTwice(u0, w0, u1, w1, u2, w2);
  }

  // ----- Bastion maps --------------------------------------------------------------------

  datatype BastionSyncResult = BastionSyncResult(
    subdomainsAdded: nat, subdomainsRemoved: nat, individualAdded: nat, individualRemoved: nat)

  function BastionTotal(r: BastionSyncResult): nat {
    r.subdomainsAdded + r.subdomainsRemoved + r.individualAdded + r.individualRemoved
  }

  predicate BastionCounts(w: Worker, subdomains: set<string>, individual: set<string>, r: BastionSyncResult) {
    var names := Names(Subdomains, w.subdomains);
    && r.subdomainsAdded == |subdomains - names| && r.subdomainsRemoved == |names - subdomains|
    && r.individualAdded == |individual - w.individual| && r.individualRemoved == |w.individual - individual|
  }

  predicate HasNames(w: Worker, subdomains: set<string>, individual: set<string>) {
    Names(Subdomains, w.subdomains) == subdomains && w.individual == individual
  }

  predicate OnlyBastionChanged(a: Worker, b: Worker) {
    b == a.(subdomains := b.subdomains, individual := b.individual)
  }

  /** Both maps as requested, if the subdomains were dot-prefixed to begin with, and the counters. */
  predicate BastionSynced(w: Worker, w': Worker, subdomains: set<string>, individual: set<string>,
                          r: BastionSyncResult) {
    && w'.individual == individual
    && (w'.subdomains == Keys(Subdomains, subdomains) <==> Prefixed(Subdomains, w.subdomains))
    && BastionCounts(w, subdomains, individual, r)
  }

  lemma PlainNames(ds: set<string>)
    ensures Names(IndividualDomains, ds) == ds == Keys(IndividualDomains, ds) && Prefixed(IndividualDomains, ds)
  {}

  lemma BothSynced(w: Worker, w1: Worker, w2: Worker, subs: set<string>, inds: set<string>, r: BastionSyncResult)
    requires OnlyMapChanged(w, w1, Subdomains) && OnlyMapChanged(w1, w2, IndividualDomains)
    requires Synced(Subdomains, w, w1, subs, r.subdomainsAdded, r.subdomainsRemoved)
    requires Synced(IndividualDomains, w1, w2, inds, r.individualAdded, r.individualRemoved)
    ensures BastionSynced(w, w2, subs, inds, r)
  {
    PlainNames(w.individual);
    PlainNames(inds);
  }

  /** A worker already at the requested state gets no command. */
  lemma SyncAgainIsSilent(w: Worker, subdomains: set<string>, individual: set<string>, r: BastionSyncResult)
    requires w.subdomains == Keys(Subdomains, subdomains) && w.individual == individual
    requires BastionCounts(w, subdomains, individual, r)
    ensures BastionTotal(r) == 0
  {
    NamesOfKeys(Subdomains, subdomains);
  }

  predicate HoldsBastion(w: Worker, subdomains: set<string>, individual: set<string>) {
    subdomains + individual != {} ==> w.subdomains == Keys(Subdomains, subdomains) && w.individual == individual
  }

  lemma CoversIsSetOf(xs: seq<string>, names: set<string>)
    requires Covers(xs, names)
    ensures SetOf(xs) == names
  {
    forall x ensures x in SetOf(xs) <==> x in names { SetOfMembers(xs, x); }
  }

  /** What happens to the service: time passes, it is asked to check or to restore, or a caller requests a sync. */
  datatype Event =
    | Passes
    | Checked
    | Asked
    | SyncDomains(reqs: seq<Request>)
    | SyncBastion(subdomains: seq<string>, individual: seq<string>)

  predicate IsSync(e: Event) { e.SyncDomains? || e.SyncBastion? }

  /** What the service answers. */
  datatype Reply =
    | Waited
    | CheckReply(ok: bool, restored: bool)
    | RestoreReply(ok: bool)
    | DomainsReply(out: Outcome)
    | BastionReply(ok: bool)

  predicate Answers(e: Event, r: Reply) {
    match e
    case Passes => r.Waited?
    case Checked => r.CheckReply?
    case Asked => r.RestoreReply?
    case SyncDomains(_) => r.DomainsReply?
    case SyncBastion(_, _) => r.BastionReply?
  }

  /** A sync of the domains that went through with no domain failing, or could not even list them. */
  predicate Clean(site: Site, out: Outcome) {
    out.Unlisted? || (out.Done? && forall x <- out.r.failed :: IsBase(site, x))
  }

  /** An answer after which worker and memory are in step if they were before. */
  predicate Keeps(site: Site, r: Reply) {
    match r
    case DomainsReply(out) => Clean(site, out)
    case BastionReply(ok) => ok
    case _ => true
  }

  /** An answer after which worker and memory are in step. */
  predicate Mends(r: Reply) {
    match r
    case CheckReply(_, restored) => restored
    case RestoreReply(ok) => ok
    case _ => false
  }

  /** Whether the answers so far show that worker and memory are in step. */
  predicate KnownInStep(site: Site, start: bool, replies: seq<Reply>) {
    if replies == [] then start
    else
      var last := replies[|replies| - 1];
      (KnownInStep(site, start, replies[..|replies| - 1]) && Keeps(site, last)) || Mends(last)
  }

  // ----- The service ------------------------------------------------------------------------

  class HAproxySync {
    const site: Site
    const haproxy: HAProxy
    var subdomains: set<string>
    var individualDomains: set<string>
    var domains: set<string>
    var workerPID: int
    ghost var troubles: nat       // certificates that could not be read, written or issued so far

    constructor (site: Site, haproxy: HAProxy)
      ensures this.site == site && this.haproxy == haproxy
      ensures subdomains == {} && individualDomains == {} && domains == {} && workerPID == 0
      ensures Safe(site, haproxy) && 0 in haproxy.used && haproxy.w.subdomains == {} ==> Valid() && Vouched()
    {
      this.site, this.haproxy := site, haproxy;
      subdomains, individualDomains, domains, workerPID := {}, {}, {}, 0;
      troubles := 0;
    }

    /** All that has failed so far: commands, listings and certificates. */
    ghost function Faults(): nat
      reads this, haproxy
    {
      haproxy.failures + troubles
    }

    ghost predicate Same(w: Worker)
      reads haproxy
    {
      haproxy.w.pid == w.pid
    }

    /** A command about domains or certificates. */
    method DomainExec(c: Cmd) returns (ok: bool)
      requires Safe(site, haproxy) && Harmless(site, haproxy.w, c)
      requires c.AddMap? || c.DelMap? ==> c.name.Domains?
      modifies haproxy
      ensures Safe(site, haproxy) && Aside(old(haproxy.used), old(haproxy.w), haproxy.used, haproxy.w)
      ensures Took(Reached(old(haproxy.w), haproxy.w.pid), c, ok, haproxy.w)
      ensures Faults() == old(Faults()) + if ok then 0 else 1
    {
      ok := SafeExec(site, haproxy, c);
    }

    /** Writes the given certificate or has one issued; either may fail. */
    method ObtainCertificate(certificate: string) returns (ok: bool, pem: string)
      modifies `troubles
      ensures ok && certificate != "" ==> pem == certificate
      ensures troubles == old(troubles) + if ok then 0 else 1
    {
      ok := *;
      if !ok { troubles := troubles + 1; }
      if certificate != "" { pem := certificate; } else { pem := *; }
    }

    /** Loads a certificate into the worker and lists it, all in one worker or not at all. */
    method InstallCertificate(path: string, pem: string) returns (ok: bool)
      requires Safe(site, haproxy)
      modifies haproxy
      ensures Safe(site, haproxy) && Aside(old(haproxy.used), old(haproxy.w), haproxy.used, haproxy.w)
      ensures haproxy.w.domains == if Same(old(haproxy.w)) then old(haproxy.w.domains) else {}
      ensures ok ==> Serves(haproxy.w, path) && haproxy.w.certs[path].committed == Some(pem)
      ensures Faults() >= old(Faults()) && (ok <==> Faults() == old(Faults()))
    {
      ghost var u, w := haproxy.used, haproxy.w;
      ok := DomainExec(NewCert(path));
      if !ok { return; }
      ghost var u1, w1 := haproxy.used, haproxy.w;
      ok := DomainExec(SetCert(path, pem));
      AsideTwice(u, w, u1, w1, haproxy.used, haproxy.w);
      if !ok { return; }
      ghost var u2, w2 := haproxy.used, haproxy.w;
      ok := DomainExec(CommitCert(path));
      AsideTwice(u, w, u2, w2, haproxy.used, haproxy.w);
      if !ok { return; }
      ghost var u3, w3 := haproxy.used, haproxy.w;
      ok := DomainExec(AddCrt(path));
      AsideTwice(u, w, u3, w3, haproxy.used, haproxy.w);
    }

    /** The domain is routed last; only then is it remembered. */
    method AddDomain(d: string, certificate: string) returns (ok: bool)
      requires Safe(site, haproxy)
      modifies `domains, `troubles, haproxy
      ensures Safe(site, haproxy) && Aside(old(haproxy.used), old(haproxy.w), haproxy.used, haproxy.w)
      ensures Faults() >= old(Faults()) && (ok <==> Faults() == old(Faults()))
      ensures domains == if ok then old(domains) + {d} else old(domains)
      ensures haproxy.w.domains <= old(haproxy.w.domains) + {d} && (ok ==> d in haproxy.w.domains)
      ensures Same(old(haproxy.w)) ==> old(haproxy.w.domains) <= haproxy.w.domains
      ensures Same(old(haproxy.w)) && ok ==> Serves(haproxy.w, CertPath(site, d))
      ensures Same(old(haproxy.w)) && ok && certificate != "" ==>
        haproxy.w.certs[CertPath(site, d)].committed == Some(certificate)
    {
      var path, pem := CertPath(site, d), "";
      ok, pem := ObtainCertificate(certificate);
      if !ok { return; }
      ok := InstallCertificate(path, pem);
      if !ok { return; }
      ghost var u, w := haproxy.used, haproxy.w;
      ok := DomainExec(AddMap(Domains, d));
      AsideTwice(old(haproxy.used), old(haproxy.w), u, w, haproxy.used, haproxy.w);
      if !ok { return; }
      domains := domains + {d};
    }

    lemma Unrouted(w: Worker, d: string)
      requires IsBase(site, d) || d !in w.domains
      ensures Harmless(site, w, DelCrt(CertPath(site, d))) && Harmless(site, w, DelCert(CertPath(site, d)))
    {
      forall e | e in w.domains && CertPath(site, e) == CertPath(site, d) ensures IsBase(site, e) {
        CertPathInjective(site, e, d);
      }
    }

    /** The map entry goes first, so no routed domain loses its certificate. */
    method RemoveDomain(d: string) returns (ok: bool)
      requires Safe(site, haproxy)
      modifies haproxy
      ensures Safe(site, haproxy) && Aside(old(haproxy.used), old(haproxy.w), haproxy.used, haproxy.w)
      ensures haproxy.w.domains <= old(haproxy.w.domains)
      ensures Same(old(haproxy.w)) ==> old(haproxy.w.domains) - {d} <= haproxy.w.domains
      ensures ok ==> d !in haproxy.w.domains && !Serves(haproxy.w, CertPath(site, d))
      ensures Faults() >= old(Faults()) && (ok <==> Faults() == old(Faults()))
    {
      ghost var u, w := haproxy.used, haproxy.w;
      ok := DomainExec(DelMap(Domains, d));
      if !ok { return; }
      Unrouted(haproxy.w, d);
      ghost var u1, w1 := haproxy.used, haproxy.w;
      ok := DomainExec(DelCrt(CertPath(site, d)));
      AsideTwice(u, w, u1, w1, haproxy.used, haproxy.w);
      if !ok { return; }
      Unrouted(haproxy.w, d);
      ghost var u2, w2 := haproxy.used, haproxy.w;
      ok := DomainExec(DelCert(CertPath(site, d)));
      AsideTwice(u, w, u2, w2, haproxy.used, haproxy.w);
    }

    /** Best effort: every failure is only logged. */
    method DropBaseDomain(d: string)
      requires Safe(site, haproxy) && IsBase(site, d)
      modifies haproxy
      ensures Faults() >= old(Faults())
      ensures Safe(site, haproxy) && Aside(old(haproxy.used), old(haproxy.w), haproxy.used, haproxy.w)
      ensures haproxy.w.domains <= old(haproxy.w.domains)
      ensures Same(old(haproxy.w)) ==> old(haproxy.w.domains) - {d} <= haproxy.w.domains
    {
      ghost var u, w := haproxy.used, haproxy.w;
      var _ := DomainExec(DelMap(Domains, d));
      ghost var u1, w1 := haproxy.used, haproxy.w;
      Unrouted(haproxy.w, d);
      var _ := DomainExec(DelCrt(CertPath(site, d)));
      AsideTwice(u, w, u1, w1, haproxy.used, haproxy.w);
      ghost var u2, w2 := haproxy.used, haproxy.w;
      Unrouted(haproxy.w, d);
      var _ := DomainExec(DelCert(CertPath(site, d)));
      AsideTwice(u, w, u2, w2, haproxy.used, haproxy.w);
    }

    /** Unregisters one domain; a failure to unregister the deployment's own is not reported. */
    method RemoveExtra(d: string) returns (ok: bool)
      requires Safe(site, haproxy)
      modifies haproxy
      ensures Safe(site, haproxy) && Aside(old(haproxy.used), old(haproxy.w), haproxy.used, haproxy.w)
      ensures haproxy.w.domains <= old(haproxy.w.domains)
      ensures Same(old(haproxy.w)) ==> old(haproxy.w.domains) - {d} <= haproxy.w.domains
      ensures ok ==> IsBase(site, d) || d !in haproxy.w.domains
      ensures !ok ==> !IsBase(site, d)
      ensures Faults() >= old(Faults()) && (!ok ==> Faults() > old(Faults()))
    {
      if IsBase(site, d) {
        DropBaseDomain(d);
        ok := true;
      } else {
        ok := RemoveDomain(d);
      }
    }

    /** Sets apart the requests for the deployment's own domain, which the base certificate serves. */
    method SplitRequests(reqs: seq<Request>) returns (wanted: seq<Request>, refused: seq<string>)
      ensures wanted == Wanted(site, reqs, |reqs|) && refused == Refused(site, reqs, |reqs|)
      ensures |wanted| + |refused| == |reqs|
      ensures (forall r <- wanted :: r in reqs && !IsBase(site, r.name)) && forall x <- refused :: IsBase(site, x)
      ensures forall r <- reqs :: if IsBase(site, r.name) then r.name in refused else r in wanted
    {
      wanted, refused := [], [];
      for i := 0 to |reqs|
        invariant wanted == Wanted(site, reqs, i) && refused == Refused(site, reqs, i)
        invariant |wanted| + |refused| == i
        invariant (forall r <- wanted :: r in reqs && !IsBase(site, r.name)) && forall x <- refused :: IsBase(site, x)
        invariant forall r <- reqs[..i] :: if IsBase(site, r.name) then r.name in refused else r in wanted
      {
        if IsBase(site, reqs[i].name) {
          refused := refused + [reqs[i].name];
        } else {
          wanted := wanted + [reqs[i]];
        }
      }
    }

    method DesiredNames(wanted: seq<Request>) returns (desired: set<string>)
      ensures desired == FirstNames(wanted, |wanted|)
    {
      desired := {};
      for i := 0 to |wanted|
        invariant desired == FirstNames(wanted, i)
      {
        desired := desired + {wanted[i].name};
      }
    }

    /** One wanted domain that is not mirrored yet; `u` and `w` are what the sync began with. */
    method AddWanted(r: Request, failed: seq<string>, ghost u: set<int>, ghost w: Worker,
                     ghost before: set<string>, ghost first: set<string>) returns (ok: bool, failed': seq<string>)
      requires Safe(site, haproxy) && w.pid in u && Aside(u, w, haproxy.used, haproxy.w) && r.name !in domains
      requires Progress(before, domains, haproxy.w.domains, first, failed, Same(w))
      modifies `domains, `troubles, haproxy
      ensures Safe(site, haproxy) && Aside(u, w, haproxy.used, haproxy.w)
      ensures Faults() >= old(Faults()) && failed' == if Faults() == old(Faults()) then failed else failed + [r.name]
      ensures Progress(before, domains, haproxy.w.domains, first + {r.name}, failed', Same(w))
      ensures |domains - before| == |old(domains) - before| + if ok then 1 else 0
    {
      ghost var u1, w1, mirror := haproxy.used, haproxy.w, domains;
      ok := AddDomain(r.name, r.certificate);
      AsideTwice(u, w, u1, w1, haproxy.used, haproxy.w);
      ghost var was := w1.pid == w.pid;
      if ok {
        ProgressAdded(before, mirror, w1.domains, haproxy.w.domains, first, failed, was, Same(w), r.name);
        failed' := failed;
      } else {
        ProgressFailed(before, mirror, w1.domains, haproxy.w.domains, first, failed, was, Same(w), r.name);
        failed' := failed + [r.name];
      }
    }

    method AddMissingDomains(wanted: seq<Request>) returns (added: nat, issued: nat, failed: seq<string>)
      requires Safe(site, haproxy) && domains == haproxy.w.domains
      modifies `domains, `troubles, haproxy
      ensures Safe(site, haproxy) && Aside(old(haproxy.used), old(haproxy.w), haproxy.used, haproxy.w)
      ensures Faults() >= old(Faults()) && (failed == [] <==> Faults() == old(Faults()))
      ensures Progress(old(domains), domains, haproxy.w.domains, FirstNames(wanted, |wanted|), failed,
                       Same(old(haproxy.w)))
      ensures issued <= added == |domains - old(domains)|
      ensures NoneGiven(wanted) ==> issued == added
      ensures AllGiven(wanted) ==> issued == 0
    {
      added, issued, failed := 0, 0, [];
      ghost var u, w, before := haproxy.used, haproxy.w, domains;
      for i := 0 to |wanted|
        invariant Safe(site, haproxy) && Aside(u, w, haproxy.used, haproxy.w)
        invariant Progress(before, domains, haproxy.w.domains, FirstNames(wanted, i), failed, Same(w))
        invariant Faults() >= old(Faults()) && (failed == [] <==> Faults() == old(Faults()))
        invariant issued <= added == |domains - before|
        invariant NoneGiven(wanted) ==> issued == added
        invariant AllGiven(wanted) ==> issued == 0
      {
        var d := wanted[i];
        if d.name !in domains {
          var ok;
          ok, failed := AddWanted(d, failed, u, w, before, FirstNames(wanted, i));
          if ok {
            added := added + 1;
            if d.certificate == "" { issued := issued + 1; }
          }
        } else {
          ProgressSkipped(before, domains, haproxy.w.domains, FirstNames(wanted, i), failed, Same(w), d.name);
        }
      }
    }

    /** Takes one extra domain off the worker and, if that went through, off the mirror. */
    method RemoveOne(d: string, desired: set<string>, ghost todo: set<string>, ghost all: set<string>,
                     ghost u: set<int>, ghost w: Worker) returns (ok: bool)
      requires Safe(site, haproxy) && w.pid in u && Aside(u, w, haproxy.used, haproxy.w) && d !in desired
      requires Pruning(site, w, haproxy.w, all, domains, desired, todo)
      modifies `domains, haproxy
      ensures Safe(site, haproxy) && Aside(u, w, haproxy.used, haproxy.w)
      ensures ok ==> domains == old(domains) - {d} && Pruning(site, w, haproxy.w, all, domains, desired, todo - {d})
      ensures !ok ==> domains == old(domains) && !IsBase(site, d) && StoppedAt(w, all, desired, d)
      ensures !ok ==> Accounted(site, haproxy.w.domains, desired, todo)
      ensures Faults() >= old(Faults()) && (!ok ==> Faults() > old(Faults()))
    {
      ghost var u1, w1 := haproxy.used, haproxy.w;
      ok := RemoveExtra(d);
      AsideTwice(u, w, u1, w1, haproxy.used, haproxy.w);
      if !ok {
        AccountedLess(site, w1.domains, haproxy.w.domains, desired, todo);
        return;
      }
      PruningGone(site, w, w1, haproxy.w, all, domains, desired, todo, d);
      domains := domains - {d};
    }

    /** Removal gave up at `d`: with the same worker, `d` is the only remembered domain that may have lost its entry. */
    ghost predicate StoppedAt(w: Worker, all: set<string>, desired: set<string>, d: string)
      reads this, haproxy
    {
      && haproxy.w.domains <= w.domains && (Same(w) ==> w.domains * desired <= haproxy.w.domains)
      && (Same(w) && all <= w.domains ==> NonBase(site, domains) - {d} <= haproxy.w.domains)
    }

    method RemoveExtraDomains(desired: set<string>) returns (ok: bool, at: string, removed: nat, certsRemoved: nat)
      requires Safe(site, haproxy) && haproxy.w.domains <= domains + desired
      modifies `domains, haproxy
      ensures Safe(site, haproxy) && Aside(old(haproxy.used), old(haproxy.w), haproxy.used, haproxy.w)
      ensures haproxy.w.domains <= old(haproxy.w.domains)
      ensures Same(old(haproxy.w)) ==> old(haproxy.w.domains) * desired <= haproxy.w.domains
      ensures ok ==> domains == old(domains) * desired && NonBase(site, haproxy.w.domains) <= desired
      ensures ok ==> removed == |old(domains) - desired| && certsRemoved == |NonBase(site, old(domains) - desired)|
      ensures !ok ==> at in domains && at !in desired && !IsBase(site, at)
      ensures !ok ==> old(domains) * desired <= domains <= old(domains)
      ensures !ok ==> StoppedAt(old(haproxy.w), old(domains), desired, at)
      ensures !ok ==> NonBase(site, haproxy.w.domains) * (old(domains) - domains) == {}
      ensures Faults() >= old(Faults()) && (!ok ==> Faults() > old(Faults()))
    {
      ok, at, removed, certsRemoved := true, "", 0, 0;
      ghost var u, w, all := haproxy.used, haproxy.w, domains;
      var todo := domains;
      ghost var gone: set<string> := {};
      PruningStart(site, w, all, desired);
      while todo != {}
        invariant Safe(site, haproxy) && Aside(u, w, haproxy.used, haproxy.w)
        invariant Pruned(all, todo, desired, gone, domains) && Faults() >= old(Faults())
        invariant removed == |gone| && certsRemoved == |NonBase(site, gone)|
        invariant Pruning(site, w, haproxy.w, all, domains, desired, todo)
        decreases todo
      {
        var d :| d in todo;
        PrunedStep(all, todo, desired, gone, domains, d);
        if d !in desired {
          PrunedBounds(all, todo, desired, gone, domains);
          NonBaseInsert(site, gone, d);
          ok := RemoveOne(d, desired, todo, all, u, w);
          if !ok {
            AccountedGone(site, haproxy.w.domains, all, todo, desired, gone, domains);
            return false, d, removed, certsRemoved;
          }
          if !IsBase(site, d) { certsRemoved := certsRemoved + 1; }
          removed, gone := removed + 1, gone + {d};
        } else {
          PruningKept(site, w, haproxy.w, all, domains, desired, todo, d);
        }
        todo := todo - {d};
      }
      PrunedEnd(all, desired, gone, domains);
    }

    /** No name reported as failed is routed all the same. */
    ghost predicate NoStrays(failed: seq<string>)
      reads this, haproxy
    {
      forall x <- failed :: IsBase(site, x) || x in domains || x !in haproxy.w.domains
    }

    /** Exactly when the worker routes what is remembered after a sync on it; `failed` are the names that failed. */
    ghost predicate DomainsAgree(out: Outcome, failed: seq<string>)
      reads this, haproxy
    {
      match out
      case Unlisted => true
      case Done(_) => domains == {} || NoStrays(failed)
      case Stopped(at) => at in haproxy.w.domains && NonBase(site, domains) == domains && NoStrays(failed)
    }

    /** What a sync promises once the worker has listed its domains. */
    method SyncListed(reqs: seq<Request>) returns (out: Outcome, ghost failed: seq<string>)
      requires Safe(site, haproxy) && domains == haproxy.w.domains
      modifies `domains, `troubles, haproxy
      ensures Safe(site, haproxy) && Aside(old(haproxy.used), old(haproxy.w), haproxy.used, haproxy.w)
      ensures haproxy.w.domains <= old(haproxy.w.domains) + Desired(site, reqs)
      ensures Same(old(haproxy.w)) ==> old(haproxy.w.domains) * Desired(site, reqs) <= haproxy.w.domains
      ensures out.Done? ==> failed == out.r.failed
      ensures out.Done? ==> Remembers(Desired(site, reqs), Refused(site, reqs, |reqs|), domains, failed)
      ensures out.Done? ==> NonBase(site, haproxy.w.domains) <= Desired(site, reqs)
      ensures out.Done? && Same(old(haproxy.w)) ==>
        domains <= haproxy.w.domains && Reports(site, reqs, old(haproxy.w.domains), domains, out.r)
      ensures out.Stopped? ==> out.at in domains && out.at !in Desired(site, reqs) && !IsBase(site, out.at)
      ensures Same(old(haproxy.w)) ==> (HoldsDomains(site, haproxy.w, domains) <==> DomainsAgree(out, failed))
      ensures !out.Unlisted? && Faults() >= old(Faults())
      ensures Faults() == old(Faults()) ==> out.Done? && failed == Refused(site, reqs, |reqs|)
    {
      ghost var u, w := haproxy.used, haproxy.w;
      var current := domains;
      var wanted, refused := SplitRequests(reqs);
      var desired := DesiredNames(wanted);
      WantedGiven(site, reqs, |reqs|);
      NamesSplit(site, reqs, |reqs|);
      var added, issued, failures := AddMissingDomains(wanted);
      ghost var mirror, u1, w1 := domains, haproxy.used, haproxy.w;
      var ok, at, removed, certsRemoved := RemoveExtraDomains(desired);
      AsideTwice(u, w, u1, w1, haproxy.used, haproxy.w);
      failed := refused + failures;
      if ok {
        SyncedSets(current, mirror, desired);
        out := Done(DomainSyncResult(added, removed, issued, certsRemoved, refused + failures));
        if Same(w) { InStepIff(site, haproxy.w.domains, desired, domains, failed); }
      } else {
        out := Stopped(at);
        if Same(w) { StoppedIff(site, haproxy.w.domains, mirror, domains, desired, failed, at); }
      }
    }

    /** One full synchronisation of the domains, as far as the workers and the certificate authority go along. */
    method DomainSync(reqs: seq<Request>) returns (out: Outcome, ghost failed: seq<string>)
      requires Safe(site, haproxy)
      modifies `domains, `troubles, haproxy
      ensures Safe(site, haproxy) && Aside(old(haproxy.used), old(haproxy.w), haproxy.used, haproxy.w)
      ensures haproxy.w.domains <= old(haproxy.w.domains) + Desired(site, reqs)
      ensures Same(old(haproxy.w)) ==> old(haproxy.w.domains) * Desired(site, reqs) <= haproxy.w.domains
      ensures out.Unlisted? ==> domains == {}
      ensures out.Done? ==> failed == out.r.failed
      ensures out.Done? ==> Remembers(Desired(site, reqs), Refused(site, reqs, |reqs|), domains, failed)
      ensures out.Done? ==> NonBase(site, haproxy.w.domains) <= Desired(site, reqs)
      ensures out.Done? && Same(old(haproxy.w)) ==>
        domains <= haproxy.w.domains && Reports(site, reqs, old(haproxy.w.domains), domains, out.r)
      ensures out.Stopped? ==> out.at in domains && out.at !in Desired(site, reqs) && !IsBase(site, out.at)
      ensures Same(old(haproxy.w)) ==> (HoldsDomains(site, haproxy.w, domains) <==> DomainsAgree(out, failed))
      ensures Faults() >= old(Faults())
      ensures Faults() == old(Faults()) ==> out.Done? && failed == Refused(site, reqs, |reqs|)
    {
      ghost var u, w := haproxy.used, haproxy.w;
      domains := {};
      var ok, current := SafeShowMap(site, haproxy, Domains);
      if !ok { return Unlisted, []; }
      domains := current;
      ghost var u1, w1 := haproxy.used, haproxy.w;
      out, failed := SyncListed(reqs);
      AsideTwice(u, w, u1, w1, haproxy.used, haproxy.w);
    }

    /** Exactly when the worker's bastion maps hold what is remembered after a sync on it. */
    ghost predicate BastionAgrees(sub: MapOutcome, ind: Option<MapOutcome>)
      reads this, haproxy
    {
      || subdomains + individualDomains == {}
      || (&& Agrees(Subdomains, haproxy.w, sub)
          && match ind
             case None => haproxy.w.individual == individualDomains
             case Some(out) => Agrees(IndividualDomains, haproxy.w, out))
    }

    /** The second map is looked at only if the first went through. */
    method BastionSyncMaps(wantedSubdomains: seq<string>, wantedIndividual: seq<string>)
      returns (ok: bool, r: BastionSyncResult, ghost sub: MapOutcome, ghost ind: Option<MapOutcome>)
      requires Safe(site, haproxy)
      modifies `subdomains, `individualDomains, haproxy
      ensures Safe(site, haproxy) && Onward(old(haproxy.used), old(haproxy.w), haproxy.used, haproxy.w)
      ensures Same(old(haproxy.w)) ==> OnlyBastionChanged(old(haproxy.w), haproxy.w)
      ensures ok ==> subdomains == SetOf(wantedSubdomains) && individualDomains == SetOf(wantedIndividual)
      ensures (sub.Brought? <==> ind.Some?) && (ok <==> ind == Some(Brought))
      ensures ind.None? ==> individualDomains == old(individualDomains)
      ensures Same(old(haproxy.w)) && ind.None? ==> haproxy.w.individual == old(haproxy.w.individual)
      ensures Same(old(haproxy.w)) && Prefixed(Subdomains, old(haproxy.w.subdomains)) ==>
        (HoldsBastion(haproxy.w, subdomains, individualDomains) <==> BastionAgrees(sub, ind))
      ensures ok && Same(old(haproxy.w)) ==>
        BastionSynced(old(haproxy.w), haproxy.w, SetOf(wantedSubdomains), SetOf(wantedIndividual), r)
      ensures ok ==> haproxy.commands == old(haproxy.commands) + BastionTotal(r)
      ensures Faults() >= old(Faults()) && (ok <==> Faults() == old(Faults()))
      ensures Prefixed(Subdomains, old(haproxy.w.subdomains)) ==> Prefixed(Subdomains, haproxy.w.subdomains)
      ensures HasNames(old(haproxy.w), SetOf(wantedSubdomains), SetOf(wantedIndividual)) && Same(old(haproxy.w)) ==>
        haproxy.w == old(haproxy.w)
    {
      ghost var u, w := haproxy.used, haproxy.w;
      r, ind := BastionSyncResult(0, 0, 0, 0), None;
      var mirror, added, removed;
      ok, mirror, added, removed, sub := SyncMap(site, haproxy, Subdomains, wantedSubdomains);
      subdomains := mirror;
      if !ok { return; }
      ghost var u1, w1 := haproxy.used, haproxy.w;
      var added', removed';
      ghost var out;
      ok, mirror, added', removed', out := SyncMap(site, haproxy, IndividualDomains, wantedIndividual);
      ind := Some(out);
      assert haproxy.w.subdomains == Reached(w1, haproxy.w.pid).subdomains;
      OnwardTwice(u, w, u1, w1, haproxy.used, haproxy.w);
      individualDomains := mirror;
      r := BastionSyncResult(added, removed, added', removed');
      if ok && Same(w) { BothSynced(w, w1, haproxy.w, SetOf(wantedSubdomains), SetOf(wantedIndividual), r); }
      PlainNames(w.individual);
      PlainNames(mirror);
    }

    // ----- Giving back what is remembered -----------------------------------------------------

    ghost predicate Valid()
      reads this, haproxy
    {
      Safe(site, haproxy) && Prefixed(Subdomains, haproxy.w.subdomains) && workerPID in haproxy.used
    }

    /** The worker holds each remembered group that is not empty. */
    ghost predicate Restored()
      reads this, haproxy
    {
      HoldsBastion(haproxy.w, subdomains, individualDomains) && HoldsDomains(site, haproxy.w, domains)
    }

    /** The recorded process id vouches for the worker. */
    ghost predicate Vouched()
      reads this, haproxy
    {
      workerPID == haproxy.w.pid ==> Restored()
    }

    /** The remembered domains with the certificates on disk; reading one may fail. */
    method RememberedRequests() returns (ok: bool, reqs: seq<Request>)
      modifies `troubles
      ensures ok ==> FirstNames(reqs, |reqs|) == domains
      ensures troubles == old(troubles) + if ok then 0 else 1
    {
      ok, reqs := true, [];
      var todo := domains;
      while todo != {}
        invariant todo <= domains && FirstNames(reqs, |reqs|) == domains - todo && troubles == old(troubles)
        decreases todo
      {
        var d :| d in todo;
        var readable: bool := *;
        if !readable {
          troubles := troubles + 1;
          return false, [];
        }
        var pem: string := *;
        FirstNamesSnoc(reqs, Request(d, pem), |reqs|);
        todo, reqs := todo - {d}, reqs + [Request(d, pem)];
      }
    }

    method RestoreBastion() returns (ok: bool)
      requires Valid()
      modifies `subdomains, `individualDomains, haproxy
      ensures Valid() && Onward(old(haproxy.used), old(haproxy.w), haproxy.used, haproxy.w)
      ensures Same(old(haproxy.w)) ==> OnlyBastionChanged(old(haproxy.w), haproxy.w)
      ensures ok ==> subdomains == old(subdomains) && individualDomains == old(individualDomains)
      ensures Same(old(haproxy.w)) && (ok || old(HoldsBastion(haproxy.w, subdomains, individualDomains))) ==>
        HoldsBastion(haproxy.w, old(subdomains), old(individualDomains))
      ensures Faults() >= old(Faults()) && (ok <==> Faults() == old(Faults()))
    {
      if subdomains == {} && individualDomains == {} { return true; }
      var wantedSubdomains := AnyOrder(subdomains);
      var wantedIndividual := AnyOrder(individualDomains);
      CoversIsSetOf(wantedSubdomains, subdomains);
      CoversIsSetOf(wantedIndividual, individualDomains);
      NamesOfKeys(Subdomains, subdomains);
      var r;
      ghost var sub, ind;
      ok, r, sub, ind := BastionSyncMaps(wantedSubdomains, wantedIndividual);
    }

    method RestoreDomains() returns (ok: bool)
      requires Valid()
      modifies `domains, `troubles, haproxy
      ensures Valid() && Aside(old(haproxy.used), old(haproxy.w), haproxy.used, haproxy.w)
      ensures ok ==> domains == old(domains) && NonBase(site, domains) == domains
      ensures Same(old(haproxy.w)) && (ok || old(HoldsDomains(site, haproxy.w, domains))) ==>
        HoldsDomains(site, haproxy.w, old(domains))
      ensures Faults() >= old(Faults())
      ensures Faults() == old(Faults()) && NonBase(site, old(domains)) == old(domains) ==> ok
    {
      if domains == {} { return true; }
      var reqs;
      ok, reqs := RememberedRequests();
      if !ok { return; }
      var out, failed := DomainSync(reqs);
      if Same(old(haproxy.w)) && old(HoldsDomains(site, haproxy.w, domains)) {
        HoldingKept(site, old(haproxy.w), haproxy.w, old(domains), reqs);
      }
      ok := out.Done? && out.r.failed == [];
      NamesSplit(site, reqs, |reqs|);
      if ok { NothingFailed(site, reqs, domains, out.r.failed); }
      if NonBase(site, old(domains)) == old(domains) { NoneRefused(site, reqs, |reqs|); }
    }

    /**
      A failure puts the remembered sets back as they were. The process id given is recorded, and only at the end; it
      stands for a worker that holds every remembered group, unless a reload has replaced that worker meanwhile. A
      remembered domain of the deployment itself makes it fail; apart from that it fails only if something it does
      fails.
    */
    method RestoreInto(pid: int) returns (ok: bool)
      requires Valid() && pid in haproxy.used
      modifies this, haproxy
      ensures Valid() && Onward(old(haproxy.used), old(haproxy.w), haproxy.used, haproxy.w)
      ensures subdomains == old(subdomains) && individualDomains == old(individualDomains) && domains == old(domains)
      ensures workerPID == if ok then pid else old(workerPID)
      ensures Same(old(haproxy.w)) && (ok || old(Restored())) ==> Restored()
      ensures ok ==> NonBase(site, domains) == domains
      ensures Faults() >= old(Faults()) && (Faults() == old(Faults()) && NonBase(site, domains) == domains ==> ok)
    {
      var subdomains', individual', domains' := subdomains, individualDomains, domains;
      ghost var u, w := haproxy.used, haproxy.w;
      ok := RestoreBastion();
      ghost var u1, w1 := haproxy.used, haproxy.w;
      if ok {
        ok := RestoreDomains();
        OnwardTwice(u, w, u1, w1, haproxy.used, haproxy.w);
      }
      ghost var u2, w2 := haproxy.used, haproxy.w;
      Wait(site, haproxy);
      OnwardTwice(u, w, u2, w2, haproxy.used, haproxy.w);
      if ok {
        workerPID := pid;
      } else {
        subdomains, individualDomains, domains := subdomains', individual', domains';
      }
    }

    /** Restores into the worker that answers first, whatever happens to it afterwards. */
    method Restore() returns (ok: bool)
      requires Valid()
      modifies this, haproxy
      ensures Valid() && Onward(old(haproxy.used), old(haproxy.w), haproxy.used, haproxy.w)
      ensures subdomains == old(subdomains) && individualDomains == old(individualDomains) && domains == old(domains)
      ensures !ok ==> workerPID == old(workerPID)
      ensures ok || old(Vouched()) ==> Vouched()
      ensures ok ==> NonBase(site, domains) == domains
      ensures Faults() >= old(Faults()) && (Faults() == old(Faults()) && NonBase(site, domains) == domains ==> ok)
    {
      ghost var u, w := haproxy.used, haproxy.w;
      var pid;
      ok, pid := SafeShowPID(site, haproxy);
      if !ok { return; }
      ghost var u1, w1 := haproxy.used, haproxy.w;
      ok := RestoreInto(pid);
      OnwardTwice(u, w, u1, w1, haproxy.used, haproxy.w);
    }

    /** Restores only into a worker other than the one last restored into, and leaves that one alone. */
    method Check() returns (ok: bool, restored: bool)
      requires Valid()
      modifies this, haproxy
      ensures Valid() && Onward(old(haproxy.used), old(haproxy.w), haproxy.used, haproxy.w)
      ensures subdomains == old(subdomains) && individualDomains == old(individualDomains) && domains == old(domains)
      ensures (restored <==> workerPID != old(workerPID)) && (restored ==> ok)
      ensures ok && !restored ==> haproxy.w.pid == workerPID
      ensures restored || old(Vouched()) ==> Vouched()
      ensures haproxy.w.pid == old(workerPID) ==> haproxy.w == old(haproxy.w) && workerPID == old(workerPID)
      ensures Faults() >= old(Faults()) && (Faults() == old(Faults()) && NonBase(site, domains) == domains ==> ok)
    {
      ghost var u, w := haproxy.used, haproxy.w;
      var pid;
      restored := false;
      ok, pid := SafeShowPID(site, haproxy);
      if !ok || pid == workerPID { return; }
      ghost var u1, w1 := haproxy.used, haproxy.w;
      ok := RestoreInto(pid);
      restored := ok;
      OnwardTwice(u, w, u1, w1, haproxy.used, haproxy.w);
    }

    // ----- Whole runs ---------------------------------------------------------------------------

    /** A requested sync of the domains: exactly when it leaves worker and memory in step, and what it remembers. */
    method HandleDomains(reqs: seq<Request>) returns (out: Outcome, ghost failed: seq<string>)
      requires Valid()
      modifies this, haproxy
      ensures Valid() && workerPID == old(workerPID)
      ensures Onward(old(haproxy.used), old(haproxy.w), haproxy.used, haproxy.w)
      ensures subdomains == old(subdomains) && individualDomains == old(individualDomains)
      ensures out.Done? ==> failed == out.r.failed
      ensures out.Stopped? ==> out.at in domains && out.at !in Desired(site, reqs)
      ensures Clean(site, out) ==> domains == if out.Unlisted? then {} else Desired(site, reqs)
      ensures old(Vouched()) ==> (Vouched() <==> workerPID != haproxy.w.pid || DomainsAgree(out, failed))
      ensures Clean(site, out) && old(Vouched()) ==> Vouched()
      ensures Faults() >= old(Faults())
      ensures Faults() == old(Faults()) ==> Clean(site, out) && out.Done?
    {
      out, failed := DomainSync(reqs);
      NamesSplit(site, reqs, |reqs|);
    }

    /** A requested sync of the bastion maps: exactly when it leaves worker and memory in step. */
    method HandleBastion(wantedSubdomains: seq<string>, wantedIndividual: seq<string>)
      returns (ok: bool, ghost sub: MapOutcome, ghost ind: Option<MapOutcome>)
      requires Valid()
      modifies this, haproxy
      ensures Valid() && workerPID == old(workerPID) && domains == old(domains)
      ensures Onward(old(haproxy.used), old(haproxy.w), haproxy.used, haproxy.w)
      ensures ok ==> subdomains == SetOf(wantedSubdomains) && individualDomains == SetOf(wantedIndividual)
      ensures (sub.Brought? <==> ind.Some?) && (ok <==> ind == Some(Brought))
      ensures old(Vouched()) ==> (Vouched() <==> workerPID != haproxy.w.pid || BastionAgrees(sub, ind))
      ensures Faults() >= old(Faults()) && (ok <==> Faults() == old(Faults()))
    {
      var r;
      ok, r, sub, ind := BastionSyncMaps(wantedSubdomains, wantedIndividual);
    }

    /** One event and its answer. */
    method Handle(e: Event) returns (r: Reply)
      requires Valid()
      modifies this, haproxy
      ensures Valid() && Answers(e, r)
      ensures (Keeps(site, r) && old(Vouched())) || Mends(r) ==> Vouched()
      ensures r.CheckReply? ==> (r.restored <==> workerPID != old(workerPID))
      ensures !IsSync(e) ==>
        subdomains == old(subdomains) && individualDomains == old(individualDomains) && domains == old(domains)
      ensures Faults() >= old(Faults())
      ensures Faults() == old(Faults()) ==> Keeps(site, r)
      ensures Faults() == old(Faults()) && NonBase(site, domains) == domains && r.RestoreReply? ==> Mends(r)
      ensures Onward(old(haproxy.used), old(haproxy.w), haproxy.used, haproxy.w)
      ensures (e.Passes? || e.Checked?) && haproxy.w.pid == old(workerPID) ==>
        haproxy.w == old(haproxy.w) && workerPID == old(workerPID)
    {
      match e
      case Passes =>
        Wait(site, haproxy);
        r := Waited;
      case Checked =>
        var ok, restored := Check();
        r := CheckReply(ok, restored);
      case Asked =>
        var ok := Restore();
        r := RestoreReply(ok);
      case SyncDomains(reqs) =>
        var out, _ := HandleDomains(reqs);
        r := DomainsReply(out);
      case SyncBastion(subs, inds) =>
        var ok, _, _ := HandleBastion(subs, inds);
        r := BastionReply(ok);
    }

    /**
      Any run, with any failures, and reloads between any two commands. What is routed is served throughout unless a
      reload tore the adding of a domain apart, which `Valid` says exactly; the answers show when the recorded process
      id vouches for the worker, and if nothing fails they do; without requested syncs nothing remembered is ever
      lost; and checks alone never tell that a worker still there is out of step.
    */
    method Supervise(events: seq<Event>, start: bool) returns (inStep: bool, ghost replies: seq<Reply>)
      requires Valid() && (start ==> Vouched())
      modifies this, haproxy
      ensures Valid() && (inStep ==> Vouched())
      ensures |replies| == |events| && forall i | 0 <= i < |events| :: Answers(events[i], replies[i])
      ensures inStep == KnownInStep(site, start, replies)
      ensures start && Faults() == old(Faults()) ==> inStep
      ensures (forall e <- events :: !IsSync(e)) ==>
        && subdomains == old(subdomains) && individualDomains == old(individualDomains) && domains == old(domains)
        && (start ==> inStep)
      ensures (forall e <- events :: e.Passes? || e.Checked?) && haproxy.w.pid == old(workerPID) ==>
        haproxy.w == old(haproxy.w) && workerPID == old(workerPID) && (Vouched() <==> old(Vouched()))
    {
      inStep, replies := start, [];
      for i := 0 to |events|
        invariant Valid() && (inStep ==> Vouched())
        invariant |replies| == i && forall k | 0 <= k < i :: Answers(events[k], replies[k])
        invariant inStep == KnownInStep(site, start, replies)
        invariant Faults() >= old(Faults()) && (start && Faults() == old(Faults()) ==> inStep)
        invariant (forall e <- events :: !IsSync(e)) ==>
          && subdomains == old(subdomains) && individualDomains == old(individualDomains) && domains == old(domains)
          && (start ==> inStep)
        invariant Onward(old(haproxy.used), old(haproxy.w), haproxy.used, haproxy.w)
        invariant (forall e <- events :: e.Passes? || e.Checked?) && haproxy.w.pid == old(workerPID) ==>
          haproxy.w == old(haproxy.w) && workerPID == old(workerPID)
      {
        assert events[i] in events;
        ghost var u, w, before := haproxy.used, haproxy.w, replies;
        var r := Handle(events[i]);
        OnwardTwice(old(haproxy.used), old(haproxy.w), u, w, haproxy.used, haproxy.w);
        replies := replies + [r];
        assert replies[..i] == before;
        inStep := (inStep && Keeps(site, r)) || Mends(r);
      }
    }
  }

  /** A new service in front of a new worker is where a run may start. */
  method Boot(site: Site, pid: int) returns (s: HAproxySync)
    requires pid != 0
    ensures fresh(s) && s.site == site && s.Valid() && s.Vouched()
  {
    var h := new HAProxy(pid);
    LogSnoc(site, [], Reloaded(Started(pid)));
    assert [] + [Reloaded(Started(pid))] == h.log;
    s := new HAproxySync(site, h);
  }

  /**
    Worker and memory out of step, and no check will notice: a sync that removes a domain deletes its map entry, fails
    to take its certificate off the list and gives up. The domain is still remembered, no longer routed, and the worker
    is the one the recorded process id stands for.
  */
  lemma GivesUpUnnoticed(site: Site, pid: int, d: string)
    requires !IsBase(site, d)
    ensures var p := CertPath(site, d);
      var w0 := Worker(pid, {}, {}, {d}, map[p := Cert(Some(""), None)], {p});
      var w1 := Effect(w0, DelMap(Domains, d));
      && Covered(site, w0) && HoldsDomains(site, w0, {d})
      && Took(w0, DelMap(Domains, d), true, w1) && Took(w1, DelCrt(p), false, w1)
      && w1.pid == pid && Covered(site, w1) && !HoldsDomains(site, w1, {d})
  {
    var p := CertPath(site, d);
    var w0 := Worker(pid, {}, {}, {d}, map[p := Cert(Some(""), None)], {p});
    assert NonBase(site, w0.domains) == {d};
    assert d !in NonBase(site, Effect(w0, DelMap(Domains, d)).domains);
  }
}
