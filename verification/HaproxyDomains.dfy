/** Domain requests, what becomes of them in a sync, and what a worker then holds: the sets the service reasons with. */
module HaproxyDomains {
  import opened HaproxyWorker
  import opened HaproxyServing

  datatype Request = Request(name: string, certificate: string)

  /** The requests for other domains than the deployment's own, among the first `k`. */
  function Wanted(site: Site, reqs: seq<Request>, k: nat): seq<Request>
    requires k <= |reqs|
  {
    if k == 0 then []
    else if IsBase(site, reqs[k - 1].name) then Wanted(site, reqs, k - 1)
    else Wanted(site, reqs, k - 1) + [reqs[k - 1]]
  }

  function Refused(site: Site, reqs: seq<Request>, k: nat): seq<string>
    requires k <= |reqs|
  {
    if k == 0 then []
    else if IsBase(site, reqs[k - 1].name) then Refused(site, reqs, k - 1) + [reqs[k - 1].name]
    else Refused(site, reqs, k - 1)
  }

  function FirstNames(reqs: seq<Request>, k: nat): set<string>
    requires k <= |reqs|
  {
    if k == 0 then {} else FirstNames(reqs, k - 1) + {reqs[k - 1].name}
  }

  function Desired(site: Site, reqs: seq<Request>): set<string> {
    var wanted := Wanted(site, reqs, |reqs|);
    FirstNames(wanted, |wanted|)
  }

  lemma {:induction false} FirstNamesSnoc(reqs: seq<Request>, r: Request, k: nat)
    requires k <= |reqs|
    ensures FirstNames(reqs + [r], k) == FirstNames(reqs, k)
  {
    if k != 0 { FirstNamesSnoc(reqs, r, k - 1); }
  }

  /** Every requested name is either desired or refused. */
  lemma {:induction false} NamesSplit(site: Site, reqs: seq<Request>, k: nat)
    requires k <= |reqs|
    ensures var wanted := Wanted(site, reqs, k);
      && FirstNames(wanted, |wanted|) == NonBase(site, FirstNames(reqs, k))
      && (forall x <- Refused(site, reqs, k) :: IsBase(site, x) && x in FirstNames(reqs, k))
      && (forall x <- FirstNames(reqs, k) :: IsBase(site, x) ==> x in Refused(site, reqs, k))
  {
    if k != 0 {
      NamesSplit(site, reqs, k - 1);
      if !IsBase(site, reqs[k - 1].name) {
        var before := Wanted(site, reqs, k - 1);
        FirstNamesSnoc(before, reqs[k - 1], |before|);
      }
    }
  }

  lemma {:induction false} NoneRefused(site: Site, reqs: seq<Request>, k: nat)
    requires k <= |reqs| && forall x <- FirstNames(reqs, k) :: !IsBase(site, x)
    ensures Refused(site, reqs, k) == []
  {
    if k != 0 { NoneRefused(site, reqs, k - 1); }
  }

  lemma {:induction false} WantedGiven(site: Site, reqs: seq<Request>, k: nat)
    requires k <= |reqs|
    ensures NoneGiven(reqs) ==> NoneGiven(Wanted(site, reqs, k))
    ensures AllGiven(reqs) ==> AllGiven(Wanted(site, reqs, k))
  {
    if k != 0 { WantedGiven(site, reqs, k - 1); }
  }

  lemma {:induction false} FirstNamesMembers(reqs: seq<Request>, k: nat, d: string)
    requires k <= |reqs|
    ensures d in FirstNames(reqs, k) <==> exists i :: 0 <= i < k && reqs[i].name == d
  {
    if k != 0 { FirstNamesMembers(reqs, k - 1, d); }
  }

  /** What is desired is what was requested, less the deployment's own domain. */
  lemma DesiredMeaning(site: Site, reqs: seq<Request>, d: string)
    ensures d in Desired(site, reqs) <==> !IsBase(site, d) && exists i :: 0 <= i < |reqs| && reqs[i].name == d
  {
    NamesSplit(site, reqs, |reqs|);
    FirstNamesMembers(reqs, |reqs|, d);
  }

  predicate NoneGiven(reqs: seq<Request>) { forall i | 0 <= i < |reqs| :: reqs[i].certificate == "" }

  predicate AllGiven(reqs: seq<Request>) { forall i | 0 <= i < |reqs| :: reqs[i].certificate != "" }

  function NonBase(site: Site, ds: set<string>): set<string> { set d | d in ds && !IsBase(site, d) }

  /** Nothing routed that is neither desired nor still to be looked at, but for the deployment's own domain. */
  predicate Accounted(site: Site, routed: set<string>, desired: set<string>, todo: set<string>) {
    NonBase(site, routed) <= desired + todo
  }

  lemma AccountedStep(site: Site, routed: set<string>, routed': set<string>, desired: set<string>, todo: set<string>,
                      d: string)
    requires Accounted(site, routed, desired, todo) && routed' <= routed
    requires d !in desired ==> IsBase(site, d) || d !in routed'
    ensures Accounted(site, routed', desired, todo - {d})
  {
    forall x | x in NonBase(site, routed') ensures x in desired + (todo - {d}) {
      assert x in NonBase(site, routed);
    }
  }

  lemma AccountedLess(site: Site, routed: set<string>, routed': set<string>, desired: set<string>, todo: set<string>)
    requires Accounted(site, routed, desired, todo) && routed' <= routed
    ensures Accounted(site, routed', desired, todo)
  {
    assert NonBase(site, routed') <= NonBase(site, routed);
  }

  /** Where removing stands in the mirror: of `all`, `gone` went and `todo` is still to be looked at. */
  predicate Pruned(all: set<string>, todo: set<string>, desired: set<string>, gone: set<string>, mirror: set<string>) {
    todo <= all && gone == (all - todo) - desired && mirror == all - gone
  }

  lemma PrunedStep(all: set<string>, todo: set<string>, desired: set<string>, gone: set<string>, mirror: set<string>,
                   d: string)
    requires Pruned(all, todo, desired, gone, mirror) && d in todo
    ensures d in desired ==> Pruned(all, todo - {d}, desired, gone, mirror)
    ensures d !in desired ==>
      && Pruned(all, todo - {d}, desired, gone + {d}, mirror - {d})
      && d !in gone && d in mirror && |gone + {d}| == |gone| + 1
  {}

  lemma PrunedEnd(all: set<string>, desired: set<string>, gone: set<string>, mirror: set<string>)
    requires Pruned(all, {}, desired, gone, mirror)
    ensures mirror == all * desired && gone == all - desired
  {}

  lemma PrunedBounds(all: set<string>, todo: set<string>, desired: set<string>, gone: set<string>, mirror: set<string>)
    requires Pruned(all, todo, desired, gone, mirror)
    ensures all * desired <= mirror <= all
  {}

  /**
    Where removing stands in the worker: nothing desired went, nothing came, and what is remembered is still routed.
  */
  predicate Pruning(site: Site, w: Worker, now: Worker, all: set<string>, mirror: set<string>, desired: set<string>,
                    todo: set<string>) {
    && now.domains <= w.domains && (now.pid == w.pid ==> w.domains * desired <= now.domains)
    && Accounted(site, now.domains, desired, todo)
    && (now.pid == w.pid && all <= w.domains ==> NonBase(site, mirror) <= now.domains)
  }

  lemma PruningStart(site: Site, w: Worker, all: set<string>, desired: set<string>)
    requires w.domains <= all + desired
    ensures Pruning(site, w, w, all, all, desired, all) && Pruned(all, all, desired, {}, all)
  {}

  lemma PruningKept(site: Site, w: Worker, now: Worker, all: set<string>, mirror: set<string>, desired: set<string>,
                    todo: set<string>, d: string)
    requires Pruning(site, w, now, all, mirror, desired, todo) && d in desired
    ensures Pruning(site, w, now, all, mirror, desired, todo - {d})
  {
    AccountedStep(site, now.domains, now.domains, desired, todo, d);
  }

  lemma PruningGone(site: Site, w: Worker, now: Worker, now': Worker, all: set<string>, mirror: set<string>,
                    desired: set<string>, todo: set<string>, d: string)
    requires Pruning(site, w, now, all, mirror, desired, todo) && d !in desired
    requires now'.domains <= now.domains && (IsBase(site, d) || d !in now'.domains)
    requires now'.pid == w.pid ==> now.pid == w.pid && now.domains - {d} <= now'.domains
    ensures Pruning(site, w, now', all, mirror - {d}, desired, todo - {d})
  {
    AccountedStep(site, now.domains, now'.domains, desired, todo, d);
    forall x | x in NonBase(site, mirror - {d}) ensures x in NonBase(site, mirror) - {d} {}
  }

  /**
    Where adding stands after the requests for `first`: each name is mirrored or failed, and what is mirrored is routed
    as long as the worker is the `same`.
  */
  predicate Progress(before: set<string>, mirror: set<string>, routed: set<string>, first: set<string>,
                     failed: seq<string>, same: bool) {
    && before <= mirror <= before + first && routed <= before + first && (same ==> mirror <= routed)
    && (forall x <- first :: x in mirror || x in failed)
    && (forall x <- failed :: x in first && x !in before)
  }

  lemma ProgressFailed(before: set<string>, mirror: set<string>, routed: set<string>, routed': set<string>,
                       first: set<string>, failed: seq<string>, same: bool, same': bool, d: string)
    requires Progress(before, mirror, routed, first, failed, same) && d !in mirror
    requires routed' <= routed + {d} && (same' ==> same && routed <= routed')
    ensures Progress(before, mirror, routed', first + {d}, failed + [d], same')
  {}

  lemma ProgressAdded(before: set<string>, mirror: set<string>, routed: set<string>, routed': set<string>,
                      first: set<string>, failed: seq<string>, same: bool, same': bool, d: string)
    requires Progress(before, mirror, routed, first, failed, same) && d !in mirror
    requires routed' <= routed + {d} && (same' ==> same && routed <= routed' && d in routed')
    ensures Progress(before, mirror + {d}, routed', first + {d}, failed, same')
    ensures |mirror + {d} - before| == |mirror - before| + 1
  {
    assert mirror + {d} - before == (mirror - before) + {d};
  }

  lemma ProgressSkipped(before: set<string>, mirror: set<string>, routed: set<string>, first: set<string>,
                        failed: seq<string>, same: bool, d: string)
    requires Progress(before, mirror, routed, first, failed, same) && d in mirror
    ensures Progress(before, mirror, routed, first + {d}, failed, same)
  {}

  lemma NonBaseInsert(site: Site, ds: set<string>, d: string)
    requires d !in ds
    ensures |NonBase(site, ds + {d})| == |NonBase(site, ds)| + if IsBase(site, d) then 0 else 1
  {
    assert NonBase(site, ds + {d}) == NonBase(site, ds) + if IsBase(site, d) then {} else {d};
  }

  datatype DomainSyncResult = DomainSyncResult(
    added: nat, removed: nat, issued: nat, certsRemoved: nat, failed: seq<string>)

  /** Nobody of the given names is still routed, but for the deployment's own. */
  lemma AccountedGone(site: Site, routed: set<string>, all: set<string>, todo: set<string>, desired: set<string>,
                      gone: set<string>, mirror: set<string>)
    requires Accounted(site, routed, desired, todo) && Pruned(all, todo, desired, gone, mirror)
    ensures NonBase(site, routed) * (all - mirror) == {}
  {
    assert forall x <- NonBase(site, routed) :: x in desired + todo;
  }

  /** How a sync of the domains ends: to the end, before anything, or at a domain that could not be removed. */
  datatype Outcome = Done(r: DomainSyncResult) | Unlisted | Stopped(at: string)

  /** What a sync that went through remembers, and whom it reports as failed. */
  predicate Remembers(desired: set<string>, refused: seq<string>, mirror: set<string>, failed: seq<string>) {
    && mirror <= desired
    && (forall x <- desired :: x in mirror || x in failed)
    && (forall x <- refused :: x in failed)
    && (forall x <- failed :: x in refused || x in desired)
  }

  /**
    With the same worker throughout: what was routed and is desired stayed, only what was not there could fail, and
    the counts.
  */
  predicate Reports(site: Site, reqs: seq<Request>, before: set<string>, mirror: set<string>, r: DomainSyncResult) {
    var desired := Desired(site, reqs);
    && before * desired <= mirror
    && (forall x <- r.failed :: x in Refused(site, reqs, |reqs|) || x !in before)
    && r.added == |mirror - before|
    && r.removed == |before - desired|
    && r.certsRemoved == |NonBase(site, before - desired)|
    && r.issued <= r.added
    && (NoneGiven(reqs) ==> r.issued == r.added)
    && (AllGiven(reqs) ==> r.issued == 0)
  }

  /** With nothing failed, the request was met in full: what is remembered is what was requested. */
  lemma NothingFailed(site: Site, reqs: seq<Request>, mirror: set<string>, failed: seq<string>)
    requires Remembers(Desired(site, reqs), Refused(site, reqs, |reqs|), mirror, failed) && failed == []
    ensures mirror == Desired(site, reqs) == FirstNames(reqs, |reqs|)
  {
    NamesSplit(site, reqs, |reqs|);
    var names := FirstNames(reqs, |reqs|);
    assert forall x <- names :: !IsBase(site, x);
    assert NonBase(site, names) == names;
  }

  /** The worker routes exactly what is remembered if and only if no name reported as failed is routed all the same. */
  lemma InStepIff(site: Site, routed: set<string>, desired: set<string>, mirror: set<string>, failed: seq<string>)
    requires mirror <= routed && mirror <= desired && NonBase(site, routed) <= desired
    requires (forall x <- desired :: !IsBase(site, x)) && (forall x <- desired :: x in mirror || x in failed)
    ensures NonBase(site, routed) == mirror <==> forall x <- failed :: IsBase(site, x) || x in mirror || x !in routed
  {
    assert mirror <= NonBase(site, routed);
    if x :| x in failed && !IsBase(site, x) && x !in mirror && x in routed { assert x in NonBase(site, routed); }
    if x :| x in NonBase(site, routed) && x !in mirror { assert x in failed; }
  }

  /**
    Removal gave up at `at`, a remembered name: the worker routes exactly what is remembered if and only if `at` still
    has its entry, the deployment's own domain is not remembered, and no name that failed is routed all the same.
  */
  lemma StoppedIff(site: Site, routed: set<string>, all: set<string>, mirror: set<string>, first: set<string>,
                   failed: seq<string>, at: string)
    requires routed <= all + first && (forall x <- first :: x in all || x in failed)
    requires mirror <= all && at in mirror && !IsBase(site, at)
    requires NonBase(site, mirror) - {at} <= routed && NonBase(site, routed) * (all - mirror) == {}
    ensures NonBase(site, routed) == mirror <==>
      && at in routed && NonBase(site, mirror) == mirror
      && forall x <- failed :: IsBase(site, x) || x in mirror || x !in routed
  {
    if at in routed && NonBase(site, mirror) == mirror
       && forall x <- failed :: IsBase(site, x) || x in mirror || x !in routed {
      forall x | x in NonBase(site, routed) ensures x in mirror {
        assert x !in NonBase(site, routed) * (all - mirror);
      }
      forall x | x in mirror ensures x in NonBase(site, routed) { assert x in NonBase(site, mirror); }
    }
    if NonBase(site, routed) == mirror {
      forall x | x in failed && !IsBase(site, x) && x in routed ensures x in mirror {
        assert x in NonBase(site, routed);
      }
    }
  }

  lemma SyncedSets(before: set<string>, mirror: set<string>, desired: set<string>)
    requires before <= mirror <= before + desired
    ensures mirror - desired == before - desired
    ensures (mirror * desired) - before == mirror - before
    ensures before * desired <= mirror * desired
  {}

  predicate HoldsDomains(site: Site, w: Worker, domains: set<string>) {
    domains != {} ==> NonBase(site, w.domains) == domains
  }

  /** Syncing neither unroutes a desired domain nor routes another, so it keeps what is held. */
  lemma HoldingKept(site: Site, w: Worker, w': Worker, domains: set<string>, reqs: seq<Request>)
    requires HoldsDomains(site, w, domains) && domains != {} && FirstNames(reqs, |reqs|) == domains
    requires w.domains * Desired(site, reqs) <= w'.domains <= w.domains + Desired(site, reqs)
    ensures HoldsDomains(site, w', domains)
  {
    NamesSplit(site, reqs, |reqs|);
    assert Desired(site, reqs) == NonBase(site, domains) == domains;
    forall d | d in domains ensures d in NonBase(site, w'.domains) { assert d in NonBase(site, w.domains); }
    forall d | d in NonBase(site, w'.domains) ensures d in domains {
      if d in w.domains { assert d in NonBase(site, w.domains); }
    }
  }
}
