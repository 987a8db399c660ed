/** Which certificate serves which domain, and the states in which every routed domain is served. */
module HaproxyServing {
  import opened Common
  import opened HaproxyWorker

  datatype Site = Site(certsDir: string, baseDomain: string)

  function LowerChar(c: char): char { if 'A' <= c <= 'Z' then c + ('a' - 'A') else c }

  /** Equality of names up to the case of ASCII letters. */
  predicate EqualFold(a: string, b: string) {
    |a| == |b| && forall i | 0 <= i < |a| :: LowerChar(a[i]) == LowerChar(b[i])
  }

  predicate IsBase(site: Site, d: string) { site.baseDomain != "" && EqualFold(d, site.baseDomain) }

  function CertPath(site: Site, d: string): string { site.certsDir + "/" + (d + ".pem") }

  lemma CertPathInjective(site: Site, a: string, b: string)
    ensures CertPath(site, a) == CertPath(site, b) <==> a == b
  {
    var dir := site.certsDir + "/";
    assert (dir + (a + ".pem"))[|dir|..] == a + ".pem";
    assert (dir + (b + ".pem"))[|dir|..] == b + ".pem";
    assert (a + ".pem")[..|a|] == a && (b + ".pem")[..|b|] == b;
  }

  /** Every domain the worker routes, other than the deployment's own, has a committed and listed certificate. */
  predicate Covered(site: Site, w: Worker) {
    forall d <- w.domains :: IsBase(site, d) || Serves(w, CertPath(site, d))
  }

  /** Covered after each entry of the log. */
  predicate AllCovered(site: Site, log: seq<Entry>) {
    log == [] || (Covered(site, log[|log| - 1].w) && AllCovered(site, log[..|log| - 1]))
  }

  /** A domain was routed on a worker that started after the command before, the one that listed its certificate. */
  predicate TornAt(site: Site, log: seq<Entry>, i: nat)
    requires i < |log|
  {
    && 0 < i && log[i - 1].Reloaded? && log[i].Did? && log[i].c.AddMap? && log[i].c.name.Domains?
    && log[i].c.key in log[i].w.domains && !IsBase(site, log[i].c.key)
  }

  predicate Torn(site: Site, log: seq<Entry>) {
    log != [] && (TornAt(site, log, |log| - 1) || Torn(site, log[..|log| - 1]))
  }

  /** The domain whose adding was torn apart by the start of the worker there is now, if that happened. */
  function TornNow(site: Site, log: seq<Entry>): Option<string> {
    if log == [] || log[|log| - 1].Reloaded? then None
    else if TornAt(site, log, |log| - 1) then Some(log[|log| - 1].c.key)
    else TornNow(site, log[..|log| - 1])
  }

  /** Every domain the worker routes is served, but for the deployment's own and, at most, one more. */
  predicate CoveredBut(site: Site, w: Worker, torn: Option<string>) {
    forall d <- w.domains :: IsBase(site, d) || Serves(w, CertPath(site, d)) || torn == Some(d)
  }

  /** After each entry of the log, the torn domain of the worker at that time was all that was routed and not served. */
  predicate Served(site: Site, log: seq<Entry>) {
    log == [] ||
    (&& CoveredBut(site, log[|log| - 1].w, TornNow(site, log))
     && (TornAt(site, log, |log| - 1) ==> !Covered(site, log[|log| - 1].w))
     && Served(site, log[..|log| - 1]))
  }

  /**
    Every routed domain has been served after every command so far, if and only if no reload fell between the
    listing of a domain's certificate and its routing.
  */
  lemma {:induction false} ServedUnlessTorn(site: Site, log: seq<Entry>)
    requires Served(site, log)
    ensures AllCovered(site, log) <==> !Torn(site, log)
    ensures !Torn(site, log) ==> TornNow(site, log) == None
  {
    if log != [] { ServedUnlessTorn(site, log[..|log| - 1]); }
  }

  ghost predicate Safe(site: Site, h: HAProxy)
    reads h
  {
    && h.w.pid in h.used
    && h.log != [] && h.log[|h.log| - 1].w == h.w && (h.log[|h.log| - 1].Reloaded? ==> h.w == Started(h.w.pid))
    && Served(site, h.log)
  }

  lemma LogSnoc(site: Site, log: seq<Entry>, e: Entry)
    ensures var log' := log + [e];
      && TornNow(site, log') == (if e.Reloaded? then None else if TornAt(site, log', |log|) then Some(e.c.key)
                                 else TornNow(site, log))
      && (Served(site, log') <==> Served(site, log) && CoveredBut(site, e.w, TornNow(site, log'))
                                  && (TornAt(site, log', |log|) ==> !Covered(site, e.w)))
  {
    assert (log + [e])[..|log|] == log;
  }

  /** Commands that take no certificate away from a routed domain, nor route one without. */
  predicate Harmless(site: Site, w: Worker, c: Cmd) {
    match c
    case AddMap(m, d) => m.Domains? ==> IsBase(site, d) || Serves(w, CertPath(site, d))
    case DelCrt(p) => forall d <- w.domains :: p == CertPath(site, d) ==> IsBase(site, d)
    case DelCert(p) => forall d <- w.domains :: p == CertPath(site, d) ==> IsBase(site, d)
    case _ => true
  }

  lemma HarmlessKeepsCovered(site: Site, w: Worker, c: Cmd, torn: Option<string>)
    requires CoveredBut(site, w, torn) && Accepts(w, c) && Harmless(site, w, c)
    ensures CoveredBut(site, Effect(w, c), torn)
  {
    var w' := Effect(w, c);
    forall d | d in w'.domains && !IsBase(site, d) && torn != Some(d) ensures Serves(w', CertPath(site, d)) {
      assert Serves(w, CertPath(site, d));
    }
  }

  /** On a worker that has just started every command is harmless, except routing a domain. */
  lemma StartedIsHarmless(site: Site, pid: int, c: Cmd)
    ensures Covered(site, Started(pid))
    ensures Harmless(site, Started(pid), c) <==> !(c.AddMap? && c.name.Domains? && !IsBase(site, c.key))
    ensures Accepts(Started(pid), c) ==> (Covered(site, Effect(Started(pid), c)) <==> Harmless(site, Started(pid), c))
  {
    if Harmless(site, Started(pid), c) {
      if Accepts(Started(pid), c) { HarmlessKeepsCovered(site, Started(pid), c, None); }
    } else {
      assert c.key in Effect(Started(pid), c).domains;
    }
  }

  lemma StartedKeepsServed(site: Site, log: seq<Entry>, pid: int)
    requires Served(site, log)
    ensures Served(site, log + [Reloaded(Started(pid))])
  {
    LogSnoc(site, log, Reloaded(Started(pid)));
  }

  lemma HarmlessKeepsServed(site: Site, log: seq<Entry>, w: Worker, c: Cmd, ok: bool, w': Worker)
    requires log != [] && log[|log| - 1].w == w && (log[|log| - 1].Reloaded? ==> w == Started(w.pid))
    requires Served(site, log) && Harmless(site, w, c) && Took(w, c, ok, w')
    ensures Served(site, log + [Did(c, w')])
  {
    LogSnoc(site, log, Did(c, w'));
    if Accepts(w, c) { HarmlessKeepsCovered(site, w, c, TornNow(site, log)); }
  }

  /** A command right after a reload: the only harm it can do is to route a domain, and that is what tearing means. */
  lemma FirstKeepsServed(site: Site, log: seq<Entry>, pid: int, c: Cmd, ok: bool, w': Worker)
    requires log != [] && log[|log| - 1] == Reloaded(Started(pid)) && Served(site, log)
    requires Took(Started(pid), c, ok, w')
    ensures Served(site, log + [Did(c, w')])
  {
    LogSnoc(site, log, Did(c, w'));
    StartedIsHarmless(site, pid, c);
    if Accepts(Started(pid), c) && Harmless(site, Started(pid), c) {
      HarmlessKeepsCovered(site, Started(pid), c, None);
    }
  }

  /** A command that is safe whatever becomes of it and whichever worker it reaches. */
  method SafeExec(ghost site: Site, h: HAProxy, c: Cmd) returns (ok: bool)
    requires Safe(site, h) && Harmless(site, h.w, c)
    modifies h
    ensures Safe(site, h)
    ensures Onward(old(h.used), old(h.w), h.used, h.w) && Took(Reached(old(h.w), h.w.pid), c, ok, h.w)
    ensures CoveredBut(site, h.w, TornNow(site, h.log))
    ensures h.commands == old(h.commands) + if c.AddMap? || c.DelMap? then 1 else 0
    ensures h.failures == old(h.failures) + if ok then 0 else 1
  {
    ok := h.Exec(c);
    ghost var log := old(h.log);
    if h.w.pid == old(h.w.pid) {
      HarmlessKeepsServed(site, log, old(h.w), c, ok, h.w);
      assert log + [] + [Did(c, h.w)] == log + [Did(c, h.w)];
    } else {
      StartedKeepsServed(site, log, h.w.pid);
      FirstKeepsServed(site, log + [Reloaded(Started(h.w.pid))], h.w.pid, c, ok, h.w);
    }
  }

  /** Reading a map is safe too; what it reads is the worker it reached. */
  method SafeShowMap(ghost site: Site, h: HAProxy, m: MapName) returns (ok: bool, keys: set<string>)
    requires Safe(site, h)
    modifies h
    ensures Safe(site, h) && h.commands == old(h.commands)
    ensures Onward(old(h.used), old(h.w), h.used, h.w) && h.w == Reached(old(h.w), h.w.pid)
    ensures keys == if ok then Entries(h.w, m) else {}
    ensures h.failures == old(h.failures) + if ok then 0 else 1
  {
    ok, keys := h.ShowMap(m);
    StartedKeepsServed(site, old(h.log), h.w.pid);
    assert old(h.log) + [] == old(h.log);
  }

  method SafeShowPID(ghost site: Site, h: HAProxy) returns (ok: bool, pid: int)
    requires Safe(site, h)
    modifies h
    ensures Safe(site, h) && h.commands == old(h.commands)
    ensures Onward(old(h.used), old(h.w), h.used, h.w) && h.w == Reached(old(h.w), h.w.pid)
    ensures ok ==> pid == h.w.pid
    ensures h.failures == old(h.failures) + if ok then 0 else 1
  {
    ok, pid := h.ShowPID();
    StartedKeepsServed(site, old(h.log), h.w.pid);
    assert old(h.log) + [] == old(h.log);
  }

  /** Time passes, and with it perhaps a reload. */
  method Wait(ghost site: Site, h: HAProxy)
    requires Safe(site, h)
    modifies h
    ensures Safe(site, h) && h.commands == old(h.commands) && h.failures == old(h.failures)
    ensures Onward(old(h.used), old(h.w), h.used, h.w) && h.w == Reached(old(h.w), h.w.pid)
  {
    h.Interrupt();
    StartedKeepsServed(site, old(h.log), h.w.pid);
  }

  /** The steps of adding one domain, with a reload before the last: the domain is routed and not served. */
  lemma ReloadBeforeRouting(site: Site, d: string, pem: string, before: int, after: int)
    requires !IsBase(site, d)
    ensures var p := CertPath(site, d);
      var w1 := Effect(Started(before), NewCert(p));
      var w2 := Effect(w1, SetCert(p, pem));
      var w3 := Effect(w2, CommitCert(p));
      var w4 := Effect(w3, AddCrt(p));
      var w5 := Effect(Started(after), AddMap(Domains, d));
      && Accepts(w1, SetCert(p, pem)) && Accepts(w2, CommitCert(p)) && Accepts(w3, AddCrt(p)) && Serves(w4, p)
      && Covered(site, w1) && Covered(site, w2) && Covered(site, w3) && Covered(site, w4)
      && Covered(site, Started(after)) && !Covered(site, w5)
  {
    StartedIsHarmless(site, after, AddMap(Domains, d));
  }
}
