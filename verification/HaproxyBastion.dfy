/** Synchronising the bastion's two maps with a requested state. */
module HaproxyBastion {
  import opened HaproxyWorker
  import opened HaproxyServing

  function Prefix(m: MapName, d: string): string { if m.Subdomains? then "." + d else d }

  function RemovePrefix(m: MapName, k: string): string {
    if m.Subdomains? && k != "" && k[0] == '.' then k[1..] else k
  }

  lemma PrefixInverse(m: MapName, d: string)
    ensures RemovePrefix(m, Prefix(m, d)) == d
  {}

  /** A key the service itself would write. */
  predicate Own(m: MapName, k: string) { Prefix(m, RemovePrefix(m, k)) == k }

  predicate Prefixed(m: MapName, keys: set<string>) { forall k <- keys :: Own(m, k) }

  function Keys(m: MapName, ds: set<string>): set<string> { set d | d in ds :: Prefix(m, d) }

  function Names(m: MapName, keys: set<string>): set<string> { set k | k in keys :: RemovePrefix(m, k) }

  /** The first `k` of a request, without duplicates. */
  function Firsts(xs: seq<string>, k: nat): set<string>
    requires k <= |xs|
  {
    if k == 0 then {} else Firsts(xs, k - 1) + {xs[k - 1]}
  }

  function SetOf(xs: seq<string>): set<string> { Firsts(xs, |xs|) }

  lemma {:induction false} FirstsMembers(xs: seq<string>, k: nat, x: string)
    requires k <= |xs|
    ensures x in Firsts(xs, k) <==> x in xs[..k]
  {
    if k != 0 {
      FirstsMembers(xs, k - 1, x);
      assert xs[..k] == xs[..k - 1] + [xs[k - 1]];
    }
  }

  lemma SetOfMembers(xs: seq<string>, x: string)
    ensures x in SetOf(xs) <==> x in xs
  {
    FirstsMembers(xs, |xs|, x);
    assert xs[..|xs|] == xs;
  }

  lemma NamesOfKeys(m: MapName, ds: set<string>)
    ensures Names(m, Keys(m, ds)) == ds && Prefixed(m, Keys(m, ds))
  {
    forall d | d in ds ensures d in Names(m, Keys(m, ds)) {
      PrefixInverse(m, d);
      assert Prefix(m, d) in Keys(m, ds);
    }
    forall k | k in Keys(m, ds) ensures Prefix(m, RemovePrefix(m, k)) == k && RemovePrefix(m, k) in ds {
      var d :| d in ds && k == Prefix(m, d);
      PrefixInverse(m, d);
    }
  }

  lemma KeysOfNames(m: MapName, keys: set<string>)
    ensures Prefixed(m, keys) <==> Keys(m, Names(m, keys)) == keys
  {
    if Prefixed(m, keys) {
      forall k | k in keys ensures k in Keys(m, Names(m, keys)) { assert RemovePrefix(m, k) in Names(m, keys); }
      forall k | k in Keys(m, Names(m, keys)) ensures k in keys {
        var d :| d in Names(m, keys) && k == Prefix(m, d);
        var j :| j in keys && d == RemovePrefix(m, j);
      }
    } else {
      var k :| k in keys && Prefix(m, RemovePrefix(m, k)) != k;
      if Keys(m, Names(m, keys)) == keys { NamesOfKeys(m, Names(m, keys)); }
    }
  }

  lemma KeyIn(m: MapName, ds: set<string>, k: string)
    ensures k in Keys(m, ds) <==> Own(m, k) && RemovePrefix(m, k) in ds
  {
    if k in Keys(m, ds) {
      var d :| d in ds && k == Prefix(m, d);
      PrefixInverse(m, d);
    }
  }

  /** What a full sync leaves in a map: exactly the request if and only if every key was the service's own. */
  lemma SyncedIffPrefixed(m: MapName, before: set<string>, wanted: set<string>)
    ensures before + Keys(m, wanted - Names(m, before)) - Keys(m, Names(m, before) - wanted) == Keys(m, wanted)
      <==> Prefixed(m, before)
  {
    var names := Names(m, before);
    var after := before + Keys(m, wanted - names) - Keys(m, names - wanted);
    forall k: string
      ensures k in Keys(m, wanted - names) <==> Own(m, k) && RemovePrefix(m, k) in wanted - names
      ensures k in Keys(m, names - wanted) <==> Own(m, k) && RemovePrefix(m, k) in names - wanted
      ensures k in Keys(m, wanted) <==> Own(m, k) && RemovePrefix(m, k) in wanted
      ensures Prefixed(m, before) ==> (k in before <==> Own(m, k) && RemovePrefix(m, k) in names)
    {
      KeyIn(m, wanted - names, k);
      KeyIn(m, names - wanted, k);
      KeyIn(m, wanted, k);
      KeyIn(m, names, k);
      KeysOfNames(m, before);
    }
    if k :| k in before && Prefix(m, RemovePrefix(m, k)) != k { assert k in after && k !in Keys(m, wanted); }
  }

  /** A key without the dot is never deleted: the service deletes the dotted key instead, which is not there. */
  lemma StrayKeyStays()
    ensures var before: set<string>, wanted: set<string> := {"a"}, {};
      var names := Names(Subdomains, before);
      before + Keys(Subdomains, wanted - names) - Keys(Subdomains, names - wanted) != Keys(Subdomains, wanted)
  {
    assert "a"[0] == 'a';
    assert RemovePrefix(Subdomains, "a") == "a" && Prefix(Subdomains, "a") != "a";
    assert !Prefixed(Subdomains, {"a"});
    SyncedIffPrefixed(Subdomains, {"a"}, {});
  }

  /** The same worker but for one map. */
  predicate OnlyMapChanged(w: Worker, w': Worker, m: MapName) { w' == WithEntries(w, m, Entries(w', m)) }

  lemma KeysInsert(m: MapName, ds: set<string>, d: string)
    ensures Keys(m, ds + {d}) == Keys(m, ds) + {Prefix(m, d)}
  {}

  lemma OnlyMapTwice(a: Worker, b: Worker, c: Worker, m: MapName)
    requires OnlyMapChanged(a, b, m) && OnlyMapChanged(b, c, m)
    ensures OnlyMapChanged(a, c, m)
  {}

  lemma KeysPlus(m: MapName, was: set<string>, extra: set<string>, d: string)
    ensures was + Keys(m, extra) + {Prefix(m, d)} == was + Keys(m, extra + {d})
  {
    KeysInsert(m, extra, d);
  }

  lemma KeysMinus(m: MapName, was: set<string>, gone: set<string>, d: string)
    ensures was - Keys(m, gone) - {Prefix(m, d)} == was - Keys(m, gone + {d})
  {
    KeysInsert(m, gone, d);
  }

  /** Onward to a worker that, but for one map, is the same, or is as it started. */
  predicate OnlyMap(m: MapName, used: set<int>, w: Worker, used': set<int>, w': Worker) {
    Onward(used, w, used', w') && OnlyMapChanged(Reached(w, w'.pid), w', m)
  }

  lemma OnlyMapAgain(m: MapName, u0: set<int>, w0: Worker, u1: set<int>, w1: Worker, u2: set<int>, w2: Worker)
    requires w0.pid in u0 && OnlyMap(m, u0, w0, u1, w1) && OnlyMap(m, u1, w1, u2, w2)
    ensures OnlyMap(m, u0, w0, u2, w2) && (w2.pid == w0.pid ==> w1.pid == w0.pid)
  {
    OnwardTwice(u0, w0, u1, w1, u2, w2);
    if w2.pid == w1.pid { OnlyMapTwice(Reached(w0, w1.pid), w1, w2, m); }
  }

  /** One map of a worker with some names added to it, or taken from it, and nothing else changed. */
  predicate Grown(m: MapName, w: Worker, w': Worker, extra: set<string>) {
    OnlyMapChanged(w, w', m) && Entries(w', m) == Entries(w, m) + Keys(m, extra)
  }

  predicate Shrunk(m: MapName, w: Worker, w': Worker, gone: set<string>) {
    OnlyMapChanged(w, w', m) && Entries(w', m) == Entries(w, m) - Keys(m, gone)
  }

  lemma GrownNone(m: MapName, w: Worker)
    ensures Grown(m, w, w, {}) && Shrunk(m, w, w, {})
  {
    assert Keys(m, {}) == {};
  }

  lemma GrownMore(m: MapName, w: Worker, w1: Worker, w2: Worker, extra: set<string>, d: string)
    requires Grown(m, w, w1, extra) && OnlyMapChanged(w1, w2, m) && Entries(w2, m) == Entries(w1, m) + {Prefix(m, d)}
    ensures Grown(m, w, w2, extra + {d})
  {
    OnlyMapTwice(w, w1, w2, m);
    KeysPlus(m, Entries(w, m), extra, d);
  }

  lemma ShrunkMore(m: MapName, w: Worker, w1: Worker, w2: Worker, gone: set<string>, d: string)
    requires Shrunk(m, w, w1, gone) && OnlyMapChanged(w1, w2, m) && Entries(w2, m) == Entries(w1, m) - {Prefix(m, d)}
    ensures Shrunk(m, w, w2, gone + {d})
  {
    OnlyMapTwice(w, w1, w2, m);
    KeysMinus(m, Entries(w, m), gone, d);
  }

  lemma TookMap(m: MapName, w: Worker, c: Cmd, ok: bool, w': Worker)
    requires (c.AddMap? || c.DelMap?) && c.name == m && Took(w, c, ok, w')
    ensures OnlyMapChanged(w, w', m)
    ensures Entries(w', m) == (if c.AddMap? then Entries(w, m) + {c.key} else Entries(w, m) - {c.key})
            || (!ok && Entries(w', m) == Entries(w, m))
  {}

  lemma TookPrefixed(m: MapName, d: string, w: Worker, c: Cmd, ok: bool, w': Worker)
    requires (c.AddMap? || c.DelMap?) && c.name == m && c.key == Prefix(m, d) && Took(w, c, ok, w')
    requires Prefixed(m, Entries(w, m))
    ensures Prefixed(m, Entries(w', m))
  {
    PrefixInverse(m, d);
  }

  /** The map holds exactly what is remembered of it. */
  predicate InStep(m: MapName, w: Worker, mirror: set<string>) { Entries(w, m) == Keys(m, mirror) }

  lemma KeyFound(m: MapName, ds: set<string>, d: string)
    ensures Prefix(m, d) in Keys(m, ds) <==> d in ds
  {
    KeyIn(m, ds, Prefix(m, d));
    PrefixInverse(m, d);
  }

  /** A failed command leaves map and memory in step if and only if it has not taken effect all the same. */
  lemma FailedInStep(m: MapName, w: Worker, w': Worker, mirror: set<string>, d: string, add: bool)
    requires InStep(m, w, mirror) && (d in mirror <==> !add)
    requires Entries(w', m) == Entries(w, m) || Entries(w', m) == Changed(m, w, d, add)
    ensures InStep(m, w', mirror) <==> (Prefix(m, d) in Entries(w', m) <==> !add)
  {
    KeyFound(m, mirror, d);
  }

  /** The map with one name more, or one less. */
  function Changed(m: MapName, w: Worker, d: string, add: bool): set<string> {
    if add then Entries(w, m) + {Prefix(m, d)} else Entries(w, m) - {Prefix(m, d)}
  }

  lemma GrownInStep(m: MapName, w: Worker, w': Worker, current: set<string>, extra: set<string>)
    requires Grown(m, w, w', extra) && InStep(m, w, current)
    ensures InStep(m, w', current + extra)
  {
    assert Keys(m, current + extra) == Keys(m, current) + Keys(m, extra);
  }

  lemma ShrunkInStep(m: MapName, w: Worker, w': Worker, current: set<string>, gone: set<string>)
    requires Shrunk(m, w, w', gone) && InStep(m, w, current)
    ensures InStep(m, w', current - gone)
  {
    forall k: string ensures k in Keys(m, current - gone) <==> k in Keys(m, current) - Keys(m, gone) {
      KeyIn(m, current - gone, k);
      KeyIn(m, current, k);
      KeyIn(m, gone, k);
    }
  }

  lemma AddFailed(m: MapName, w0: Worker, w: Worker, w': Worker, current: set<string>, extra: set<string>, d: string)
    requires Grown(m, w0, w, extra) && d !in current + extra
    requires Entries(w', m) == Entries(w, m) || Entries(w', m) == Changed(m, w, d, true)
    ensures InStep(m, w0, current) ==> (InStep(m, w', current + extra) <==> Prefix(m, d) !in Entries(w', m))
  {
    if InStep(m, w0, current) {
      GrownInStep(m, w0, w, current, extra);
      FailedInStep(m, w, w', current + extra, d, true);
    }
  }

  lemma DeleteFailed(m: MapName, w0: Worker, w: Worker, w': Worker, current: set<string>, gone: set<string>, d: string)
    requires Shrunk(m, w0, w, gone) && d in current - gone
    requires Entries(w', m) == Entries(w, m) || Entries(w', m) == Changed(m, w, d, false)
    ensures InStep(m, w0, current) ==> (InStep(m, w', current - gone) <==> Prefix(m, d) in Entries(w', m))
  {
    if InStep(m, w0, current) {
      ShrunkInStep(m, w0, w, current, gone);
      FailedInStep(m, w, w', current - gone, d, false);
    }
  }

  /** One key of one map, on whichever worker the command reaches. */
  method Change(ghost site: Site, h: HAProxy, m: MapName, d: string, add: bool) returns (ok: bool)
    requires Safe(site, h) && !m.Domains?
    modifies h
    ensures Safe(site, h) && OnlyMap(m, old(h.used), old(h.w), h.used, h.w) && h.commands == old(h.commands) + 1
    ensures h.failures == old(h.failures) + if ok then 0 else 1
    ensures h.w.pid == old(h.w.pid) ==>
      Entries(h.w, m) == Changed(m, old(h.w), d, add) || (!ok && Entries(h.w, m) == old(Entries(h.w, m)))
    ensures Prefixed(m, old(Entries(h.w, m))) ==> Prefixed(m, Entries(h.w, m))
  {
    var c := if add then AddMap(m, Prefix(m, d)) else DelMap(m, Prefix(m, d));
    ok := SafeExec(site, h, c);
    ghost var at := Reached(old(h.w), h.w.pid);
    TookMap(m, at, c, ok, h.w);
    if Prefixed(m, old(Entries(h.w, m))) { TookPrefixed(m, d, at, c, ok, h.w); }
  }

  /** One missing name, with `extra` added to the map of `w` before it. */
  method AddOne(ghost site: Site, h: HAProxy, m: MapName, d: string, ghost u: set<int>, ghost w: Worker,
                ghost current: set<string>, ghost extra: set<string>, ghost mirror: set<string>) returns (ok: bool)
    requires Safe(site, h) && !m.Domains? && w.pid in u && OnlyMap(m, u, w, h.used, h.w)
    requires mirror == current + extra && d !in mirror
    requires h.w.pid == w.pid ==> Grown(m, w, h.w, extra)
    modifies h
    ensures Safe(site, h) && OnlyMap(m, u, w, h.used, h.w)
    ensures h.commands == old(h.commands) + 1 && h.failures == old(h.failures) + if ok then 0 else 1
    ensures ok && h.w.pid == w.pid ==> Grown(m, w, h.w, extra + {d})
    ensures !ok && h.w.pid == w.pid && InStep(m, w, current) ==>
      (InStep(m, h.w, mirror) <==> Prefix(m, d) !in Entries(h.w, m))
    ensures Prefixed(m, old(Entries(h.w, m))) ==> Prefixed(m, Entries(h.w, m))
  {
    ok := Change(site, h, m, d, true);
    OnlyMapAgain(m, u, w, old(h.used), old(h.w), h.used, h.w);
    if h.w.pid == w.pid {
      if ok { GrownMore(m, w, old(h.w), h.w, extra, d); } else { AddFailed(m, w, old(h.w), h.w, current, extra, d); }
    }
  }

  /** One extra name, with `gone` deleted from the map of `w` before it. */
  method DeleteOne(ghost site: Site, h: HAProxy, m: MapName, d: string, ghost u: set<int>, ghost w: Worker,
                   ghost current: set<string>, ghost gone: set<string>, ghost mirror: set<string>) returns (ok: bool)
    requires Safe(site, h) && !m.Domains? && w.pid in u && OnlyMap(m, u, w, h.used, h.w)
    requires mirror == current - gone && d in mirror
    requires h.w.pid == w.pid ==> Shrunk(m, w, h.w, gone)
    modifies h
    ensures Safe(site, h) && OnlyMap(m, u, w, h.used, h.w)
    ensures h.commands == old(h.commands) + 1 && h.failures == old(h.failures) + if ok then 0 else 1
    ensures ok && h.w.pid == w.pid ==> Shrunk(m, w, h.w, gone + {d})
    ensures !ok && h.w.pid == w.pid && InStep(m, w, current) ==>
      (InStep(m, h.w, mirror) <==> Prefix(m, d) in Entries(h.w, m))
    ensures Prefixed(m, old(Entries(h.w, m))) ==> Prefixed(m, Entries(h.w, m))
  {
    ok := Change(site, h, m, d, false);
    OnlyMapAgain(m, u, w, old(h.used), old(h.w), h.used, h.w);
    if h.w.pid == w.pid {
      if ok { ShrunkMore(m, w, old(h.w), h.w, gone, d); } else { DeleteFailed(m, w, old(h.w), h.w, current, gone, d); }
    }
  }

  lemma ExtraStep(current: set<string>, first: set<string>, extra: set<string>, d: string)
    requires extra == first - current
    ensures d in current + extra ==> extra == (first + {d}) - current
    ensures d !in current + extra ==>
      && extra + {d} == (first + {d}) - current
      && |extra + {d}| == |extra| + 1
      && current + extra + {d} == current + (extra + {d})
  {}

  method AddEach(ghost site: Site, h: HAProxy, m: MapName, wanted: seq<string>, current: set<string>)
    returns (ok: bool, mirror: set<string>, added: nat, ghost at: string, ghost extra: set<string>)
    requires Safe(site, h) && !m.Domains?
    modifies h
    ensures Safe(site, h) && OnlyMap(m, old(h.used), old(h.w), h.used, h.w)
    ensures mirror == current + extra && added == |extra|
    ensures if ok then extra == Firsts(wanted, |wanted|) - current else at in wanted && at !in current
    ensures ok && h.w.pid == old(h.w.pid) ==> Grown(m, old(h.w), h.w, extra)
    ensures ok ==> h.commands == old(h.commands) + added
    ensures h.failures >= old(h.failures) && (ok <==> h.failures == old(h.failures))
    ensures !ok && h.w.pid == old(h.w.pid) && InStep(m, old(h.w), current) ==>
      (InStep(m, h.w, mirror) <==> Prefix(m, at) !in Entries(h.w, m))
    ensures ok && extra == {} ==> h.w == old(h.w)
    ensures Prefixed(m, old(Entries(h.w, m))) ==> Prefixed(m, Entries(h.w, m))
  {
    ok, mirror, added, at := true, current, 0, "";
    extra := {};
    GrownNone(m, h.w);
    for i := 0 to |wanted|
      invariant Safe(site, h) && OnlyMap(m, old(h.used), old(h.w), h.used, h.w)
      invariant mirror == current + extra && extra == Firsts(wanted, i) - current && added == |extra|
      invariant h.w.pid == old(h.w.pid) ==> Grown(m, old(h.w), h.w, extra)
      invariant h.commands == old(h.commands) + added && h.failures == old(h.failures)
      invariant extra == {} ==> h.w == old(h.w)
      invariant Prefixed(m, old(Entries(h.w, m))) ==> Prefixed(m, Entries(h.w, m))
    {
      var d := wanted[i];
      ExtraStep(current, Firsts(wanted, i), extra, d);
      if d !in mirror {
        at := d;
        ok := AddOne(site, h, m, d, old(h.used), old(h.w), current, extra, mirror);
        if !ok { return; }
        mirror, added, extra := mirror + {d}, added + 1, extra + {d};
      }
    }
  }

  lemma AllExtra(current: set<string>, wanted: set<string>)
    ensures current + (wanted - current) == current + wanted && (wanted <= current ==> wanted - current == {})
  {}

  /** Adds the wanted names the mirror lacks, one command each, until one fails. */
  method AddMissing(ghost site: Site, h: HAProxy, m: MapName, wanted: seq<string>, current: set<string>)
    returns (ok: bool, mirror: set<string>, added: nat, ghost at: string)
    requires Safe(site, h) && !m.Domains?
    modifies h
    ensures Safe(site, h) && OnlyMap(m, old(h.used), old(h.w), h.used, h.w)
    ensures ok ==> mirror == current + SetOf(wanted) && added == |SetOf(wanted) - current|
    ensures ok && h.w.pid == old(h.w.pid) ==> Grown(m, old(h.w), h.w, SetOf(wanted) - current)
    ensures ok ==> h.commands == old(h.commands) + added
    ensures h.failures >= old(h.failures) && (ok <==> h.failures == old(h.failures))
    ensures !ok && h.w.pid == old(h.w.pid) && InStep(m, old(h.w), current) ==>
      (InStep(m, h.w, mirror) <==> Prefix(m, at) !in Entries(h.w, m))
    ensures SetOf(wanted) <= current ==> h.w == old(h.w)
    ensures Prefixed(m, old(Entries(h.w, m))) ==> Prefixed(m, Entries(h.w, m))
  {
    ghost var extra;
    ok, mirror, added, at, extra := AddEach(site, h, m, wanted, current);
    SetOfMembers(wanted, at);
    AllExtra(current, SetOf(wanted));
  }

  lemma GoneStep(current: set<string>, todo: set<string>, kept: set<string>, gone: set<string>, d: string)
    requires todo <= current && d in todo && gone == (current - todo) - kept
    ensures d in kept ==> gone == (current - (todo - {d})) - kept
    ensures d !in kept ==>
      && gone + {d} == (current - (todo - {d})) - kept
      && |gone + {d}| == |gone| + 1
      && (current - gone) - {d} == current - (gone + {d})
  {}

  lemma NoneGone(current: set<string>, kept: set<string>)
    ensures (current - current) - kept == {} && current - {} == current
  {}

  lemma AllGone(current: set<string>, kept: set<string>)
    ensures (current - {}) - kept == current - kept && current - (current - kept) == current * kept
    ensures current <= kept ==> current - kept == {}
  {}

  /** Deletes the mirrored names nobody wants, one command each, until one fails. */
  method DeleteExtra(ghost site: Site, h: HAProxy, m: MapName, wanted: seq<string>, current: set<string>)
    returns (ok: bool, mirror: set<string>, removed: nat, ghost at: string)
    requires Safe(site, h) && !m.Domains?
    modifies h
    ensures Safe(site, h) && OnlyMap(m, old(h.used), old(h.w), h.used, h.w)
    ensures ok ==> mirror == current * SetOf(wanted) && removed == |current - SetOf(wanted)|
    ensures ok && h.w.pid == old(h.w.pid) ==> Shrunk(m, old(h.w), h.w, current - SetOf(wanted))
    ensures ok ==> h.commands == old(h.commands) + removed
    ensures h.failures >= old(h.failures) && (ok <==> h.failures == old(h.failures))
    ensures !ok && h.w.pid == old(h.w.pid) && InStep(m, old(h.w), current) ==>
      (InStep(m, h.w, mirror) <==> Prefix(m, at) in Entries(h.w, m))
    ensures current <= SetOf(wanted) ==> h.w == old(h.w)
    ensures Prefixed(m, old(Entries(h.w, m))) ==> Prefixed(m, Entries(h.w, m))
  {
    ok, mirror, removed, at := true, current, 0, "";
    var todo := current;
    ghost var gone: set<string> := {};
    GrownNone(m, h.w);
    NoneGone(current, SetOf(wanted));
    while todo != {}
      invariant Safe(site, h) && OnlyMap(m, old(h.used), old(h.w), h.used, h.w)
      invariant todo <= current && gone == (current - todo) - SetOf(wanted)
      invariant mirror == current - gone && removed == |gone|
      invariant h.w.pid == old(h.w.pid) ==> Shrunk(m, old(h.w), h.w, gone)
      invariant h.commands == old(h.commands) + removed && h.failures == old(h.failures)
      invariant gone == {} ==> h.w == old(h.w)
      invariant Prefixed(m, old(Entries(h.w, m))) ==> Prefixed(m, Entries(h.w, m))
      decreases todo
    {
      var d :| d in todo;
      SetOfMembers(wanted, d);
      GoneStep(current, todo, SetOf(wanted), gone, d);
      todo := todo - {d};
      if d !in wanted {
        at := d;
        ok := DeleteOne(site, h, m, d, old(h.used), old(h.w), current, gone, mirror);
        if !ok { return; }
        mirror, removed, gone := mirror - {d}, removed + 1, gone + {d};
      }
    }
    AllGone(current, SetOf(wanted));
  }

  /** What a sync does to one map of a worker it does not lose on the way. */
  predicate Synced(m: MapName, w: Worker, w': Worker, wanted: set<string>, added: nat, removed: nat) {
    var names := Names(m, Entries(w, m));
    && (Entries(w', m) == Keys(m, wanted) <==> Prefixed(m, Entries(w, m)))
    && added == |wanted - names| && removed == |names - wanted|
  }

  lemma SyncedBy(m: MapName, w: Worker, w1: Worker, w2: Worker, wanted: set<string>)
    requires Grown(m, w, w1, wanted - Names(m, Entries(w, m)))
    requires Shrunk(m, w1, w2, Names(m, Entries(w, m)) - wanted)
    ensures Synced(m, w, w2, wanted, |wanted - Names(m, Entries(w, m))|, |Names(m, Entries(w, m)) - wanted|)
  {
    SyncedIffPrefixed(m, Entries(w, m), wanted);
  }

  /** How far a sync of one map got: to the end, not even to its entries, or to a name whose command failed. */
  datatype MapOutcome = Brought | Unread | NotAdded(name: string) | NotDeleted(name: string)

  /** What an outcome means for a map and the memory of it, in the worker the sync was made on. */
  predicate Agrees(m: MapName, w: Worker, out: MapOutcome) {
    match out
    case Brought => true
    case Unread => Entries(w, m) == {}
    case NotAdded(d) => Prefix(m, d) !in Entries(w, m)
    case NotDeleted(d) => Prefix(m, d) in Entries(w, m)
  }

  /** What a sync promises of a map once the worker has listed its keys. */
  method SyncListed(ghost site: Site, h: HAProxy, m: MapName, wanted: seq<string>, keys: set<string>)
    returns (ok: bool, mirror: set<string>, added: nat, removed: nat, ghost out: MapOutcome)
    requires Safe(site, h) && !m.Domains? && keys == Entries(h.w, m)
    modifies h
    ensures Safe(site, h) && OnlyMap(m, old(h.used), old(h.w), h.used, h.w)
    ensures ok ==> mirror == SetOf(wanted)
    ensures h.failures >= old(h.failures) && (ok <==> out.Brought?) && (ok <==> h.failures == old(h.failures))
    ensures ok && h.w.pid == old(h.w.pid) ==> Synced(m, old(h.w), h.w, SetOf(wanted), added, removed)
    ensures !ok && h.w.pid == old(h.w.pid) && InStep(m, old(h.w), Names(m, keys)) ==>
      !out.Unread? && (InStep(m, h.w, mirror) <==> Agrees(m, h.w, out))
    ensures ok ==> h.commands == old(h.commands) + added + removed
    ensures h.w.pid == old(h.w.pid) && Names(m, keys) == SetOf(wanted) ==> h.w == old(h.w)
    ensures Prefixed(m, keys) ==> Prefixed(m, Entries(h.w, m))
  {
    removed := 0;
    var current := Names(m, keys);
    ghost var at;
    ok, mirror, added, at := AddMissing(site, h, m, wanted, current);
    out := NotAdded(at);
    if !ok { return; }
    SyncedMirror(current, mirror, SetOf(wanted));
    ghost var u, w := h.used, h.w;
    if w.pid == old(h.w.pid) && InStep(m, old(h.w), current) {
      GrownInStep(m, old(h.w), w, current, SetOf(wanted) - current);
    }
    ok, mirror, removed, at := DeleteExtra(site, h, m, wanted, mirror);
    OnlyMapAgain(m, old(h.used), old(h.w), u, w, h.used, h.w);
    out := if ok then Brought else NotDeleted(at);
    if ok && h.w.pid == old(h.w.pid) { SyncedBy(m, old(h.w), w, h.w, SetOf(wanted)); }
  }

  lemma SyncedMirror(current: set<string>, mirror: set<string>, wanted: set<string>)
    requires mirror == current + wanted
    ensures mirror - wanted == current - wanted && mirror * wanted == wanted && mirror == current + (wanted - current)
    ensures current == wanted ==> mirror <= wanted
  {}

  /** One map brought to a requested state; the mirror is what the service remembers of it afterwards. */
  method SyncMap(ghost site: Site, h: HAProxy, m: MapName, wanted: seq<string>)
    returns (ok: bool, mirror: set<string>, added: nat, removed: nat, ghost out: MapOutcome)
    requires Safe(site, h) && !m.Domains?
    modifies h
    ensures Safe(site, h) && OnlyMap(m, old(h.used), old(h.w), h.used, h.w)
    ensures ok ==> mirror == SetOf(wanted)
    ensures h.failures >= old(h.failures) && (ok <==> out.Brought?) && (ok <==> h.failures == old(h.failures))
    ensures ok && h.w.pid == old(h.w.pid) ==> Synced(m, old(h.w), h.w, SetOf(wanted), added, removed)
    ensures h.w.pid == old(h.w.pid) && Prefixed(m, old(Entries(h.w, m))) ==>
      (InStep(m, h.w, mirror) <==> Agrees(m, h.w, out))
    ensures ok ==> h.commands == old(h.commands) + added + removed
    ensures h.w.pid == old(h.w.pid) && Names(m, old(Entries(h.w, m))) == SetOf(wanted) ==> h.w == old(h.w)
    ensures Prefixed(m, old(Entries(h.w, m))) ==> Prefixed(m, Entries(h.w, m))
  {
    added, removed, mirror, out := 0, 0, {}, Unread;
    var keys;
    ok, keys := SafeShowMap(site, h, m);
    if !ok { return; }
    KeysOfNames(m, keys);
    ghost var u, w := h.used, h.w;
    ok, mirror, added, removed, out := SyncListed(site, h, m, wanted, keys);
    OnlyMapAgain(m, old(h.used), old(h.w), u, w, h.used, h.w);
  }
}
