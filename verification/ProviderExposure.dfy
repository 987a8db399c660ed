/**
  The orders that lose an exposed category, and with them the exact condition: a history announced without waiting
  settles in every order if and only if it exposes no category.
*/
module ProviderExposure {
  import opened Common
  import opened ProviderModel
  import opened ProviderConvergence
  import opened ProviderWatcher
  import opened ProviderHistory
  import opened ProviderOverlap

  // ----- The most a category can have ----------------------------------------------------------

  predicate Inside(p: Plan, j: nat, k: nat, i: nat) { Within(p, j, k) && i <= |p.g| }

  /** After `j` provider events, then `k` flags, with `i` global events handled at any time. */
  predicate Bounded(p: Plan, c: string, s: State, j: nat, k: nat, i: nat)
    requires Inside(p, j, k, i)
  {
    && Cust(s, c) <= CustomsAt(p, j) - FlaggedOff(p.f, k)
    && OffOf(s, c) == Toggled(p.disabled, p.f, k)
    && GlobalSet(s) == Toggled(p.globals, p.g, i)
    && (HadScope(p, j) ==> c in s.cats || c !in s.chans)
  }

  function Tick(e: Event, t: Tag): nat { if TagOf(e) == t then 1 else 0 }

  lemma BoundedGlobal(p: Plan, c: string, s: State, n: Idp, on: bool, j: nat, k: nat, i: nat)
    requires Inside(p, j, k, i) && Consistent(s) && Bounded(p, c, s, j, k, i) && i < |p.g|
    requires p.g[i] == Prov(None, n, on)
    ensures Bounded(p, c, Apply(s, Prov(None, n, on)), j, k, i + 1)
  {
    GlobalSetEffect(s, n, on);
    if on { GlobalOnEffect(s, n, c); } else { GlobalOffEffect(s, n, c); }
  }

  lemma BoundedOwn(p: Plan, c: string, s: State, n: Idp, on: bool, j: nat, i: nat)
    requires Inside(p, j, 0, i) && Consistent(s) && Bounded(p, c, s, j, 0, i) && j < |p.q|
    requires p.q[j] == Prov(Some(c), n, on)
    ensures Bounded(p, c, Apply(s, Prov(Some(c), n, on)), j + 1, 0, i)
  {
    if on { EnableEffect(s, c, n); } else { DisableEffect(s, c, n); }
  }

  lemma BoundedFlag(p: Plan, c: string, s: State, n: Idp, on: bool, j: nat, k: nat, i: nat)
    requires Inside(p, j, k, i) && Consistent(s) && Bounded(p, c, s, j, k, i) && k < |p.f| && p.f[k] == Flag(c, n, on)
    ensures Bounded(p, c, Apply(s, Flag(c, n, on)), j, k + 1, i)
  {
    FlagEffect(s, c, n, on);
  }

  lemma BoundedStep(p: Plan, c: string, s: State, e: Event, j: nat, k: nat, i: nat)
    requires Inside(p, j, k, i) && Consistent(s) && Bounded(p, c, s, j, k, i) && !e.Mark?
    requires TagOf(e) == CatTag(c) ==> k == 0 && j < |p.q| && p.q[j] == e
    requires TagOf(e) == FlagTag(c) ==> k < |p.f| && p.f[k] == e
    requires TagOf(e) == GlobalTag ==> i < |p.g| && p.g[i] == e
    ensures Bounded(p, c, Apply(s, e), j + Tick(e, CatTag(c)), k + Tick(e, FlagTag(c)), i + Tick(e, GlobalTag))
  {
    match e
    case Prov(None, n, on) => BoundedGlobal(p, c, s, n, on, j, k, i);
    case Prov(Some(d), n, on) => if d == c { BoundedOwn(p, c, s, n, on, j, i); } else { OthersUntouched(s, e, c); }
    case Flag(d, n, on) => if d == c { BoundedFlag(p, c, s, n, on, j, k, i); } else { OthersUntouched(s, e, c); }
  }

  /** `a`, and `rest` after it, are what is left of a queue from its `j`-th event on. */
  predicate Left(q: seq<Event>, j: nat, a: seq<Event>, rest: seq<Event>) { j <= |q| && q[j..] == a + rest }

  lemma LeftAll(q: seq<Event>, j: nat)
    requires j <= |q|
    ensures Left(q, j, [], q[j..])
  {}

  lemma LeftTail(q: seq<Event>, j: nat, e: Event, a: seq<Event>, rest: seq<Event>)
    requires Left(q, j, [e] + a, rest)
    ensures j < |q| && q[j] == e && Left(q, j + 1, a, rest)
  {
    assert q[j..] == [e] + (a + rest);
    assert q[j..][0] == q[j] && q[j..][1..] == q[j + 1..];
  }

  lemma LeftStep(q: seq<Event>, j: nat, es: seq<Event>, t: Tag, rest: seq<Event>)
    requires es != [] && Left(q, j, Only(es, t), rest)
    ensures TagOf(es[0]) == t ==> j < |q| && q[j] == es[0]
    ensures Left(q, j + Tick(es[0], t), Only(es[1..], t), rest)
  {
    OnlyHead(es, t);
    if TagOf(es[0]) == t { LeftTail(q, j, es[0], Only(es[1..], t), rest); }
  }

  lemma {:induction false} RunBounded(p: Plan, c: string, s: State, es: seq<Event>, j: nat, k: nat, i: nat,
                                      rq: seq<Event>, rf: seq<Event>, rg: seq<Event>)
    requires Inside(p, j, k, i) && Consistent(s) && Bounded(p, c, s, j, k, i) && Plain(es)
    requires Left(p.q, j, Only(es, CatTag(c)), rq) && Left(p.f, k, Only(es, FlagTag(c)), rf)
    requires Left(p.g, i, Only(es, GlobalTag), rg)
    requires Only(es, CatTag(c)) == [] || (k == 0 && Only(es, FlagTag(c)) == [])
    ensures |rq| <= |p.q| && |rf| <= |p.f| && |rg| <= |p.g| && Consistent(Run(s, es))
    ensures Bounded(p, c, Run(s, es), |p.q| - |rq|, |p.f| - |rf|, |p.g| - |rg|)
    decreases es
  {
    if es != [] {
      var e := es[0];
      LeftStep(p.q, j, es, CatTag(c), rq);
      LeftStep(p.f, k, es, FlagTag(c), rf);
      LeftStep(p.g, i, es, GlobalTag, rg);
      BoundedStep(p, c, s, e, j, k, i);
      StepKeepsConsistent(s, e);
      RunBounded(p, c, Apply(s, e), es[1..], j + Tick(e, CatTag(c)), k + Tick(e, FlagTag(c)), i + Tick(e, GlobalTag),
                 rq, rf, rg);
    }
  }

  // ----- Up to the accident ---------------------------------------------------------------------

  /** A plan, and a state and a watcher's work it describes. */
  ghost predicate Ground(p: Plan, c: string, s: State, k: seq<Event>) {
    && Sound(p) && Consistent(s)
    && Only(k, CatTag(c)) == p.q && Only(k, FlagTag(c)) == p.f && Only(k, GlobalTag) == []
    && (forall e <- p.g :: TagOf(e) == GlobalTag)
    && Cust(s, c) == p.customs && OffOf(s, c) == p.disabled && GlobalSet(s) == p.globals
    && (c in s.cats <==> p.customs != {})
  }

  /** A queue cut in two before one of its events. */
  lemma {:induction false} Cut(es: seq<Event>, t: Tag, j: nat) returns (a: seq<Event>, b: seq<Event>)
    requires j <= |Only(es, t)|
    ensures es == a + b && Only(a, t) == Only(es, t)[..j] && Only(b, t) == Only(es, t)[j..]
    ensures j < |Only(es, t)| ==> b != [] && b[0] == Only(es, t)[j]
    decreases es
  {
    if es == [] || (TagOf(es[0]) == t && j == 0) {
      a, b := [], es;
    } else {
      OnlyHead(es, t);
      a, b := Cut(es[1..], t, j - Tick(es[0], t));
      a := [es[0]] + a;
      OnlyHead(a, t);
      assert a[1..] + b == es[1..];
    }
  }

  lemma BoundedAtStart(p: Plan, c: string, s: State, k: seq<Event>, ms: seq<Event>)
    requires Ground(p, c, s, k) && forall e <- ms :: e.Mark?
    ensures Consistent(Run(s, ms)) && Bounded(p, c, Run(s, ms), 0, 0, 0)
  {
    ReachableConsistent(s, ms);
    ChannelsOnly(s, ms);
  }

  lemma PlainKind(k: seq<Event>, kind: Kind)
    requires kind != Channels
    ensures Plain(OfKind(k, kind))
  {
    OnlyOfKind(k, kind, GlobalTag);
  }

  lemma BoundedAfterCats(p: Plan, c: string, s: State, k1: seq<Event>, rq: seq<Event>)
    requires Sound(p) && Consistent(s) && Bounded(p, c, s, 0, 0, 0) && p.q == Only(k1, CatTag(c)) + rq
    ensures var t := Run(s, OfKind(k1, Categories)); Consistent(t) && Bounded(p, c, t, |p.q| - |rq|, 0, 0)
  {
    OnlyOfKind(k1, Categories, CatTag(c));
    OnlyOfKind(k1, Categories, FlagTag(c));
    OnlyOfKind(k1, Categories, GlobalTag);
    PlainKind(k1, Categories);
    RunBounded(p, c, s, OfKind(k1, Categories), 0, 0, 0, rq, p.f, p.g);
  }

  lemma BoundedAfterFlags(p: Plan, c: string, s: State, j: nat, i: nat, d: seq<Event>, rf: seq<Event>)
    requires Inside(p, j, 0, i) && Consistent(s) && Bounded(p, c, s, j, 0, i)
    requires (forall e <- d :: e.Flag?) && p.f == Only(d, FlagTag(c)) + rf
    ensures Consistent(Run(s, d)) && Bounded(p, c, Run(s, d), j, |p.f| - |rf|, i)
  {
    NoneTaggedIn(d, CatTag(c));
    NoneTaggedIn(d, GlobalTag);
    LeftAll(p.q, j);
    LeftAll(p.g, i);
    RunBounded(p, c, s, d, j, 0, i, p.q[j..], rf, p.g[i..]);
  }

  lemma BoundedAfterGlobals(p: Plan, c: string, s: State, j: nat, k: nat, g: seq<Event>, rg: seq<Event>)
    requires Inside(p, j, k, 0) && Consistent(s) && Bounded(p, c, s, j, k, 0)
    requires (forall e <- g :: TagOf(e) == GlobalTag) && p.g == g + rg
    ensures Consistent(Run(s, g)) && Bounded(p, c, Run(s, g), j, k, |p.g| - |rg|)
  {
    OnlyUniform(g, GlobalTag, GlobalTag);
    OnlyUniform(g, GlobalTag, CatTag(c));
    OnlyUniform(g, GlobalTag, FlagTag(c));
    LeftAll(p.q, j);
    LeftAll(p.f, k);
    RunBounded(p, c, s, g, j, k, 0, p.q[j..], p.f[k..], rg);
  }

  lemma {:induction false} NoneTaggedIn(es: seq<Event>, t: Tag)
    requires forall e <- es :: TagOf(e) != t
    ensures Only(es, t) == []
  {
    if es != [] {
      assert es[0] in es;
      NoneTaggedIn(es[1..], t);
    }
  }

  // ----- The orders that lose -------------------------------------------------------------------

  lemma RunSeven(s: State, m: seq<Event>, c1: seq<Event>, d1: seq<Event>, g1: seq<Event>, d2: seq<Event>,
                 c2: seq<Event>, g2: seq<Event>)
    ensures Run(s, m + c1 + d1 + g1 + d2 + c2 + g2) == Run(Run(Run(Run(Run(s, m), c1), d1), g1), d2 + c2 + g2)
  {
    RunFour(s, m, c1, d1, g1);
    RunConcat(s, m + c1 + d1 + g1, d2 + c2 + g2);
    ThreeAfter(m + c1 + d1 + g1, d2, c2, g2);
  }

  lemma ThreeAfter(a: seq<Event>, b: seq<Event>, c: seq<Event>, d: seq<Event>)
    ensures a + (b + c + d) == a + b + c + d
  {}

  lemma NoneAfter(q: seq<Event>)
    ensures q + [] == q
  {}

  lemma KindsOf(k1: seq<Event>, k2: seq<Event>, t: Tag)
    requires t.FlagTag?
    ensures Only(OfKind(k1, Flags) + OfKind(k2, Flags), t) == Only(k1, t) + Only(k2, t)
    ensures forall e <- OfKind(k1, Flags) + OfKind(k2, Flags) :: e.Flag?
    ensures forall e <- OfKind(k1, Channels) + OfKind(k2, Channels) :: e.Mark?
  {
    OnlyOfKind(k1, Channels, t);
    OnlyOfKind(k2, Channels, t);
    OnlyOfKind(k1, Flags, t);
    OnlyOfKind(k2, Flags, t);
    OnlyConcat(OfKind(k1, Flags), OfKind(k2, Flags), t);
  }

  lemma GroundParts(p: Plan, c: string, s: State, k: seq<Event>, k1: seq<Event>, k2: seq<Event>)
    requires Ground(p, c, s, k) && k == k1 + k2
    ensures (forall e <- k1 :: TagOf(e) != GlobalTag) && (forall e <- k2 :: TagOf(e) != GlobalTag)
    ensures Only(OfKind(k1, Flags) + OfKind(k2, Flags), FlagTag(c)) == p.f
    ensures forall e <- OfKind(k1, Flags) + OfKind(k2, Flags) :: e.Flag?
    ensures forall e <- OfKind(k1, Channels) + OfKind(k2, Channels) :: e.Mark?
  {
    NoneTagged(k, GlobalTag);
    forall e | e in k1 ensures TagOf(e) != GlobalTag { assert e in k; }
    forall e | e in k2 ensures TagOf(e) != GlobalTag { assert e in k; }
    OnlyConcat(k1, k2, FlagTag(c));
    KindsOf(k1, k2, FlagTag(c));
  }

  /** Where the manager is before the accident. */
  function Reached(s: State, m: seq<Event>, c1: seq<Event>, d1: seq<Event>, g1: seq<Event>): State {
    Run(Run(Run(Run(s, m), c1), d1), g1)
  }

  lemma ReachedBounded(p: Plan, c: string, s: State, k: seq<Event>, m: seq<Event>, k1: seq<Event>, d1: seq<Event>,
                       g1: seq<Event>, rq: seq<Event>, rf: seq<Event>, rg: seq<Event>)
    requires Ground(p, c, s, k) && (forall e <- m :: e.Mark?) && (forall e <- d1 :: e.Flag?)
    requires p.q == Only(k1, CatTag(c)) + rq && p.f == Only(d1, FlagTag(c)) + rf && p.g == g1 + rg
    ensures var z := Reached(s, m, OfKind(k1, Categories), d1, g1);
      Consistent(z) && Bounded(p, c, z, |p.q| - |rq|, |p.f| - |rf|, |p.g| - |rg|)
  {
    BoundedAtStart(p, c, s, k, m);
    var s0 := Run(s, m);
    BoundedAfterCats(p, c, s0, k1, rq);
    var s1 := Run(s0, OfKind(k1, Categories));
    BoundedAfterFlags(p, c, s1, |p.q| - |rq|, 0, d1, rf);
    BoundedAfterGlobals(p, c, Run(s1, d1), |p.q| - |rq|, |p.f| - |rf|, g1, rg);
  }

  lemma Halves(q: seq<Event>, j: nat)
    requires j <= |q|
    ensures q == q[..j] + q[j..] && |q[j..]| == |q| - j && q[..|q|] == q
  {}

  lemma ReachedAt(p: Plan, c: string, s: State, k: seq<Event>, m: seq<Event>, k1: seq<Event>, d1: seq<Event>,
                  g1: seq<Event>, j: nat, l: nat, i: nat)
    requires Ground(p, c, s, k) && (forall e <- m :: e.Mark?) && (forall e <- d1 :: e.Flag?) && Inside(p, j, l, i)
    requires Only(k1, CatTag(c)) == p.q[..j] && Only(d1, FlagTag(c)) == p.f[..l] && g1 == p.g[..i]
    ensures var z := Reached(s, m, OfKind(k1, Categories), d1, g1); Consistent(z) && Bounded(p, c, z, j, l, i)
  {
    Halves(p.q, j);
    Halves(p.f, l);
    Halves(p.g, i);
    ReachedBounded(p, c, s, k, m, k1, d1, g1, p.q[j..], p.f[l..], p.g[i..]);
  }

  /** Flags that come last take out what they have ever switched off. */
  lemma StaleOrder(p: Plan, c: string, s: State, k: seq<Event>, n: Idp) returns (es: seq<Event>)
    requires Ground(p, c, s, k) && n in FlaggedOff(p.f, |p.f|)
    ensures Yields(System(p.g, k, [], []), es) && n !in Cust(Run(s, es), c)
  {
    var m, d := OfKind(k, Channels) + OfKind([], Channels), OfKind(k, Flags) + OfKind([], Flags);
    assert k == k + [] && p.g == p.g + [] && d == [] + d;
    GroundParts(p, c, s, k, k, []);
    es := Order(k, [], p.g, [], [], d);
    OrderYields(k, [], p.g, [], [], d);
    Halves(p.q, |p.q|);
    Halves(p.g, |p.g|);
    ReachedAt(p, c, s, k, m, k, [], p.g, |p.q|, 0, |p.g|);
    FlagsTakeOut(p, c, Reached(s, m, OfKind(k, Categories), [], p.g), d, n);
    RunSeven(s, m, OfKind(k, Categories), [], p.g, d, [], []);
    assert d + [] + [] == d;
  }

  lemma FlagsTakeOut(p: Plan, c: string, z: State, d: seq<Event>, n: Idp)
    requires Sound(p) && Consistent(z) && Bounded(p, c, z, |p.q|, 0, |p.g|) && (forall e <- d :: e.Flag?)
    requires Only(d, FlagTag(c)) == p.f && n in FlaggedOff(p.f, |p.f|)
    ensures n !in Cust(Run(z, d), c)
  {
    NoneAfter(p.f);
    BoundedAfterFlags(p, c, z, |p.q|, |p.g|, d, []);
    BoundedExcludes(p, c, Run(z, d), |p.q|, |p.f|, |p.g|, n);
  }

  lemma BoundedExcludes(p: Plan, c: string, s: State, j: nat, k: nat, i: nat, n: Idp)
    requires Inside(p, j, k, i) && Bounded(p, c, s, j, k, i) && n in FlaggedOff(p.f, k)
    ensures n !in Cust(s, c)
  {}

  lemma PlainTail(a: seq<Event>, b: seq<Event>, c: seq<Event>)
    requires Plain(a) && Plain(b) && Plain(c)
    ensures Plain(a + b + c)
  {}

  /** Once lost, a category gets nothing back from what the manager still receives. */
  lemma LostInTail(s: State, c: string, n: Idp, es: seq<Event>)
    requires Consistent(s) && Lost(s, c, n) && Plain(es)
    ensures n !in Cust(Run(s, es), c)
  {
    LostForGood(s, es, c, n);
  }

  lemma DrainStep(p: Plan, c: string, z: State, j: nat, n: Idp)
    requires Sound(p) && j < |p.q| && Drained(p, j) && TagOf(p.q[j]) == CatTag(c)
    requires Consistent(z) && Bounded(p, c, z, j, |p.f|, 0)
    ensures Lost(Apply(z, p.q[j]), c, n)
  {
    DisableEffect(z, c, p.q[j].idp);
  }

  lemma DrainTail(p: Plan, c: string, z: State, j: nat, k2: seq<Event>, n: Idp)
    requires Sound(p) && j < |p.q| && Drained(p, j) && k2 != [] && k2[0] == p.q[j] && TagOf(p.q[j]) == CatTag(c)
    requires Consistent(z) && Bounded(p, c, z, j, |p.f|, 0)
    ensures n !in Cust(Run(z, [] + OfKind(k2, Categories) + p.g), c)
  {
    var rest := OfKind(k2[1..], Categories) + p.g;
    assert [] + OfKind(k2, Categories) + p.g == [p.q[j]] + rest;
    assert ([p.q[j]] + rest)[1..] == rest;
    DrainStep(p, c, z, j, n);
    StepKeepsConsistent(z, p.q[j]);
    PlainKind(k2[1..], Categories);
    LostInTail(Apply(z, p.q[j]), c, n, rest);
  }

  /** All flags are handled before a disable that leaves nothing but what they take out. */
  lemma DrainOrder(p: Plan, c: string, s: State, k: seq<Event>, j: nat, n: Idp) returns (es: seq<Event>)
    requires Ground(p, c, s, k) && j < |p.q| && Drained(p, j) && TagOf(p.q[j]) == CatTag(c)
    ensures Yields(System(p.g, k, [], []), es) && n !in Cust(Run(s, es), c)
  {
    var k1, k2 := Cut(k, CatTag(c), j);
    var m, d := OfKind(k1, Channels) + OfKind(k2, Channels), OfKind(k1, Flags) + OfKind(k2, Flags);
    GroundParts(p, c, s, k, k1, k2);
    es := Order(k1, k2, [], p.g, d, []);
    assert [] + p.g == p.g && d + [] == d;
    OrderYields(k1, k2, [], p.g, d, []);
    Halves(p.f, |p.f|);
    ReachedAt(p, c, s, k, m, k1, d, [], j, |p.f|, 0);
    DrainTail(p, c, Reached(s, m, OfKind(k1, Categories), d, []), j, k2, n);
    RunSeven(s, m, OfKind(k1, Categories), d, [], [], OfKind(k2, Categories), p.g);
  }

  lemma SweepStep(p: Plan, c: string, z: State, j: nat, k: nat, i: nat, n: Idp)
    requires Inside(p, j, k, i) && i < |p.g| && Swept(p, j, k, i) && TagOf(p.g[i]) == GlobalTag
    requires Consistent(z) && Bounded(p, c, z, j, k, i)
    ensures Lost(Apply(z, p.g[i]), c, n)
  {
    GlobalOffEffect(z, p.g[i].idp, c);
  }

  lemma SweepReached(p: Plan, c: string, s: State, k: seq<Event>, m: seq<Event>, k1: seq<Event>, d1: seq<Event>,
                     j: nat, l: nat, i: nat, n: Idp)
    requires Ground(p, c, s, k) && (forall e <- m :: e.Mark?) && (forall e <- d1 :: e.Flag?)
    requires Inside(p, j, l, i) && i < |p.g| && Swept(p, j, l, i)
    requires Only(k1, CatTag(c)) == p.q[..j] && Only(d1, FlagTag(c)) == p.f[..l]
    ensures var z := Reached(s, m, OfKind(k1, Categories), d1, p.g[..i + 1]); Consistent(z) && Lost(z, c, n)
  {
    var z := Reached(s, m, OfKind(k1, Categories), d1, p.g[..i]);
    ReachedAt(p, c, s, k, m, k1, d1, p.g[..i], j, l, i);
    SweepStep(p, c, z, j, l, i, n);
    StepKeepsConsistent(z, p.g[i]);
    RunConcat(Run(Run(Run(s, m), OfKind(k1, Categories)), d1), p.g[..i], [p.g[i]]);
    assert p.g[..i] + [p.g[i]] == p.g[..i + 1];
  }

  lemma CutFlags(d: seq<Event>, c: string, l: nat) returns (d1: seq<Event>, d2: seq<Event>)
    requires l <= |Only(d, FlagTag(c))| && forall e <- d :: e.Flag?
    ensures d == d1 + d2 && Only(d1, FlagTag(c)) == Only(d, FlagTag(c))[..l]
    ensures (forall e <- d1 :: e.Flag?) && Plain(d2)
  {
    d1, d2 := Cut(d, FlagTag(c), l);
    forall e | e in d1 ensures e.Flag? { assert e in d; }
    forall e | e in d2 ensures !e.Mark? { assert e in d; }
  }

  lemma PlainHalves(g: seq<Event>, i: nat)
    requires i <= |g| && Plain(g)
    ensures g[..i] + g[i..] == g && Plain(g[i..])
  {}

  /** A global provider is withdrawn when flags have taken out all that was custom. */
  lemma SweepOrder(p: Plan, c: string, s: State, k: seq<Event>, j: nat, l: nat, i: nat, n: Idp)
    returns (es: seq<Event>)
    requires Ground(p, c, s, k) && Inside(p, j, l, i) && i < |p.g| && Swept(p, j, l, i)
    ensures Yields(System(p.g, k, [], []), es) && n !in Cust(Run(s, es), c)
  {
    var k1, k2 := Cut(k, CatTag(c), j);
    var m, d := OfKind(k1, Channels) + OfKind(k2, Channels), OfKind(k1, Flags) + OfKind(k2, Flags);
    GroundParts(p, c, s, k, k1, k2);
    var d1, d2 := CutFlags(d, c, l);
    var g1, g2 := p.g[..i + 1], p.g[i + 1..];
    PlainHalves(p.g, i + 1);
    es := Order(k1, k2, g1, g2, d1, d2);
    OrderYields(k1, k2, g1, g2, d1, d2);
    SweepReached(p, c, s, k, m, k1, d1, j, l, i, n);
    LostInOrder(s, c, n, k1, k2, g1, g2, d1, d2);
  }

  lemma LostInOrder(s: State, c: string, n: Idp, k1: seq<Event>, k2: seq<Event>, g1: seq<Event>, g2: seq<Event>,
                    d1: seq<Event>, d2: seq<Event>)
    requires var z := Reached(s, OfKind(k1, Channels) + OfKind(k2, Channels), OfKind(k1, Categories), d1, g1);
      Consistent(z) && Lost(z, c, n)
    requires Plain(d2) && Plain(g2)
    ensures n !in Cust(Run(s, Order(k1, k2, g1, g2, d1, d2)), c)
  {
    var m, c2 := OfKind(k1, Channels) + OfKind(k2, Channels), OfKind(k2, Categories);
    PlainKind(k2, Categories);
    PlainTail(d2, c2, g2);
    LostInTail(Reached(s, m, OfKind(k1, Categories), d1, g1), c, n, d2 + c2 + g2);
    RunSeven(s, m, OfKind(k1, Categories), d1, g1, d2, c2, g2);
  }

  // ----- The exact condition --------------------------------------------------------------------

  lemma ExposedOrder(p: Plan, c: string, s: State, k: seq<Event>) returns (es: seq<Event>)
    requires Ground(p, c, s, k) && Exposed(p) && forall e <- p.q :: TagOf(e) == CatTag(c)
    ensures Yields(System(p.g, k, [], []), es) && Cust(Run(s, es), c) != CustomsAt(p, |p.q|)
  {
    if StaleFlag(p) {
      var n :| n in FlaggedOff(p.f, |p.f|) * CustomsAt(p, |p.q|);
      es := StaleOrder(p, c, s, k, n);
    } else {
      var n :| n in CustomsAt(p, |p.q|);
      if j :| 0 <= j < |p.q| && Drained(p, j) {
        es := DrainOrder(p, c, s, k, j, n);
      } else {
        var j, l, i :| 0 <= j <= |p.q| && 0 <= l <= |p.f| && 0 <= i < |p.g| && Swept(p, j, l, i);
        es := SweepOrder(p, c, s, k, j, l, i, n);
      }
    }
  }

  lemma {:induction false} SomeVisitOrders(chs: seq<Change>) returns (orders: seq<seq<string>>)
    ensures VisitOrders(chs, orders)
    decreases |chs|
  {
    if chs == [] {
      orders := [];
    } else {
      var order := SomeVisitOrder(chs[0]);
      var rest := SomeVisitOrders(chs[1..]);
      orders := [order] + rest;
      assert forall i | 0 <= i < |chs| :: i == 0 || (chs[i] == chs[1..][i - 1] && orders[i] == rest[i - 1]);
    }
  }

  lemma GroundAtStart(s: State, start: Config, chs: seq<Change>, c: string, orders: seq<seq<string>>)
    requires Settled(s, start) && Chain(chs, start) && VisitOrders(chs, orders)
    ensures Ground(PlanOf(start, chs, c), c, s, ScriptAll(chs, orders))
    ensures forall e <- QueueAll(chs, CatTag(c)) :: TagOf(e) == CatTag(c)
  {
    PlanSound(start, chs, c);
    OnlyScriptAll(chs, orders, CatTag(c));
    OnlyScriptAll(chs, orders, FlagTag(c));
    OnlyScriptAll(chs, orders, GlobalTag);
    QueueAllTagged(chs, GlobalTag);
    QueueAllTagged(chs, CatTag(c));
    assert CatSettled(s, start, c);
  }

  /** Some order of handling an exposed category's history loses it. */
  lemma ExposedHistoryLoses(s: State, start: Config, chs: seq<Change>, c: string) returns (es: seq<Event>)
    requires Settled(s, start) && Chain(chs, start) && ExposedIn(start, chs, c)
    ensures RealizableAll(chs, es) && Cust(Run(s, es), c) != Customs(Final(chs, start), c)
  {
    var orders := SomeVisitOrders(chs);
    GroundAtStart(s, start, chs, c, orders);
    PlanSound(start, chs, c);
    es := ExposedOrder(PlanOf(start, chs, c), c, s, ScriptAll(chs, orders));
    assert VisitOrders(chs, orders) && Yields(StartAll(chs, orders), es);
  }

  /** A history announced without waiting settles in every order if and only if it exposes no category. */
  lemma OverlapSettlesIffSpared(s: State, start: Config, chs: seq<Change>)
    requires Settled(s, start) && Chain(chs, start)
    ensures AllSpared(start, chs) <==>
            forall es: seq<Event> :: RealizableAll(chs, es) ==> Settled(Run(s, es), Final(chs, start))
  {
    if AllSpared(start, chs) {
      forall es: seq<Event> | RealizableAll(chs, es) ensures Settled(Run(s, es), Final(chs, start)) {
        SparedHistorySettles(s, start, chs, es);
      }
    } else {
      var c: string :| ExposedIn(start, chs, c);
      var es := ExposedHistoryLoses(s, start, chs, c);
      assert !CatSettled(Run(s, es), Final(chs, start), c);
    }
  }

  // ----- One change -----------------------------------------------------------------------------

  lemma OneOf(ch: Change, order: seq<string>)
    ensures ScriptAll([ch], [order]) == Script(ch, order) && forall t: Tag :: QueueAll([ch], t) == Queue(ch, t)
    ensures VisitOrders([ch], [order]) <==> VisitOrder(ch, order)
  {
    assert [ch][1..] == [] && [order][1..] == [];
    assert VisitOrders([ch], [order]) ==> VisitOrder([ch][0], [order][0]);
  }

  lemma OneRealizable(ch: Change, es: seq<Event>)
    ensures RealizableAll([ch], es) <==> Realizable(ch, es)
  {
    if RealizableAll([ch], es) {
      var orders :| VisitOrders([ch], orders) && Yields(StartAll([ch], orders), es);
      assert orders == [orders[0]];
      OneOf(ch, orders[0]);
    }
    if Realizable(ch, es) {
      var order: seq<string> :| VisitOrder(ch, order) && Yields(Start(ch, order), es);
      OneOf(ch, order);
      assert VisitOrders([ch], [order]) && Yields(StartAll([ch], [order]), es);
    }
  }

  /** A change by itself exposes no category if and only if it is safe. */
  lemma OneChangeSparedIffSafe(s: State, ch: Change)
    requires Settled(s, ch.before)
    ensures Chain([ch], ch.before) && (AllSpared(ch.before, [ch]) <==> Safe(ch))
  {
    assert [ch][1..] == [];
    OverlapSettlesIffSpared(s, ch.before, [ch]);
    ReloadSettlesIffSafe(s, ch);
    forall es: seq<Event> ensures RealizableAll([ch], es) <==> Realizable(ch, es) { OneRealizable(ch, es); }
  }

  // ----- Two changes that lose ------------------------------------------------------------------

  /** What is sent of one kind when only one switch of it changes. */
  lemma OneSent(ch: Change, t: Tag, n: Idp)
    requires !t.MarkTag? && forall m: Idp :: Differs(ch, t, m) <==> m == n
    ensures Queue(ch, t) == [EventFor(t, n, n in Switches(ch.after, t))]
  {
    assert QueueUpTo(ch, t, 1) == Sent(ch, t, Local);
    assert QueueUpTo(ch, t, 2) == Sent(ch, t, Local) + Sent(ch, t, LDAP);
    assert QueueUpTo(ch, t, 3) == Sent(ch, t, Local) + Sent(ch, t, LDAP) + Sent(ch, t, SAML);
  }

  lemma NoneSent(ch: Change, t: Tag)
    requires !t.MarkTag? && forall m: Idp :: !Differs(ch, t, m)
    ensures Queue(ch, t) == []
  {
    assert QueueUpTo(ch, t, 1) == [] && QueueUpTo(ch, t, 2) == [] && QueueUpTo(ch, t, 3) == [];
  }

  lemma TwoOf(one: Change, two: Change, t: Tag)
    ensures QueueAll([one, two], t) == Queue(one, t) + Queue(two, t)
  {
    assert [one, two][1..] == [two] && [two][1..] == [];
    assert QueueAll([], t) == [];
    NoneAfter(Queue(two, t));
  }

  lemma TwoChained(one: Change, two: Change)
    requires one.after == two.before
    ensures Chain([one, two], one.before) && Final([one, two], one.before) == two.after
  {
    assert [one, two][1..] == [two] && [two][1..] == [];
  }

  lemma RunAfterMarks(s: State, c: string, es: seq<Event>)
    requires Consistent(s)
    ensures var t := Run(s, [Mark(c, true), Mark(c, false), Mark(c, true)]);
      && Consistent(t) && t.cats == s.cats && Cust(t, c) == Cust(s, c)
      && Run(s, [Mark(c, true), Mark(c, false), Mark(c, true)] + es) == Run(t, es)
  {
    var ms := [Mark(c, true), Mark(c, false), Mark(c, true)];
    ReachableConsistent(s, ms);
    ChannelsOnly(s, ms);
    RunConcat(s, ms, es);
  }

  lemma MarksOfTwo(c: string, one: Change, two: Change)
    requires c in one.after.cats && c in two.after.cats && Customs(one.after, c) == {} && Customs(two.after, c) != {}
    ensures QueueAll([one, two], MarkTag(c)) == [Mark(c, true), Mark(c, false), Mark(c, true)]
  {
    TwoOf(one, two, MarkTag(c));
  }

  /**
    Two changes, each safe for the category: it gives up its own LDAP, then takes a SAML of its own. If the second is
    announced before the first is handled, the disable of the first deletes the channels the second created,
    and the enable is lost.
  */
  lemma OverlapLoses(s: State, c: string, one: Change, two: Change)
    requires Settled(s, one.before) && one.after == two.before
    requires c in one.after.cats && c in two.after.cats
    requires Customs(one.before, c) == {LDAP} && Customs(one.after, c) == {} && Customs(two.after, c) == {SAML}
    ensures !Late(one, c) && !Swap(one, c) && !Late(two, c) && !Swap(two, c)
    ensures Chain([one, two], one.before) && ExposedIn(one.before, [one, two], c)
    ensures var es := [Mark(c, true), Mark(c, false), Mark(c, true)]
                      + [Prov(Some(c), LDAP, false), Prov(Some(c), SAML, true)];
      && QueueAll([one, two], MarkTag(c)) + QueueAll([one, two], CatTag(c)) == es
      && SAML !in Cust(Run(s, es), c)
  {
    DisableThenEnable(c, one, two);
    MarksOfTwo(c, one, two);
    assert CatSettled(s, one.before, c);
    CutOffAfterMarks(s, c);
    OverlapExposes(c, one, two);
  }

  lemma CutOffAfterMarks(s: State, c: string)
    requires Consistent(s) && c in s.cats && Cust(s, c) == {LDAP}
    ensures SAML !in Cust(Run(s, [Mark(c, true), Mark(c, false), Mark(c, true)]
                                 + [Prov(Some(c), LDAP, false), Prov(Some(c), SAML, true)]), c)
  {
    RunAfterMarks(s, c, [Prov(Some(c), LDAP, false), Prov(Some(c), SAML, true)]);
    CutOff(Run(s, [Mark(c, true), Mark(c, false), Mark(c, true)]), c);
  }

  lemma DisableThenEnable(c: string, one: Change, two: Change)
    requires one.after == two.before && c in one.after.cats && c in two.after.cats
    requires Customs(one.before, c) == {LDAP} && Customs(one.after, c) == {} && Customs(two.after, c) == {SAML}
    ensures QueueAll([one, two], CatTag(c)) == [Prov(Some(c), LDAP, false), Prov(Some(c), SAML, true)]
  {
    OneSent(one, CatTag(c), LDAP);
    OneSent(two, CatTag(c), SAML);
    TwoOf(one, two, CatTag(c));
  }

  lemma OverlapExposes(c: string, one: Change, two: Change)
    requires one.after == two.before && c in one.after.cats && c in two.after.cats
    requires Customs(one.before, c) == {LDAP} && Customs(one.after, c) == {} && Customs(two.after, c) == {SAML}
    ensures Chain([one, two], one.before) && ExposedIn(one.before, [one, two], c)
  {
    DisableThenEnable(c, one, two);
    TwoChained(one, two);
    PlanSound(one.before, [one, two], c);
    DrainedByFirst(PlanOf(one.before, [one, two], c), c);
  }

  lemma DrainedByFirst(p: Plan, c: string)
    requires Sound(p) && p.customs == {LDAP} && p.q == [Prov(Some(c), LDAP, false), Prov(Some(c), SAML, true)]
    ensures Exposed(p)
  {
    assert CustomsAt(p, 0) == {LDAP};
    assert CustomsAt(p, 1) == {LDAP} - {LDAP};
    assert CustomsAt(p, 2) == CustomsAt(p, 1) + {SAML};
    assert Drained(p, 0);
  }

  lemma CutOff(s: State, c: string)
    requires Consistent(s) && c in s.cats && Cust(s, c) == {LDAP}
    ensures SAML !in Cust(Run(s, [Prov(Some(c), LDAP, false), Prov(Some(c), SAML, true)]), c)
  {
    var off, on := Prov(Some(c), LDAP, false), Prov(Some(c), SAML, true);
    DisableEffect(s, c, LDAP);
    StepKeepsConsistent(s, off);
    LostForGood(Apply(s, off), [on], c, SAML);
    assert [off, on][1..] == [on];
  }

  /**
    Two changes, each safe for the category: it disables LDAP, then takes an LDAP of its own. The two channels are not
    ordered with respect to one another, and the flag of the first change, handled after the enable of the second, takes
    the new LDAP out.
  */
  lemma StaleFlagLoses(s: State, c: string, one: Change, two: Change)
    requires Settled(s, one.before) && one.after == two.before
    requires c in one.after.cats && c in two.after.cats
    requires Customs(one.before, c) == Customs(one.after, c) == {} && Customs(two.after, c) == {LDAP}
    requires Disabled(one.before, c) == Disabled(two.after, c) == {} && Disabled(one.after, c) == {LDAP}
    ensures !Late(one, c) && !Swap(one, c) && !Late(two, c) && !Swap(two, c)
    ensures Chain([one, two], one.before) && ExposedIn(one.before, [one, two], c)
    ensures var es := [Mark(c, true), Mark(c, false), Mark(c, true)]
                      + [Prov(Some(c), LDAP, true), Flag(c, LDAP, true), Flag(c, LDAP, false)];
      && QueueAll([one, two], MarkTag(c)) + (QueueAll([one, two], CatTag(c)) + QueueAll([one, two], FlagTag(c))) == es
      && LDAP !in Cust(Run(s, es), c)
  {
    FlagQueues(c, one, two);
    MarksOfTwo(c, one, two);
    TakenOutAfterMarks(s, c);
    StaleFlagExposes(c, one, two);
  }

  lemma TakenOutAfterMarks(s: State, c: string)
    requires Consistent(s)
    ensures LDAP !in Cust(Run(s, [Mark(c, true), Mark(c, false), Mark(c, true)]
                                 + [Prov(Some(c), LDAP, true), Flag(c, LDAP, true), Flag(c, LDAP, false)]), c)
  {
    RunAfterMarks(s, c, [Prov(Some(c), LDAP, true), Flag(c, LDAP, true), Flag(c, LDAP, false)]);
    TakenOut(Run(s, [Mark(c, true), Mark(c, false), Mark(c, true)]), c);
  }

  lemma StaleFlagExposes(c: string, one: Change, two: Change)
    requires one.after == two.before
    requires Customs(one.before, c) == Customs(one.after, c) == {} && Customs(two.after, c) == {LDAP}
    requires Disabled(one.before, c) == Disabled(two.after, c) == {} && Disabled(one.after, c) == {LDAP}
    ensures Chain([one, two], one.before) && ExposedIn(one.before, [one, two], c)
  {
    FlagQueues(c, one, two);
    TwoChained(one, two);
    PlanSound(one.before, [one, two], c);
    FlaggedBefore(PlanOf(one.before, [one, two], c), c);
  }

  lemma FlagQueues(c: string, one: Change, two: Change)
    requires one.after == two.before
    requires Customs(one.before, c) == Customs(one.after, c) == {} && Customs(two.after, c) == {LDAP}
    requires Disabled(one.before, c) == Disabled(two.after, c) == {} && Disabled(one.after, c) == {LDAP}
    ensures QueueAll([one, two], CatTag(c)) == [Prov(Some(c), LDAP, true)]
    ensures QueueAll([one, two], FlagTag(c)) == [Flag(c, LDAP, true), Flag(c, LDAP, false)]
    ensures QueueAll([one, two], CatTag(c)) + QueueAll([one, two], FlagTag(c))
            == [Prov(Some(c), LDAP, true), Flag(c, LDAP, true), Flag(c, LDAP, false)]
  {
    NoneSent(one, CatTag(c));
    OneSent(two, CatTag(c), LDAP);
    OneSent(one, FlagTag(c), LDAP);
    OneSent(two, FlagTag(c), LDAP);
    TwoOf(one, two, CatTag(c));
    TwoOf(one, two, FlagTag(c));
  }

  lemma FlaggedBefore(p: Plan, c: string)
    requires Sound(p) && p.q == [Prov(Some(c), LDAP, true)] && p.f == [Flag(c, LDAP, true), Flag(c, LDAP, false)]
    ensures Exposed(p)
  {
    assert CustomsAt(p, 1) == CustomsAt(p, 0) + {LDAP};
    assert FlaggedOff(p.f, 1) == FlaggedOff(p.f, 0) + {LDAP};
    assert FlaggedOff(p.f, 2) == FlaggedOff(p.f, 1) + {};
    assert LDAP in FlaggedOff(p.f, |p.f|) * CustomsAt(p, |p.q|);
  }

  lemma TakenOut(s: State, c: string)
    requires Consistent(s)
    ensures LDAP !in Cust(Run(s, [Prov(Some(c), LDAP, true), Flag(c, LDAP, true), Flag(c, LDAP, false)]), c)
  {
    var on, flag, unflag := Prov(Some(c), LDAP, true), Flag(c, LDAP, true), Flag(c, LDAP, false);
    var s1 := Apply(s, on);
    StepKeepsConsistent(s, on);
    var s2 := Apply(s1, flag);
    StepKeepsConsistent(s1, flag);
    FlagEffect(s1, c, LDAP, true);
    FlagEffect(s2, c, LDAP, false);
    assert [on, flag, unflag][1..] == [flag, unflag] && [flag, unflag][1..] == [unflag];
    assert Run(Apply(s2, unflag), []) == Apply(s2, unflag);
    assert Run(s2, [unflag]) == Apply(s2, unflag);
    assert Run(s1, [flag, unflag]) == Run(s2, [unflag]);
  }
}
