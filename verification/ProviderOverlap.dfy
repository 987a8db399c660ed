/**
  Every order of handling a history of overlapping changes settles on its last configuration if and only if the history
  exposes no category: the proof that an unexposed category gets there, and the orders that lose an exposed one.
*/
module ProviderOverlap {
  import opened Common
  import opened ProviderModel
  import opened ProviderConvergence
  import opened ProviderWatcher
  import opened ProviderHistory

  // ----- A category while its events are being handled ---------------------------------------

  /** Nothing is custom in the end. */
  predicate Vain(p: Plan)
    requires Sound(p)
  {
    CustomsAt(p, |p.q|) == {}
  }

  predicate Within(p: Plan, j: nat, k: nat) { Sound(p) && j <= |p.q| && k <= |p.f| }

  /** After `j` provider and `k` flag events: all that should be custom is, but for what flags have taken out. */
  predicate SafeNow(p: Plan, j: nat, k: nat, cust: set<Idp>, off: set<Idp>, scope: bool)
    requires Within(p, j, k)
  {
    && off == Toggled(p.disabled, p.f, k)
    && CustomsAt(p, j) - FlaggedOff(p.f, k) <= cust <= CustomsAt(p, j)
    && (scope <==> HadScope(p, j))
  }

  /** With nothing custom in the end it is enough that a scope is met by another disable. */
  predicate VainNow(p: Plan, j: nat, k: nat, cust: set<Idp>, off: set<Idp>, scope: bool)
    requires Within(p, j, k)
  {
    && off == Toggled(p.disabled, p.f, k)
    && cust <= CustomsAt(p, j)
    && (scope ==> exists i :: j <= i < |p.q| && !On(p.q[i]))
  }

  lemma {:induction false} FlaggedOffGrows(f: seq<Event>, k: nat, m: nat)
    requires k <= m <= |f| && Plain(f)
    ensures FlaggedOff(f, k) <= FlaggedOff(f, m)
    decreases m
  {
    if k < m { FlaggedOffGrows(f, k, m - 1); }
  }

  lemma SafeEnable(p: Plan, j: nat, k: nat, cust: set<Idp>, off: set<Idp>, scope: bool)
    requires Within(p, j, k) && j < |p.q| && On(p.q[j]) && SafeNow(p, j, k, cust, off, scope)
    ensures SafeNow(p, j + 1, k, cust + {p.q[j].idp}, off, true)
  {}

  lemma SafeDisable(p: Plan, j: nat, k: nat, cust: set<Idp>, off: set<Idp>, scope: bool)
    requires Within(p, j, k) && j < |p.q| && !On(p.q[j]) && SafeNow(p, j, k, cust, off, scope)
    requires !Vain(p) && !Exposed(p)
    ensures SafeNow(p, j + 1, k, cust - {p.q[j].idp}, off, scope) && (scope ==> cust - {p.q[j].idp} != {})
  {
    if scope && cust - {p.q[j].idp} == {} {
      FlaggedOffGrows(p.f, k, |p.f|);
      assert Drained(p, j);
    }
  }

  lemma SafeFlag(p: Plan, j: nat, k: nat, cust: set<Idp>, off: set<Idp>, scope: bool)
    requires Within(p, j, k) && k < |p.f| && SafeNow(p, j, k, cust, off, scope)
    ensures var e := p.f[k];
      SafeNow(p, j, k + 1, if On(e) && IsFormSub(e.idp) then cust - {e.idp} else cust, Toggle(off, e), scope)
  {}

  /** No global disable finds a scope that only inherits. */
  lemma SafeGlobal(p: Plan, j: nat, k: nat, i: nat, cust: set<Idp>, off: set<Idp>, scope: bool)
    requires Within(p, j, k) && i < |p.g| && SafeNow(p, j, k, cust, off, scope) && !Vain(p) && !Exposed(p)
    requires !On(p.g[i]) && IsFormSub(p.g[i].idp) && p.g[i].idp in Toggled(p.globals, p.g, i)
    ensures !(scope && cust == {} && p.g[i].idp !in off)
  {
    if scope && cust == {} && p.g[i].idp !in off { assert Swept(p, j, k, i); }
  }

  lemma VainEnable(p: Plan, j: nat, k: nat, cust: set<Idp>, off: set<Idp>, scope: bool, cust': set<Idp>)
    requires Within(p, j, k) && j < |p.q| && On(p.q[j]) && Vain(p) && VainNow(p, j, k, cust, off, scope)
    requires cust' <= cust + {p.q[j].idp}
    ensures VainNow(p, j + 1, k, cust', off, true)
  {
    OffSomehow(p.customs, p.q, j + 1, |p.q|, p.q[j].idp);
  }

  lemma VainDisable(p: Plan, j: nat, k: nat, cust: set<Idp>, off: set<Idp>, scope: bool)
    requires Within(p, j, k) && j < |p.q| && !On(p.q[j]) && Vain(p) && VainNow(p, j, k, cust, off, scope)
    ensures VainNow(p, j + 1, k, cust - {p.q[j].idp}, off, cust - {p.q[j].idp} != {})
  {
    if n :| n in cust - {p.q[j].idp} { OffSomehow(p.customs, p.q, j + 1, |p.q|, n); }
  }

  lemma VainFlag(p: Plan, j: nat, k: nat, cust: set<Idp>, off: set<Idp>, scope: bool)
    requires Within(p, j, k) && k < |p.f| && VainNow(p, j, k, cust, off, scope)
    ensures var e := p.f[k];
      VainNow(p, j, k + 1, if On(e) && IsFormSub(e.idp) then cust - {e.idp} else cust, Toggle(off, e), scope)
  {}

  // ----- Its change channels ------------------------------------------------------------------

  predicate NoClose(r: seq<Event>) { forall e <- r :: !(e.Mark? && !e.open) }

  /**
    What the watcher still does about a category, before anything of it was enabled: no enable without channels, and no
    deletion after one.
  */
  predicate Ready(r: seq<Event>, chan: bool) {
    r == [] ||
    match r[0]
    case Mark(_, open) => Ready(r[1..], open)
    case Prov(_, _, on) => if on then chan && NoClose(r[1..]) else Ready(r[1..], chan)
    case Flag(_, _, _) => Ready(r[1..], chan)
  }

  lemma {:induction false} FirmIsReady(r: seq<Event>)
    requires NoClose(r)
    ensures Ready(r, true)
  {
    if r != [] { FirmIsReady(r[1..]); }
  }

  /** How many of the category's events have been sent, with `r` still to be done. */
  function SentOf(p: Plan, c: string, r: seq<Event>): int { |p.q| - |Only(r, CatTag(c))| }

  predicate IsSuffix(r: seq<Event>, q: seq<Event>) { |r| <= |q| && q[|q| - |r|..] == r }

  /** The channels of a category, with `r` still to be done by the watcher. */
  predicate ChansNow(p: Plan, c: string, chan: bool, r: seq<Event>)
    requires Sound(p)
  {
    && IsSuffix(Only(r, CatTag(c)), p.q)
    && if Vain(p) then
         var m := Only(r, MarkTag(c));
         if m == [] then !chan else m[|m| - 1] == Mark(c, false)
       else if HadScope(p, SentOf(p, c, r)) then chan && NoClose(r) else Ready(r, chan)
  }

  lemma SuffixTail(e: Event, r: seq<Event>, q: seq<Event>)
    requires IsSuffix([e] + r, q)
    ensures IsSuffix(r, q) && q[|q| - |r| - 1] == e
  {
    var i := |q| - |r| - 1;
    assert q[i..][1..] == q[i + 1..];
  }

  lemma VainChansStep(p: Plan, c: string, chan: bool, e: Event, r: seq<Event>)
    requires Sound(p) && Vain(p) && Subject(e) == Some(c) && ChansNow(p, c, chan, [e] + r)
    requires IsSuffix(Only(r, CatTag(c)), p.q)
    ensures ChansNow(p, c, if e.Mark? then e.open else chan, r)
  {
    OnlyHead([e] + r, MarkTag(c));
    assert ([e] + r)[1..] == r;
  }

  lemma FirmStep(e: Event, r: seq<Event>)
    requires NoClose([e] + r)
    ensures NoClose(r) && (e.Mark? ==> e.open)
  {
    assert e in [e] + r;
    forall x | x in r ensures !(x.Mark? && !x.open) { assert x in [e] + r; }
  }

  lemma ReadyStep(e: Event, r: seq<Event>, chan: bool)
    requires Ready([e] + r, chan)
    ensures if e.Prov? && On(e) then chan && NoClose(r) else Ready(r, if e.Mark? then e.open else chan)
  {
    assert ([e] + r)[1..] == r;
  }

  lemma SafeChansStep(p: Plan, c: string, chan: bool, e: Event, r: seq<Event>)
    requires Sound(p) && !Vain(p) && Subject(e) == Some(c) && ChansNow(p, c, chan, [e] + r)
    requires IsSuffix(Only(r, CatTag(c)), p.q)
    requires SentOf(p, c, r) == SentOf(p, c, [e] + r) + if e.Prov? then 1 else 0
    requires e.Prov? ==> p.q[SentOf(p, c, [e] + r)] == e
    ensures ChansNow(p, c, if e.Mark? then e.open else chan, r)
  {
    if HadScope(p, SentOf(p, c, [e] + r)) { FirmStep(e, r); } else { ReadyStep(e, r, chan); }
  }

  lemma ChansStep(p: Plan, c: string, chan: bool, e: Event, r: seq<Event>)
    requires Sound(p) && Subject(e) == Some(c) && ChansNow(p, c, chan, [e] + r)
    ensures ChansNow(p, c, if e.Mark? then e.open else chan, r)
  {
    OnlyHead([e] + r, CatTag(c));
    assert ([e] + r)[1..] == r;
    if e.Prov? { SuffixTail(e, Only(r, CatTag(c)), p.q); }
    if Vain(p) { VainChansStep(p, c, chan, e, r); } else { SafeChansStep(p, c, chan, e, r); }
  }

  // ----- One event --------------------------------------------------------------------------

  /** A category with `qs` and `fs` still to be handled. */
  predicate Now(p: Plan, c: string, s: State, qs: seq<Event>, fs: seq<Event>)
    requires Sound(p)
  {
    && IsSuffix(qs, p.q) && IsSuffix(fs, p.f)
    && var j, k := |p.q| - |qs|, |p.f| - |fs|;
       if Vain(p) then VainNow(p, j, k, Cust(s, c), OffOf(s, c), c in s.cats)
       else SafeNow(p, j, k, Cust(s, c), OffOf(s, c), c in s.cats)
  }

  ghost predicate Spared(p: Plan)
    requires Sound(p)
  {
    Vain(p) || !Exposed(p)
  }

  /** Channels go only where nothing is custom in the end. */
  predicate ChanKept(p: Plan, chan: bool, chan': bool)
    requires Sound(p)
  {
    (chan' ==> chan) && (!Vain(p) ==> chan' == chan)
  }

  lemma NowEnable(p: Plan, c: string, s: State, n: Idp, qs: seq<Event>, fs: seq<Event>)
    requires Sound(p) && Consistent(s) && Now(p, c, s, [Prov(Some(c), n, true)] + qs, fs)
    requires !Vain(p) ==> c in s.chans
    ensures Now(p, c, EnableCategory(s, c, n), qs, fs)
    ensures ChanKept(p, c in s.chans, c in EnableCategory(s, c, n).chans)
  {
    var e := Prov(Some(c), n, true);
    var j, k, t := |p.q| - |qs| - 1, |p.f| - |fs|, EnableCategory(s, c, n);
    SuffixTail(e, qs, p.q);
    EnableEffect(s, c, n);
    if Vain(p) {
      VainEnable(p, j, k, Cust(s, c), OffOf(s, c), c in s.cats, Cust(t, c));
    } else {
      SafeEnable(p, j, k, Cust(s, c), OffOf(s, c), c in s.cats);
    }
  }

  lemma NowDisable(p: Plan, c: string, s: State, n: Idp, qs: seq<Event>, fs: seq<Event>)
    requires Sound(p) && Consistent(s) && Spared(p) && Now(p, c, s, [Prov(Some(c), n, false)] + qs, fs)
    ensures Now(p, c, DisableCategory(s, c, n), qs, fs)
    ensures ChanKept(p, c in s.chans, c in DisableCategory(s, c, n).chans)
  {
    var e := Prov(Some(c), n, false);
    var j, k := |p.q| - |qs| - 1, |p.f| - |fs|;
    SuffixTail(e, qs, p.q);
    DisableEffect(s, c, n);
    if Vain(p) {
      VainDisable(p, j, k, Cust(s, c), OffOf(s, c), c in s.cats);
    } else {
      SafeDisable(p, j, k, Cust(s, c), OffOf(s, c), c in s.cats);
      if c !in s.cats { assert Cust(s, c) == {}; }
    }
  }

  lemma NowFlag(p: Plan, c: string, s: State, n: Idp, on: bool, qs: seq<Event>, fs: seq<Event>)
    requires Sound(p) && Consistent(s) && Now(p, c, s, qs, [Flag(c, n, on)] + fs)
    ensures Now(p, c, Apply(s, Flag(c, n, on)), qs, fs)
    ensures ChanKept(p, c in s.chans, c in Apply(s, Flag(c, n, on)).chans)
  {
    var j, k := |p.q| - |qs|, |p.f| - |fs| - 1;
    SuffixTail(Flag(c, n, on), fs, p.f);
    FlagEffect(s, c, n, on);
    if Vain(p) {
      VainFlag(p, j, k, Cust(s, c), OffOf(s, c), c in s.cats);
    } else {
      SafeFlag(p, j, k, Cust(s, c), OffOf(s, c), c in s.cats);
    }
  }

  lemma NowGlobal(p: Plan, c: string, s: State, i: nat, n: Idp, on: bool, qs: seq<Event>, fs: seq<Event>)
    requires Sound(p) && Consistent(s) && Spared(p) && Now(p, c, s, qs, fs)
    requires i < |p.g| && p.g[i] == Prov(None, n, on) && GlobalSet(s) == Toggled(p.globals, p.g, i)
    ensures Now(p, c, Apply(s, Prov(None, n, on)), qs, fs)
    ensures ChanKept(p, c in s.chans, c in Apply(s, Prov(None, n, on)).chans)
  {
    if on {
      GlobalOnEffect(s, n, c);
    } else {
      GlobalOffEffect(s, n, c);
      if !Vain(p) && IsFormSub(n) && n in s.global.form {
        SafeGlobal(p, |p.q| - |qs|, |p.f| - |fs|, i, Cust(s, c), OffOf(s, c), c in s.cats);
      }
    }
  }

  lemma NowElsewhere(p: Plan, c: string, s: State, e: Event, qs: seq<Event>, fs: seq<Event>)
    requires Sound(p) && Now(p, c, s, qs, fs) && Subject(e).Some? && (Subject(e) != Some(c) || e.Mark?)
    ensures Now(p, c, Apply(s, e), qs, fs)
    ensures Subject(e) != Some(c) ==> (c in Apply(s, e).chans <==> c in s.chans)
  {
    if Subject(e) != Some(c) {
      OthersUntouched(s, e, c);
    } else {
      MarkEffect(s, e);
      assert OffOf(Apply(s, e), c) == OffOf(s, c) && Cust(Apply(s, e), c) == Cust(s, c);
    }
  }

  // ----- The three goroutines -----------------------------------------------------------------

  /** What a list of a watcher's acts does about one category. */
  function Own(es: seq<Event>, c: string): seq<Event> {
    if es == [] then []
    else if Subject(es[0]) == Some(c) then [es[0]] + Own(es[1..], c)
    else Own(es[1..], c)
  }

  lemma {:induction false} OwnOnly(es: seq<Event>, c: string, t: Tag)
    requires !t.GlobalTag? && t.cat == c
    ensures Only(Own(es, c), t) == Only(es, t)
  {
    if es != [] {
      OwnOnly(es[1..], c, t);
      if Subject(es[0]) == Some(c) { assert Own(es, c)[1..] == Own(es[1..], c); }
    }
  }

  lemma {:induction false} AnyOnAt(q: seq<Event>, i: nat, j: nat)
    requires j < i <= |q| && On(q[j])
    ensures AnyOn(q, i)
  {
    if j < i - 1 { AnyOnAt(q, i - 1, j); }
  }

  predicate CatIn(p: Plan, c: string, s: State, y: System) {
    && Sound(p)
    && Now(p, c, s, Coming(y, CatTag(c)), Coming(y, FlagTag(c)))
    && ChansNow(p, c, c in s.chans, Own(y.categories, c))
  }

  predicate GlobalIn(globals: set<Idp>, g: seq<Event>, s: State, y: System) {
    && Plain(g) && IsSuffix(Coming(y, GlobalTag), g)
    && GlobalSet(s) == Toggled(globals, g, |g| - |Coming(y, GlobalTag)|)
  }

  lemma CatSends(p: Plan, c: string, s: State, y: System)
    requires WellKinded(y) && y.globals != [] && CatIn(p, c, s, y)
    ensures CatIn(p, c, s, GlobalSends(y))
  {
    GlobalSendsComing(y, CatTag(c));
    GlobalSendsComing(y, FlagTag(c));
  }

  /** The state after the categories watcher's next act. */
  function Acted(s: State, e: Event): State { if e.Mark? then Apply(s, e) else s }

  lemma CatActs(p: Plan, c: string, s: State, y: System)
    requires WellKinded(y) && y.categories != [] && CatIn(p, c, s, y)
    ensures CatIn(p, c, Acted(s, y.categories[0]), CategoryActs(y))
  {
    var e, s' := y.categories[0], Acted(s, y.categories[0]);
    CategoryActsComing(y, CatTag(c));
    CategoryActsComing(y, FlagTag(c));
    var qs, fs := Coming(y, CatTag(c)), Coming(y, FlagTag(c));
    if e.Mark? { NowElsewhere(p, c, s, e, qs, fs); }
    if Subject(e) == Some(c) {
      if e.Mark? { MarkEffect(s, e); }
      ChansStep(p, c, c in s.chans, e, Own(y.categories[1..], c));
    }
  }

  /** An enable is handled after it was sent, and it was sent while there were channels. */
  lemma EnableFindsChannels(p: Plan, c: string, s: State, y: System)
    requires WellKinded(y) && y.providers != [] && CatIn(p, c, s, y) && !Vain(p)
    requires TagOf(y.providers[0]) == CatTag(c) && On(y.providers[0])
    ensures c in s.chans
  {
    var e, qs, unsent := y.providers[0], Coming(y, CatTag(c)), Only(y.categories, CatTag(c));
    OnlyHead(y.providers, CatTag(c));
    OwnOnly(y.categories, c, CatTag(c));
    var j := |p.q| - |qs|;
    assert qs[0] == e && p.q[j..][0] == p.q[j];
    AnyOnAt(p.q, |p.q| - |unsent|, j);
  }

  lemma ChansAfter(p: Plan, c: string, chan: bool, chan': bool, r: seq<Event>)
    requires Sound(p) && ChansNow(p, c, chan, r) && ChanKept(p, chan, chan')
    ensures ChansNow(p, c, chan', r)
  {}

  lemma CatHandles(p: Plan, c: string, s: State, e: Event, qs: seq<Event>, fs: seq<Event>, i: nat)
    requires Sound(p) && Consistent(s) && Spared(p) && !e.Mark?
    requires Now(p, c, s, if TagOf(e) == CatTag(c) then [e] + qs else qs,
                 if TagOf(e) == FlagTag(c) then [e] + fs else fs)
    requires TagOf(e) == GlobalTag ==> i < |p.g| && p.g[i] == e && GlobalSet(s) == Toggled(p.globals, p.g, i)
    requires TagOf(e) == CatTag(c) && On(e) && !Vain(p) ==> c in s.chans
    ensures Now(p, c, Apply(s, e), qs, fs) && ChanKept(p, c in s.chans, c in Apply(s, e).chans)
  {
    match e
    case Prov(None, n, on) => NowGlobal(p, c, s, i, n, on, qs, fs);
    case Prov(Some(d), n, on) =>
      if d != c { NowElsewhere(p, c, s, e, qs, fs); }
      else if on { NowEnable(p, c, s, n, qs, fs); }
      else { NowDisable(p, c, s, n, qs, fs); }
    case Flag(d, n, on) => if d != c { NowElsewhere(p, c, s, e, qs, fs); } else { NowFlag(p, c, s, n, on, qs, fs); }
  }

  lemma CatReceives(p: Plan, c: string, s: State, y: System, flag: bool, i: nat)
    requires WellKinded(y) && CatIn(p, c, s, y) && Consistent(s) && Spared(p)
    requires if flag then y.flags != [] else y.providers != []
    requires var e := if flag then y.flags[0] else y.providers[0];
      TagOf(e) == GlobalTag ==> i < |p.g| && p.g[i] == e && GlobalSet(s) == Toggled(p.globals, p.g, i)
    ensures CatIn(p, c, Apply(s, if flag then y.flags[0] else y.providers[0]), Receives(y, flag))
  {
    var e := if flag then y.flags[0] else y.providers[0];
    var y' := Receives(y, flag);
    ReceivesComing(y, flag, CatTag(c));
    ReceivesComing(y, flag, FlagTag(c));
    assert !e.Mark? && (flag ==> e.Flag?) by { if flag { assert e in y.flags; } else { assert e in y.providers; } }
    if TagOf(e) == CatTag(c) && On(e) && !Vain(p) { EnableFindsChannels(p, c, s, y); }
    CatHandles(p, c, s, e, Coming(y', CatTag(c)), Coming(y', FlagTag(c)), i);
    ChansAfter(p, c, c in s.chans, c in Apply(s, e).chans, Own(y.categories, c));
  }

  // ----- Whole runs -----------------------------------------------------------------------------

  ghost predicate AllIn(start: Config, chs: seq<Change>, s: State, y: System) {
    && Consistent(s) && WellKinded(y)
    && GlobalIn(start.global, QueueAll(chs, GlobalTag), s, y)
    && forall c: string :: CatIn(PlanOf(start, chs, c), c, s, y)
  }

  ghost predicate AllSpared(start: Config, chs: seq<Change>)
    requires Chain(chs, start)
  {
    forall c: string :: !ExposedIn(start, chs, c)
  }

  ghost predicate ExposedIn(start: Config, chs: seq<Change>, c: string)
    requires Chain(chs, start)
  {
    PlanSound(start, chs, c);
    Exposed(PlanOf(start, chs, c))
  }

  lemma AllSends(start: Config, chs: seq<Change>, s: State, y: System)
    requires AllIn(start, chs, s, y) && y.globals != []
    ensures AllIn(start, chs, s, GlobalSends(y))
  {
    GlobalSendsComing(y, GlobalTag);
    forall c: string ensures CatIn(PlanOf(start, chs, c), c, s, GlobalSends(y)) {
      CatSends(PlanOf(start, chs, c), c, s, y);
    }
  }

  lemma GlobalActs(globals: set<Idp>, g: seq<Event>, s: State, y: System)
    requires WellKinded(y) && Consistent(s) && GlobalIn(globals, g, s, y) && y.categories != []
    ensures WellKinded(CategoryActs(y)) && Consistent(Acted(s, y.categories[0]))
    ensures GlobalIn(globals, g, Acted(s, y.categories[0]), CategoryActs(y))
  {
    var e := y.categories[0];
    CategoryActsComing(y, GlobalTag);
    if e.Mark? {
      StepKeepsConsistent(s, e);
      MarkEffect(s, e);
    }
  }

  lemma AllActs(start: Config, chs: seq<Change>, s: State, y: System)
    requires AllIn(start, chs, s, y) && y.categories != []
    ensures AllIn(start, chs, Acted(s, y.categories[0]), CategoryActs(y))
  {
    GlobalActs(start.global, QueueAll(chs, GlobalTag), s, y);
    forall c: string ensures CatIn(PlanOf(start, chs, c), c, Acted(s, y.categories[0]), CategoryActs(y)) {
      CatActs(PlanOf(start, chs, c), c, s, y);
    }
  }

  lemma GlobalReceives(globals: set<Idp>, g: seq<Event>, s: State, y: System, flag: bool)
    requires WellKinded(y) && Consistent(s) && GlobalIn(globals, g, s, y)
    requires if flag then y.flags != [] else y.providers != []
    ensures var e := if flag then y.flags[0] else y.providers[0];
      && GlobalIn(globals, g, Apply(s, e), Receives(y, flag))
      && var i := |g| - |Coming(y, GlobalTag)|;
         (TagOf(e) == GlobalTag ==> i < |g| && g[i] == e && GlobalSet(s) == Toggled(globals, g, i))
  {
    var e := if flag then y.flags[0] else y.providers[0];
    ReceivesComing(y, flag, GlobalTag);
    assert !e.Mark? by { if flag { assert e in y.flags; } else { assert e in y.providers; } }
    if TagOf(e) == GlobalTag {
      SuffixTail(e, Coming(Receives(y, flag), GlobalTag), g);
      GlobalSetEffect(s, e.idp, e.enabled);
    } else {
      OthersUntouched(s, e, if Subject(e).value == "" then "-" else "");
    }
  }

  lemma PlanReceives(p: Plan, c: string, s: State, y: System, flag: bool)
    requires Sound(p) && Spared(p) && WellKinded(y) && Consistent(s)
    requires GlobalIn(p.globals, p.g, s, y) && CatIn(p, c, s, y)
    requires if flag then y.flags != [] else y.providers != []
    ensures CatIn(p, c, Apply(s, if flag then y.flags[0] else y.providers[0]), Receives(y, flag))
  {
    GlobalReceives(p.globals, p.g, s, y, flag);
    CatReceives(p, c, s, y, flag, |p.g| - |Coming(y, GlobalTag)|);
  }

  lemma AllReceives(start: Config, chs: seq<Change>, s: State, y: System, flag: bool)
    requires Chain(chs, start) && AllSpared(start, chs) && AllIn(start, chs, s, y)
    requires if flag then y.flags != [] else y.providers != []
    ensures AllIn(start, chs, Apply(s, if flag then y.flags[0] else y.providers[0]), Receives(y, flag))
  {
    var e := if flag then y.flags[0] else y.providers[0];
    StepKeepsConsistent(s, e);
    ReceivesComing(y, flag, GlobalTag);
    GlobalReceives(start.global, QueueAll(chs, GlobalTag), s, y, flag);
    forall c: string ensures CatIn(PlanOf(start, chs, c), c, Apply(s, e), Receives(y, flag)) {
      assert !ExposedIn(start, chs, c) && CatIn(PlanOf(start, chs, c), c, s, y);
      PlanReceives(PlanOf(start, chs, c), c, s, y, flag);
    }
  }

  lemma SafeEnds(p: Plan, cust: set<Idp>, off: set<Idp>, scope: bool)
    requires Sound(p) && !Vain(p) && !Exposed(p) && SafeNow(p, |p.q|, |p.f|, cust, off, scope)
    ensures cust == CustomsAt(p, |p.q|) && off == Toggled(p.disabled, p.f, |p.f|) && scope && HadScope(p, |p.q|)
  {
    OnSomehow(p.customs, p.q, |p.q|);
  }

  lemma NowEnds(p: Plan, c: string, s: State)
    requires Sound(p) && Spared(p) && Now(p, c, s, [], []) && ChansNow(p, c, c in s.chans, [])
    ensures Cust(s, c) == CustomsAt(p, |p.q|) && OffOf(s, c) == Toggled(p.disabled, p.f, |p.f|)
    ensures (c in s.cats <==> !Vain(p)) && (c in s.chans <==> !Vain(p))
  {
    if !Vain(p) { SafeEnds(p, Cust(s, c), OffOf(s, c), c in s.cats); }
  }

  lemma CatEnds(start: Config, chs: seq<Change>, c: string, s: State, y: System)
    requires Chain(chs, start) && !ExposedIn(start, chs, c) && Work(y) == 0 && CatIn(PlanOf(start, chs, c), c, s, y)
    ensures CatSettled(s, Final(chs, start), c)
  {
    PlanSound(start, chs, c);
    NowEnds(PlanOf(start, chs, c), c, s);
  }

  lemma AllEnds(start: Config, chs: seq<Change>, s: State)
    requires Chain(chs, start) && AllSpared(start, chs) && AllIn(start, chs, s, IDLE)
    ensures Settled(s, Final(chs, start))
  {
    QueueAllToggles(start, chs, GlobalTag);
    forall c: string ensures CatSettled(s, Final(chs, start), c) {
      assert !ExposedIn(start, chs, c) && CatIn(PlanOf(start, chs, c), c, s, IDLE);
      CatEnds(start, chs, c, s, IDLE);
    }
  }

  lemma {:induction false} SparedSettles(start: Config, chs: seq<Change>, s: State, y: System, ts: seq<Turn>,
                                         es: seq<Event>)
    requires Chain(chs, start) && AllSpared(start, chs) && AllIn(start, chs, s, y) && Leads(y, ts, es, IDLE)
    ensures Settled(Run(s, es), Final(chs, start))
    decreases |ts|
  {
    if ts == [] {
      AllEnds(start, chs, s);
    } else {
      match ts[0]
      case Sends =>
        AllSends(start, chs, s, y);
        SparedSettles(start, chs, s, After(y, ts[0]), ts[1..], es);
      case Acts =>
        var e := y.categories[0];
        AllActs(start, chs, s, y);
        SparedSettles(start, chs, Acted(s, e), After(y, ts[0]), ts[1..], if e.Mark? then es[1..] else es);
      case Takes(flag) =>
        AllReceives(start, chs, s, y, flag);
        SparedSettles(start, chs, Apply(s, es[0]), After(y, ts[0]), ts[1..], es[1..]);
    }
  }

  // ----- Where a history starts -------------------------------------------------------------------

  function OwnAll(chs: seq<Change>, c: string): seq<Event> {
    if chs == [] then [] else CategoryScript(chs[0], c) + OwnAll(chs[1..], c)
  }

  /** Whatever was custom stays so, or something else is. */
  predicate Lasting(chs: seq<Change>, c: string) {
    chs == [] || ((Customs(chs[0].before, c) != {} ==> Customs(chs[0].after, c) != {}) && Lasting(chs[1..], c))
  }

  predicate NeverDrained(start: set<Idp>, q: seq<Event>)
    requires Plain(q)
  {
    forall j | 0 <= j < |q| :: !On(q[j]) && (start != {} || AnyOn(q, j)) ==> Toggled(start, q, j + 1) != {}
  }

  lemma {:induction false} NeverDrainedLasts(start: set<Idp>, q: seq<Event>, j: nat)
    requires Plain(q) && NeverDrained(start, q) && start != {} && j <= |q|
    ensures Toggled(start, q, j) != {}
  {
    if j != 0 {
      NeverDrainedLasts(start, q, j - 1);
      if On(q[j - 1]) { assert q[j - 1].idp in Toggled(start, q, j); }
    }
  }

  lemma NeverDrainedSplit(start: set<Idp>, a: seq<Event>, b: seq<Event>)
    requires Plain(a) && Plain(b) && Plain(a + b) && NeverDrained(start, a + b)
    ensures NeverDrained(start, a) && NeverDrained(Toggled(start, a, |a|), b)
  {
    forall j | 0 <= j < |a| && !On(a[j]) && (start != {} || AnyOn(a, j)) ensures Toggled(start, a, j + 1) != {} {
      ToggledPrefix(start, a, b, j);
      ToggledPrefix(start, a, b, j + 1);
      assert (a + b)[j] == a[j];
    }
    var x := Toggled(start, a, |a|);
    forall j | 0 <= j < |b| && !On(b[j]) && (x != {} || AnyOn(b, j)) ensures Toggled(x, b, j + 1) != {} {
      ToggledConcat(start, a, b, j);
      ToggledConcat(start, a, b, j + 1);
      assert (a + b)[|a| + j] == b[j];
      if x != {} { OnSomehow(start, a, |a|); }
    }
  }

  lemma {:induction false} NeverDrainedIsLasting(start: Config, chs: seq<Change>, c: string)
    requires Chain(chs, start) && Plain(QueueAll(chs, CatTag(c)))
    requires NeverDrained(Customs(start, c), QueueAll(chs, CatTag(c)))
    ensures Lasting(chs, c)
    decreases |chs|
  {
    if chs != [] {
      var a, b := Queue(chs[0], CatTag(c)), QueueAll(chs[1..], CatTag(c));
      QueueToggles(chs[0], CatTag(c));
      QueueAllToggles(chs[0].after, chs[1..], CatTag(c));
      NeverDrainedSplit(Customs(start, c), a, b);
      if Customs(start, c) != {} { NeverDrainedLasts(Customs(start, c), a, |a|); }
      NeverDrainedIsLasting(chs[0].after, chs[1..], c);
    }
  }

  predicate Mild(e: Event, c: string) { !e.Mark? && Subject(e) == Some(c) && (e.Prov? ==> !On(e)) }

  /** What is sent about a category is about it, and holds no enable if nothing is custom afterwards. */
  lemma PairAbout(ch: Change, c: string, n: Idp)
    ensures forall e <- PairSent(ch, c, n) ::
              !e.Mark? && Subject(e) == Some(c) && (Customs(ch.after, c) == {} ==> Mild(e, c))
  {}

  lemma PairsAbout(ch: Change, c: string)
    ensures forall e <- PairsSent(ch, c) ::
              !e.Mark? && Subject(e) == Some(c) && (Customs(ch.after, c) == {} ==> Mild(e, c))
  {
    PairAbout(ch, c, Local);
    PairAbout(ch, c, LDAP);
    PairAbout(ch, c, SAML);
    PairAbout(ch, c, Google);
  }

  lemma {:induction false} ReadyThrough(a: seq<Event>, b: seq<Event>, c: string, chan: bool)
    requires forall e <- a :: Mild(e, c)
    ensures Ready(a + b, chan) <==> Ready(b, chan)
  {
    if a == [] {
      assert a + b == b;
    } else {
      assert (a + b)[1..] == a[1..] + b && a[0] in a;
      ReadyThrough(a[1..], b, c, chan);
    }
  }

  lemma {:induction false} LastingNeverCloses(start: Config, chs: seq<Change>, c: string)
    requires Chain(chs, start) && Lasting(chs, c) && Customs(start, c) != {}
    ensures NoClose(OwnAll(chs, c))
    decreases |chs|
  {
    if chs != [] {
      PairsAbout(chs[0], c);
      LastingNeverCloses(chs[0].after, chs[1..], c);
    }
  }

  lemma ReadyUsed(c: string, pairs: seq<Event>, rest: seq<Event>, chan: bool)
    requires NoClose(pairs) && NoClose(rest)
    ensures Ready([Mark(c, true)] + pairs + [] + rest, chan)
  {
    var r := pairs + rest;
    FirmIsReady(r);
    assert [Mark(c, true)] + pairs + [] + rest == [Mark(c, true)] + r;
    assert ([Mark(c, true)] + r)[1..] == r;
  }

  lemma ReadyUnused(opening: seq<Event>, pairs: seq<Event>, closing: seq<Event>, rest: seq<Event>, c: string,
                    chan: bool)
    requires opening == [] || opening == [Mark(c, true)]
    requires closing == [] || closing == [Mark(c, false)]
    requires (forall e <- pairs :: Mild(e, c)) && Ready(rest, false) && Ready(rest, true)
    ensures Ready(opening + pairs + closing + rest, chan)
  {
    var tail := closing + rest;
    assert closing != [] ==> tail[1..] == rest;
    assert closing == [] ==> tail == rest;
    assert Ready(tail, false) && Ready(tail, true);
    ReadyThrough(pairs, tail, c, true);
    ReadyThrough(pairs, tail, c, chan);
    assert opening + pairs + closing + rest == opening + (pairs + tail);
    if opening == [] { assert opening + (pairs + tail) == pairs + tail; }
    else { assert (opening + (pairs + tail))[1..] == pairs + tail; }
  }

  lemma {:induction false} LastingIsReady(start: Config, chs: seq<Change>, c: string, chan: bool)
    requires Chain(chs, start) && Lasting(chs, c) && Customs(start, c) == {}
    ensures Ready(OwnAll(chs, c), chan)
    decreases |chs|
  {
    if chs != [] {
      var ch, rest := chs[0], OwnAll(chs[1..], c);
      PairsAbout(ch, c);
      if Customs(ch.after, c) == {} {
        LastingIsReady(ch.after, chs[1..], c, false);
        LastingIsReady(ch.after, chs[1..], c, true);
        ReadyUnused(Opening(ch, c), PairsSent(ch, c), Closing(ch, c), rest, c, chan);
      } else {
        LastingNeverCloses(ch.after, chs[1..], c);
        ReadyUsed(c, PairsSent(ch, c), rest, chan);
      }
    }
  }

  /** With nothing custom in the end, the last thing done about the channels is to delete them. */
  lemma {:induction false} EndsClosed(start: Config, chs: seq<Change>, c: string)
    requires Chain(chs, start) && Customs(Final(chs, start), c) == {}
    ensures var m := QueueAll(chs, MarkTag(c));
      if m == [] then Customs(start, c) == {} else m[|m| - 1] == Mark(c, false)
    decreases |chs|
  {
    if chs != [] {
      FinalTail(chs, start);
      EndsClosed(chs[0].after, chs[1..], c);
    }
  }

  lemma OwnHead(es: seq<Event>, c: string)
    requires es != []
    ensures Own(es, c) == (if Subject(es[0]) == Some(c) then [es[0]] else []) + Own(es[1..], c)
  {
    assert [] + Own(es[1..], c) == Own(es[1..], c);
  }

  lemma Associates(x: seq<Event>, a: seq<Event>, b: seq<Event>)
    ensures x + (a + b) == x + a + b
  {}

  lemma {:induction false} OwnConcat(a: seq<Event>, b: seq<Event>, c: string)
    ensures Own(a + b, c) == Own(a, c) + Own(b, c)
    decreases a
  {
    if a == [] {
      assert a + b == b;
    } else {
      OwnConcat(a[1..], b, c);
      assert (a + b)[1..] == a[1..] + b;
      OwnHead(a + b, c);
      OwnHead(a, c);
      Associates(if Subject(a[0]) == Some(c) then [a[0]] else [], Own(a[1..], c), Own(b, c));
    }
  }

  lemma {:induction false} OwnUniform(a: seq<Event>, d: string, c: string)
    requires forall e <- a :: Subject(e) == Some(d)
    ensures Own(a, c) == if d == c then a else []
  {
    if a != [] {
      assert a[0] in a;
      OwnUniform(a[1..], d, c);
    }
  }

  lemma OwnCategory(ch: Change, d: string, c: string)
    ensures Own(CategoryScript(ch, d), c) == if d == c then CategoryScript(ch, c) else []
  {
    PairsAbout(ch, d);
    OwnUniform(CategoryScript(ch, d), d, c);
  }

  lemma OwnOneOf(a: seq<Event>, b: seq<Event>, c: string)
    ensures Own(a, c) == [] ==> Own(a + b, c) == Own(b, c)
    ensures Own(b, c) == [] ==> Own(a + b, c) == Own(a, c)
  {
    OwnConcat(a, b, c);
    Around([], [], Own(a, c));
    Around([], [], Own(b, c));
  }

  lemma {:induction false} OwnScript(ch: Change, order: seq<string>, names: set<string>, c: string)
    requires Covers(order, names)
    ensures Own(Script(ch, order), c) == if c in names then CategoryScript(ch, c) else []
    decreases order
  {
    if order != [] {
      var rest, d := order[..|order| - 1], order[|order| - 1];
      CoversInit(order, names);
      OwnScript(ch, rest, names - {d}, c);
      OwnCategory(ch, d, c);
      OwnOneOf(Script(ch, rest), CategoryScript(ch, d), c);
    }
  }

  lemma NothingOwn(ch: Change, c: string)
    requires c !in ch.before.cats && c !in ch.after.cats
    ensures CategoryScript(ch, c) == []
  {
    assert forall n: Idp :: Sent(ch, CatTag(c), n) == [] && Sent(ch, FlagTag(c), n) == [];
  }

  /** What the categories watcher does over a history, visiting each change's categories in some order. */
  function ScriptAll(chs: seq<Change>, orders: seq<seq<string>>): seq<Event>
    requires |orders| == |chs|
  {
    if chs == [] then [] else Script(chs[0], orders[0]) + ScriptAll(chs[1..], orders[1..])
  }

  ghost predicate VisitOrders(chs: seq<Change>, orders: seq<seq<string>>) {
    |orders| == |chs| && forall i | 0 <= i < |chs| :: VisitOrder(chs[i], orders[i])
  }

  lemma {:induction false} OwnScriptAll(chs: seq<Change>, orders: seq<seq<string>>, c: string)
    requires VisitOrders(chs, orders)
    ensures Own(ScriptAll(chs, orders), c) == OwnAll(chs, c)
    decreases |chs|
  {
    if chs != [] {
      var ch := chs[0];
      assert VisitOrder(ch, orders[0]);
      OwnScript(ch, orders[0], ch.before.cats.Keys + ch.after.cats.Keys, c);
      if c !in ch.before.cats && c !in ch.after.cats { NothingOwn(ch, c); }
      OwnScriptAll(chs[1..], orders[1..], c);
      OwnConcat(Script(ch, orders[0]), ScriptAll(chs[1..], orders[1..]), c);
    }
  }

  lemma {:induction false} OnlyScriptAll(chs: seq<Change>, orders: seq<seq<string>>, t: Tag)
    requires VisitOrders(chs, orders)
    ensures Only(ScriptAll(chs, orders), t) == if t.GlobalTag? then [] else QueueAll(chs, t)
    decreases |chs|
  {
    if chs != [] {
      var ch := chs[0];
      assert VisitOrder(ch, orders[0]);
      OnlyScript(ch, orders[0], ch.before.cats.Keys + ch.after.cats.Keys, t);
      if !t.GlobalTag? && t.cat !in ch.before.cats && t.cat !in ch.after.cats { NothingSent(ch, t); }
      OnlyScriptAll(chs[1..], orders[1..], t);
      OnlyConcat(Script(ch, orders[0]), ScriptAll(chs[1..], orders[1..]), t);
    }
  }

  // ----- Every order of a spared history ----------------------------------------------------------

  /** A history announced without waiting: all that the two watchers will do, and nothing received yet. */
  function StartAll(chs: seq<Change>, orders: seq<seq<string>>): System
    requires |orders| == |chs|
  {
    System(QueueAll(chs, GlobalTag), ScriptAll(chs, orders), [], [])
  }

  /** `es` can happen when the changes of a history are announced one after the other, handled or not. */
  ghost predicate RealizableAll(chs: seq<Change>, es: seq<Event>) {
    exists orders: seq<seq<string>> :: VisitOrders(chs, orders) && Yields(StartAll(chs, orders), es)
  }

  lemma NowAtStart(p: Plan, c: string, s: State)
    requires Sound(p) && Cust(s, c) == p.customs && OffOf(s, c) == p.disabled && (c in s.cats <==> p.customs != {})
    ensures Now(p, c, s, p.q, p.f)
  {
    if n :| Vain(p) && n in p.customs { OffSomehow(p.customs, p.q, 0, |p.q|, n); }
  }

  lemma NotExposedIsLasting(start: Config, chs: seq<Change>, c: string)
    requires Chain(chs, start) && !ExposedIn(start, chs, c) && Customs(Final(chs, start), c) != {}
    ensures Lasting(chs, c)
  {
    var p := PlanOf(start, chs, c);
    PlanSound(start, chs, c);
    forall j | 0 <= j < |p.q| && !On(p.q[j]) && HadScope(p, j) ensures CustomsAt(p, j + 1) != {} {
      assert !Drained(p, j);
    }
    NeverDrainedIsLasting(start, chs, c);
  }

  /** What the watcher does about a category whose history does not expose it, from the first change to the last. */
  predicate WholeScript(p: Plan, c: string, r: seq<Event>, chan: bool)
    requires Sound(p)
  {
    && Only(r, CatTag(c)) == p.q
    && (chan <==> p.customs != {})
    && if Vain(p) then
         var m := Only(r, MarkTag(c));
         if m == [] then !chan else m[|m| - 1] == Mark(c, false)
       else if chan then NoClose(r) else Ready(r, chan)
  }

  lemma WholeScriptChans(p: Plan, c: string, r: seq<Event>, chan: bool)
    requires Sound(p) && WholeScript(p, c, r, chan)
    ensures ChansNow(p, c, chan, r)
  {
    assert p.q[0..] == p.q;
  }

  lemma OwnKept(start: Config, chs: seq<Change>, c: string)
    requires Chain(chs, start) && !ExposedIn(start, chs, c) && Customs(Final(chs, start), c) != {}
    ensures if Customs(start, c) != {} then NoClose(OwnAll(chs, c)) else Ready(OwnAll(chs, c), false)
  {
    NotExposedIsLasting(start, chs, c);
    if Customs(start, c) != {} { LastingNeverCloses(start, chs, c); } else { LastingIsReady(start, chs, c, false); }
  }

  lemma ChansAtStart(start: Config, chs: seq<Change>, orders: seq<seq<string>>, c: string, chan: bool)
    requires Chain(chs, start) && VisitOrders(chs, orders) && !ExposedIn(start, chs, c)
    requires chan <==> Customs(start, c) != {}
    ensures Sound(PlanOf(start, chs, c)) && ChansNow(PlanOf(start, chs, c), c, chan, Own(ScriptAll(chs, orders), c))
  {
    var k := ScriptAll(chs, orders);
    PlanSound(start, chs, c);
    OwnOnly(k, c, CatTag(c));
    OwnOnly(k, c, MarkTag(c));
    OnlyScriptAll(chs, orders, CatTag(c));
    OnlyScriptAll(chs, orders, MarkTag(c));
    OwnScriptAll(chs, orders, c);
    if Customs(Final(chs, start), c) == {} { EndsClosed(start, chs, c); } else { OwnKept(start, chs, c); }
    WholeScriptChans(PlanOf(start, chs, c), c, Own(k, c), chan);
  }

  lemma {:induction false} QueueAllTagged(chs: seq<Change>, t: Tag)
    ensures forall e <- QueueAll(chs, t) :: TagOf(e) == t
    decreases |chs|
  {
    if chs != [] {
      if !t.MarkTag? { QueuePending(chs[0], t, 4); }
      QueueAllTagged(chs[1..], t);
    }
  }

  lemma StartAllKinds(chs: seq<Change>, orders: seq<seq<string>>, t: Tag)
    requires VisitOrders(chs, orders)
    ensures WellKinded(StartAll(chs, orders)) && Coming(StartAll(chs, orders), t) == QueueAll(chs, t)
  {
    QueueAllTagged(chs, GlobalTag);
    OnlyUniform(QueueAll(chs, GlobalTag), GlobalTag, t);
    OnlyScriptAll(chs, orders, t);
    OnlyScriptAll(chs, orders, GlobalTag);
    NoneTagged(ScriptAll(chs, orders), GlobalTag);
  }

  lemma CatAtStart(start: Config, chs: seq<Change>, orders: seq<seq<string>>, c: string, s: State)
    requires Chain(chs, start) && VisitOrders(chs, orders) && !ExposedIn(start, chs, c) && CatSettled(s, start, c)
    ensures CatIn(PlanOf(start, chs, c), c, s, StartAll(chs, orders))
  {
    PlanSound(start, chs, c);
    StartAllKinds(chs, orders, CatTag(c));
    StartAllKinds(chs, orders, FlagTag(c));
    NowAtStart(PlanOf(start, chs, c), c, s);
    ChansAtStart(start, chs, orders, c, c in s.chans);
  }

  /** However the goroutines take their turns, a history that exposes no category settles. */
  lemma SparedHistorySettles(s: State, start: Config, chs: seq<Change>, es: seq<Event>)
    requires Settled(s, start) && Chain(chs, start) && AllSpared(start, chs) && RealizableAll(chs, es)
    ensures Settled(Run(s, es), Final(chs, start))
  {
    var orders :| VisitOrders(chs, orders) && Yields(StartAll(chs, orders), es);
    var ts: seq<Turn> :| Leads(StartAll(chs, orders), ts, es, IDLE);
    StartAllKinds(chs, orders, GlobalTag);
    QueueAllToggles(start, chs, GlobalTag);
    forall c: string ensures CatIn(PlanOf(start, chs, c), c, s, StartAll(chs, orders)) {
      assert !ExposedIn(start, chs, c) && CatSettled(s, start, c);
      CatAtStart(start, chs, orders, c, s);
    }
    SparedSettles(start, chs, s, StartAll(chs, orders), ts, es);
  }
}
