/**
  What one configuration change makes the watcher send, and where the manager ends
  up after it has handled those events in any order the two watchers, the provider
  channel and the disabled-flag channel allow.
*/
module ProviderConvergence {
  import opened Common
  import opened ProviderModel

  // ----- Configurations -------------------------------------------------------------

  /** One provider of a category: not mentioned, or its `disabled`, `config_source == custom` and own-config fields. */
  datatype Setting = Absent | Present(disabled: bool, custom: bool, configured: bool)

  datatype Category = Category(local: Setting, ldap: Setting, saml: Setting, google: Setting)

  datatype Config = Config(global: set<Idp>, cats: map<string, Category>)

  datatype Change = Change(before: Config, after: Config)

  function SettingOf(cat: Category, n: Idp): Setting {
    match n
    case Local => cat.local
    case LDAP => cat.ldap
    case SAML => cat.saml
    case Google => cat.google
  }

  predicate CustomOn(cat: Category, n: Idp) {
    var x := SettingOf(cat, n);
    x.Present? && !x.disabled && x.custom && (n.Local? || x.configured)
  }

  predicate DisabledIn(cat: Category, n: Idp) { SettingOf(cat, n).Present? && SettingOf(cat, n).disabled }

  /** The providers a category configures for itself. */
  function Customs(cfg: Config, c: string): set<Idp> {
    if c in cfg.cats then set n: Idp | CustomOn(cfg.cats[c], n) else {}
  }

  function Disabled(cfg: Config, c: string): set<Idp> {
    if c in cfg.cats then set n: Idp | DisabledIn(cfg.cats[c], n) else {}
  }

  // ----- What the watcher sends ----------------------------------------------------

  /** One queue per scope and channel, and per category what is done to its change channels. */
  datatype Tag = GlobalTag | CatTag(cat: string) | FlagTag(cat: string) | MarkTag(cat: string)

  function TagOf(e: Event): Tag {
    match e
    case Prov(None, _, _) => GlobalTag
    case Prov(Some(c), _, _) => CatTag(c)
    case Flag(c, _, _) => FlagTag(c)
    case Mark(c, _) => MarkTag(c)
  }

  /** A deleted category gets a disable for Local even when Local was not its own. */
  predicate Redundant(ch: Change, c: string, n: Idp) {
    && n.Local? && c in ch.before.cats && c !in ch.after.cats
    && SettingOf(ch.before.cats[c], n).Present? && !DisabledIn(ch.before.cats[c], n)
  }

  /** The switches a queue reports on, as one configuration has them. */
  function Switches(cfg: Config, t: Tag): set<Idp> {
    match t
    case GlobalTag => cfg.global
    case CatTag(c) => Customs(cfg, c)
    case FlagTag(c) => Disabled(cfg, c)
    case MarkTag(_) => {}
  }

  function EventFor(t: Tag, n: Idp, on: bool): (e: Event)
    requires !t.MarkTag?
    ensures !e.Mark? && e.idp == n && TagOf(e) == t
  {
    match t
    case GlobalTag => Prov(None, n, on)
    case CatTag(c) => Prov(Some(c), n, on)
    case FlagTag(c) => Flag(c, n, on)
  }

  predicate Differs(ch: Change, t: Tag, n: Idp) {
    (n in Switches(ch.before, t)) != (n in Switches(ch.after, t)) || (t.CatTag? && Redundant(ch, t.cat, n))
  }

  function Sent(ch: Change, t: Tag, n: Idp): seq<Event> {
    if Differs(ch, t, n) then [EventFor(t, n, n in Switches(ch.after, t))] else []
  }

  function Rank(n: Idp): nat {
    match n case Local => 0 case LDAP => 1 case SAML => 2 case Google => 3
  }

  /** The providers in the order in which a watcher compares them. */
  function Ranked(k: nat): (n: Idp)
    requires k < 4
    ensures Rank(n) == k
  {
    match k case 0 => Local case 1 => LDAP case 2 => SAML case _ => Google
  }

  /** What a change sends on one queue about its first `k` providers. */
  function QueueUpTo(ch: Change, t: Tag, k: nat): seq<Event>
    requires k <= 4
  {
    if k == 0 then [] else QueueUpTo(ch, t, k - 1) + Sent(ch, t, Ranked(k - 1))
  }

  /** The channels are created before the category's first event is sent and deleted, if at all, after its last. */
  function Opening(ch: Change, c: string): seq<Event> { if c in ch.after.cats then [Mark(c, true)] else [] }

  function Closing(ch: Change, c: string): seq<Event> {
    if (c in ch.before.cats || c in ch.after.cats) && Customs(ch.after, c) == {} then [Mark(c, false)] else []
  }

  function Marks(ch: Change, c: string): seq<Event> { Opening(ch, c) + Closing(ch, c) }

  function Queue(ch: Change, t: Tag): seq<Event> {
    if t.MarkTag? then Marks(ch, t.cat) else QueueUpTo(ch, t, 4)
  }

  function Only(es: seq<Event>, t: Tag): seq<Event> {
    if es == [] then []
    else if TagOf(es[0]) == t then [es[0]] + Only(es[1..], t)
    else Only(es[1..], t)
  }

  predicate Unopened(es: seq<Event>, c: string) { Mark(c, true) in Only(es, MarkTag(c)) }

  /** An event of a category whose channels are created only later. */
  predicate Early(e: Event, later: seq<Event>) {
    !e.Mark? && Subject(e).Some? && Unopened(later, Subject(e).value)
  }

  /** No event of a category is handled while its channels are still to be created. */
  predicate OpensFirst(es: seq<Event>) {
    es == [] || (OpensFirst(es[1..]) && !Early(es[0], es[1..]))
  }

  /** An order in which the events of one change may be handled, while the watchers may still be sending. */
  ghost predicate Schedule(ch: Change, es: seq<Event>) {
    OpensFirst(es) && forall t: Tag :: Only(es, t) == Queue(ch, t)
  }

  // ----- Where the manager should be ------------------------------------------------

  function GlobalSet(s: State): set<Idp> { s.global.own.Keys + s.global.form.Keys }

  function Cust(s: State, c: string): set<Idp> {
    if c in s.cats then s.cats[c].own.Keys + s.cats[c].custom else {}
  }

  /** Category `c` is as the configuration says, and says alone. */
  predicate CatSettled(s: State, cfg: Config, c: string) {
    && Cust(s, c) == Customs(cfg, c)
    && OffOf(s, c) == Disabled(cfg, c)
    && (c in s.cats <==> Customs(cfg, c) != {})
    && (c in s.chans <==> Customs(cfg, c) != {})
  }

  ghost predicate Settled(s: State, cfg: Config) {
    && Consistent(s)
    && GlobalSet(s) == cfg.global
    && forall c: string :: CatSettled(s, cfg, c)
  }

  /** Every old custom provider is announced before every new one: the scope empties in between. */
  predicate Late(ch: Change, c: string) {
    && Customs(ch.before, c) != {} && Customs(ch.after, c) != {}
    && forall k <- Customs(ch.before, c), m <- Customs(ch.after, c) :: Rank(k) < Rank(m)
  }

  /** LDAP goes from custom to disabled and Local becomes custom while the global Local goes away. */
  predicate Swap(ch: Change, c: string) {
    && Customs(ch.before, c) == {LDAP}
    && LDAP in Disabled(ch.after, c)
    && Local in Customs(ch.after, c)
    && Local in ch.before.global && Local !in ch.after.global
  }

  ghost predicate Safe(ch: Change) { forall c: string :: !Late(ch, c) && !Swap(ch, c) }

  // ----- The effect of one event on one category ------------------------------------

  lemma EnableEffect(s: State, c: string, n: Idp)
    requires Consistent(s)
    ensures var t := EnableCategory(s, c, n);
      && c in t.cats && t.chans == s.chans && OffOf(t, c) == OffOf(s, c) && t.global == s.global
      && Cust(t, c) == if c in s.chans then Cust(s, c) + {n} else Cust(s, c)
  {
    assert CatOk(s, c);
  }

  lemma EmptyIffNoCustom(s: State, sc: Scope, c: string)
    requires ScopeOk(sc, c, OffOf(s, c), s.global.form)
    ensures IsEmpty(sc) <==> sc.own.Keys + sc.custom == {}
  {
    assert sc.custom <= sc.form.Keys by {
      forall n | n in sc.custom ensures n in sc.form { assert n == Local || n == LDAP; }
    }
    assert sc.form.Keys !! sc.custom <==> sc.custom == {} by {
      if n :| n in sc.custom { assert n in sc.form.Keys * sc.custom; }
    }
    assert sc.own == map[] <==> sc.own.Keys == {};
  }

  lemma DisableEffect(s: State, c: string, n: Idp)
    requires Consistent(s)
    ensures var t := DisableCategory(s, c, n);
      && OffOf(t, c) == OffOf(s, c) && t.global == s.global
      && Cust(t, c) == Cust(s, c) - {n}
      && (c in t.cats <==> Cust(t, c) != {})
      && (c in t.chans <==> c in s.chans && (c !in s.cats || Cust(t, c) != {}))
  {
    assert CatOk(s, c);
    if c in s.cats {
      DisableOwnOk(s.global.form, n, s.cats[c], c, OffOf(s, c));
      var sc := DisableOwn(s.cats[c], OffOf(s, c), s.global.form, n);
      EmptyIffNoCustom(s, sc, c);
      assert sc.own.Keys + sc.custom == Cust(s, c) - {n};
    }
  }

  lemma GlobalSetEffect(s: State, n: Idp, on: bool)
    requires GlobalOk(s.global)
    ensures GlobalSet(Apply(s, Prov(None, n, on))) == if on then GlobalSet(s) + {n} else GlobalSet(s) - {n}
  {}

  lemma GlobalOnEffect(s: State, n: Idp, c: string)
    ensures var t := EnableGlobal(s, n);
      && OffOf(t, c) == OffOf(s, c) && Cust(t, c) == Cust(s, c) && t.chans == s.chans && (c in t.cats <==> c in s.cats)
  {}

  /** A global disable reaches a category's scope only if the scope has nothing of its own and inherits the provider. */
  lemma GlobalOffEffect(s: State, n: Idp, c: string)
    requires Consistent(s)
    ensures var t := DisableGlobal(s, n);
      && OffOf(t, c) == OffOf(s, c) && Cust(t, c) == Cust(s, c)
      && (c in t.cats ==> c in s.cats)
      && (c in t.chans <==> c in s.chans && (c in s.cats ==> c in t.cats))
      && (c in s.cats && c !in t.cats <==>
            c in s.cats && IsFormSub(n) && Cust(s, c) == {} && n !in OffOf(s, c) && n in s.global.form)
  {
    assert CatOk(s, c);
    if c in s.cats && IsFormSub(n) {
      UninheritOk(s.global.form, n, s.cats[c], c, OffOf(s, c));
      EmptyIffNoCustom(DisableGlobal(s, n), Uninherit(s.cats[c], n), c);
    }
  }

  lemma FlagEffect(s: State, c: string, n: Idp, on: bool)
    requires Consistent(s)
    ensures var t := Apply(s, Flag(c, n, on));
      && t.global == s.global && t.chans == s.chans && (c in t.cats <==> c in s.cats)
      && OffOf(t, c) == (if on then OffOf(s, c) + {n} else OffOf(s, c) - {n})
      && Cust(t, c) == if on && IsFormSub(n) then Cust(s, c) - {n} else Cust(s, c)
  {
    assert CatOk(s, c);
  }

  // ----- Queues ----------------------------------------------------------------------

  function Names(q: seq<Event>): set<Idp> { set e | e in q && !e.Mark? :: e.idp }

  predicate Ordered(q: seq<Event>)
    requires forall e <- q :: !e.Mark?
  {
    forall i, j :: 0 <= i < j < |q| ==> Rank(q[i].idp) < Rank(q[j].idp)
  }

  /** The rest of a queue: still ordered, and every event says what the new configuration wants. */
  predicate Pending(ch: Change, t: Tag, q: seq<Event>)
    requires !t.MarkTag?
  {
    && (forall e <- q :: !e.Mark?)
    && Ordered(q)
    && forall e <- q :: Differs(ch, t, e.idp) && e == EventFor(t, e.idp, e.idp in Switches(ch.after, t))
  }

  lemma PendingExtend(ch: Change, t: Tag, q: seq<Event>, n: Idp)
    requires !t.MarkTag?
    requires Pending(ch, t, q) && forall m <- Names(q) :: Rank(m) < Rank(n)
    ensures Pending(ch, t, q + Sent(ch, t, n))
    ensures Names(q + Sent(ch, t, n)) == Names(q) + if Differs(ch, t, n) then {n} else {}
  {
    forall i | 0 <= i < |q| ensures Rank(q[i].idp) < Rank(n) { assert q[i].idp in Names(q); }
  }

  lemma RanksDiffer(n: Idp, m: Idp)
    ensures Rank(n) == Rank(m) <==> n == m
  {}

  lemma {:induction false} QueuePending(ch: Change, t: Tag, k: nat)
    requires k <= 4 && !t.MarkTag?
    ensures Pending(ch, t, QueueUpTo(ch, t, k))
    ensures forall n: Idp :: n in Names(QueueUpTo(ch, t, k)) <==> Rank(n) < k && Differs(ch, t, n)
  {
    if k != 0 {
      var q, n := QueueUpTo(ch, t, k - 1), Ranked(k - 1);
      QueuePending(ch, t, k - 1);
      PendingExtend(ch, t, q, n);
      forall m: Idp ensures m in Names(q + Sent(ch, t, n)) <==> Rank(m) < k && Differs(ch, t, m) { RanksDiffer(m, n); }
    }
  }

  /** Handling the head of a queue leaves names that all rank higher. */
  lemma PendingTail(ch: Change, t: Tag, q: seq<Event>)
    requires !t.MarkTag?
    requires Pending(ch, t, q) && q != []
    ensures Pending(ch, t, q[1..])
    ensures q[0].idp !in Names(q[1..]) && Names(q) == Names(q[1..]) + {q[0].idp}
    ensures forall m <- Names(q[1..]) :: Rank(q[0].idp) < Rank(m)
  {
    assert q == [q[0]] + q[1..];
  }

  // ----- What holds while the events are being handled ---------------------------------

  /** The global scope, with the events of `g` still to come. */
  predicate GlobalMid(s: State, ch: Change, g: seq<Event>) {
    && Pending(ch, GlobalTag, g)
    && forall n: Idp :: n in GlobalSet(s) <==> n in if n in Names(g) then ch.before.global else ch.after.global
  }

  predicate OffMid(s: State, ch: Change, c: string, f: seq<Event>) {
    && Pending(ch, FlagTag(c), f)
    && forall n: Idp ::
         n in OffOf(s, c) <==> n in if n in Names(f) then Disabled(ch.before, c) else Disabled(ch.after, c)
  }

  /**
    One custom provider: settled once its event is handled; until then it is as
    before, unless its disabled flag was handled first and took it out of the Form.
  */
  predicate CustMid(c0: set<Idp>, c1: set<Idp>, d1: set<Idp>, k: set<Idp>, p: set<Idp>, f: set<Idp>, n: Idp) {
    && (n !in p ==> (n in k <==> n in c1))
    && (n in p && n in c1 ==> n !in k && n !in c0)
    && (n in p && n !in c1 && n in k ==> n in c0)
    && (n in p && n !in c1 && n !in k && n in c0 ==> IsFormSub(n) && n in d1 && n !in f)
  }

  /**
    A category while its events are being handled. `c0` and `c1` are its custom
    providers before and after, `d1` the ones disabled after, `k` the current custom
    ones, `p` and `f` the names still to come on the two channels.
  */
  predicate Mid(c0: set<Idp>, c1: set<Idp>, d1: set<Idp>, k: set<Idp>, p: set<Idp>, f: set<Idp>, exists_: bool) {
    && (forall n: Idp :: CustMid(c0, c1, d1, k, p, f, n))
    && (forall x <- c0, m <- p :: x !in c1 && x !in p ==> Rank(x) < Rank(m))
    && (k != {} ==> exists_)
    && (exists_ && k == {} ==> p != {} && c0 != {})
    && d1 !! c1
  }

  predicate First(n: Idp, p: set<Idp>) { n in p && forall m <- p :: m != n ==> Rank(n) < Rank(m) }

  lemma MidEnable(c0: set<Idp>, c1: set<Idp>, d1: set<Idp>, k: set<Idp>, p: set<Idp>, f: set<Idp>, e: bool, n: Idp)
    requires Mid(c0, c1, d1, k, p, f, e) && First(n, p) && n in c1
    ensures Mid(c0, c1, d1, k + {n}, p - {n}, f, true)
  {
    forall m: Idp ensures CustMid(c0, c1, d1, k + {n}, p - {n}, f, m) { assert CustMid(c0, c1, d1, k, p, f, m); }
  }

  predicate LateSets(c0: set<Idp>, c1: set<Idp>) {
    c0 != {} && c1 != {} && forall x <- c0, m <- c1 :: Rank(x) < Rank(m)
  }

  /**
    With nothing custom left and something custom still to come, either all of it comes late or LDAP was just
    disabled.
  */
  lemma NothingLeft(c0: set<Idp>, c1: set<Idp>, d1: set<Idp>, p: set<Idp>, f: set<Idp>)
    requires (forall n: Idp :: CustMid(c0, c1, d1, {}, p, f, n))
    requires (forall x <- c0, m <- p :: x !in c1 && x !in p ==> Rank(x) < Rank(m))
    requires c0 != {} && c1 != {}
    ensures LateSets(c0, c1) || (c0 == {LDAP} && LDAP in d1 && LDAP !in f && LDAP in p && Local in c1)
  {
    assert CustMid(c0, c1, d1, {}, p, f, Local) && CustMid(c0, c1, d1, {}, p, f, LDAP);
    assert CustMid(c0, c1, d1, {}, p, f, SAML) && CustMid(c0, c1, d1, {}, p, f, Google);
    forall x, m | x in c0 && m in c1 && Rank(x) >= Rank(m)
      ensures x == LDAP && m == Local && LDAP in p
    {
    }
  }

  lemma MidDisable(c0: set<Idp>, c1: set<Idp>, d1: set<Idp>, k: set<Idp>, p: set<Idp>, f: set<Idp>, e: bool, n: Idp)
    requires Mid(c0, c1, d1, k, p, f, e) && First(n, p) && n !in c1
    requires !LateSets(c0, c1) && (n in c0 || c1 == {})
    ensures Mid(c0, c1, d1, k - {n}, p - {n}, f, k - {n} != {}) && (c1 != {} ==> k - {n} != {})
  {
    forall m: Idp ensures CustMid(c0, c1, d1, k - {n}, p - {n}, f, m) { assert CustMid(c0, c1, d1, k, p, f, m); }
    if k - {n} == {} && c1 != {} {
      NothingLeft(c0, c1, d1, p - {n}, f);
      assert false;
    }
  }

  lemma MidFlag(c0: set<Idp>, c1: set<Idp>, d1: set<Idp>, k: set<Idp>, p: set<Idp>, f: set<Idp>, e: bool, n: Idp)
    requires Mid(c0, c1, d1, k, p, f, e) && n in f
    ensures Mid(c0, c1, d1, if n in d1 && IsFormSub(n) then k - {n} else k, p, f - {n}, e)
  {
    var k' := if n in d1 && IsFormSub(n) then k - {n} else k;
    forall m: Idp ensures CustMid(c0, c1, d1, k', p, f - {n}, m) { assert CustMid(c0, c1, d1, k, p, f, m); }
    if k' == {} && k != {} {
      assert CustMid(c0, c1, d1, k, p, f, n);
      assert n in k && n in p && n in c0;
    }
  }

  /** A category's channels, with `m` still to be done to them. */
  predicate ChanMid(c: string, c1: set<Idp>, m: seq<Event>, chan: bool) {
    && (m == [] || m == [Mark(c, false)] || m == [Mark(c, true), Mark(c, false)] || m == [Mark(c, true)])
    && (Mark(c, false) in m ==> c1 == {})
    && (Mark(c, true) in m && c1 == {} ==> Mark(c, false) in m)
    && (Mark(c, true) !in m && c1 != {} ==> chan)
    && (Mark(c, false) !in m && c1 == {} ==> !chan)
  }

  predicate CatMid(s: State, ch: Change, c: string, q: seq<Event>, f: seq<Event>, m: seq<Event>) {
    && Pending(ch, CatTag(c), q)
    && OffMid(s, ch, c, f)
    && Mid(Customs(ch.before, c), Customs(ch.after, c), Disabled(ch.after, c),
           Cust(s, c), Names(q), Names(f), c in s.cats)
    && ChanMid(c, Customs(ch.after, c), m, c in s.chans)
  }

  lemma CatEventStep(s: State, ch: Change, c: string, q: seq<Event>, f: seq<Event>, m: seq<Event>)
    requires Consistent(s) && CatMid(s, ch, c, q, f, m) && q != [] && !Late(ch, c) && Mark(c, true) !in m
    ensures CatMid(Apply(s, q[0]), ch, c, q[1..], f, m)
  {
    PendingTail(ch, CatTag(c), q);
    var n := q[0].idp;
    var c0, c1, d1 := Customs(ch.before, c), Customs(ch.after, c), Disabled(ch.after, c);
    assert Differs(ch, CatTag(c), n) && q[0] == Prov(Some(c), n, n in c1);
    assert Names(q[1..]) == Names(q) - {n};
    if n in c1 {
      EnableEffect(s, c, n);
      MidEnable(c0, c1, d1, Cust(s, c), Names(q), Names(f), c in s.cats, n);
    } else {
      DisableEffect(s, c, n);
      MidDisable(c0, c1, d1, Cust(s, c), Names(q), Names(f), c in s.cats, n);
    }
  }

  lemma FlagEventStep(s: State, ch: Change, c: string, q: seq<Event>, f: seq<Event>, m: seq<Event>)
    requires Consistent(s) && CatMid(s, ch, c, q, f, m) && f != []
    ensures CatMid(Apply(s, f[0]), ch, c, q, f[1..], m)
  {
    PendingTail(ch, FlagTag(c), f);
    var n := f[0].idp;
    var c0, c1, d1 := Customs(ch.before, c), Customs(ch.after, c), Disabled(ch.after, c);
    assert f[0] == Flag(c, n, n in d1);
    assert Names(f[1..]) == Names(f) - {n};
    FlagEffect(s, c, n, n in d1);
    MidFlag(c0, c1, d1, Cust(s, c), Names(q), Names(f), c in s.cats, n);
  }

  /** Creating or deleting channels touches nothing else. */
  lemma MarkEffect(s: State, e: Event)
    requires e.Mark?
    ensures var t := Apply(s, e);
      t.global == s.global && t.cats == s.cats && t.off == s.off
      && t.chans == if e.open then s.chans + {e.cat} else s.chans - {e.cat}
  {}

  lemma MarkEventStep(s: State, ch: Change, c: string, q: seq<Event>, f: seq<Event>, m: seq<Event>)
    requires CatMid(s, ch, c, q, f, m) && m != []
    ensures CatMid(Apply(s, m[0]), ch, c, q, f, m[1..])
  {
    MarkEffect(s, m[0]);
    assert OffOf(Apply(s, m[0]), c) == OffOf(s, c) && Cust(Apply(s, m[0]), c) == Cust(s, c);
  }

  lemma GlobalEventStep(s: State, ch: Change, c: string, g: seq<Event>, q: seq<Event>, f: seq<Event>, m: seq<Event>)
    requires Consistent(s) && GlobalMid(s, ch, g) && CatMid(s, ch, c, q, f, m) && g != []
    requires !Late(ch, c) && !Swap(ch, c)
    ensures CatMid(Apply(s, g[0]), ch, c, q, f, m)
  {
    var n := g[0].idp;
    assert Differs(ch, GlobalTag, n) && g[0] == Prov(None, n, n in ch.after.global);
    if n in ch.after.global {
      GlobalOnEffect(s, n, c);
    } else {
      GlobalOffEffect(s, n, c);
      if c in s.cats && c !in DisableGlobal(s, n).cats && Customs(ch.after, c) != {} {
        NothingLeft(Customs(ch.before, c), Customs(ch.after, c), Disabled(ch.after, c), Names(q), Names(f));
        assert false;
      }
    }
  }

  lemma GlobalMidStep(s: State, ch: Change, g: seq<Event>)
    requires Consistent(s) && GlobalMid(s, ch, g) && g != []
    ensures GlobalMid(Apply(s, g[0]), ch, g[1..])
  {
    PendingTail(ch, GlobalTag, g);
    assert g[0] == Prov(None, g[0].idp, g[0].idp in ch.after.global);
    GlobalSetEffect(s, g[0].idp, g[0].idp in ch.after.global);
  }

  predicate CatNow(s: State, ch: Change, es: seq<Event>, c: string) {
    CatMid(s, ch, c, Only(es, CatTag(c)), Only(es, FlagTag(c)), Only(es, MarkTag(c)))
  }

  ghost predicate AllMid(s: State, ch: Change, es: seq<Event>) {
    && Consistent(s) && OpensFirst(es)
    && GlobalMid(s, ch, Only(es, GlobalTag))
    && forall c: string :: CatNow(s, ch, es, c)
  }

  lemma OnlyHead(es: seq<Event>, t: Tag)
    requires es != []
    ensures TagOf(es[0]) == t ==> Only(es, t) == [es[0]] + Only(es[1..], t)
    ensures TagOf(es[0]) != t ==> Only(es, t) == Only(es[1..], t)
  {}

  lemma OtherEventStep(s: State, ch: Change, c: string, e: Event, q: seq<Event>, f: seq<Event>, m: seq<Event>)
    requires CatMid(s, ch, c, q, f, m) && Subject(e).Some? && Subject(e) != Some(c)
    ensures CatMid(Apply(s, e), ch, c, q, f, m)
  {
    OthersUntouched(s, e, c);
  }

  lemma CatMidStep(s: State, ch: Change, es: seq<Event>, c: string)
    requires Consistent(s) && es != [] && GlobalMid(s, ch, Only(es, GlobalTag)) && !Late(ch, c) && !Swap(ch, c)
    requires CatNow(s, ch, es, c) && OpensFirst(es)
    ensures CatNow(Apply(s, es[0]), ch, es[1..], c)
  {
    OnlyHead(es, CatTag(c));
    OnlyHead(es, FlagTag(c));
    OnlyHead(es, GlobalTag);
    OnlyHead(es, MarkTag(c));
    var q, f, m := Only(es, CatTag(c)), Only(es, FlagTag(c)), Only(es, MarkTag(c));
    if TagOf(es[0]) == GlobalTag { GlobalEventStep(s, ch, c, Only(es, GlobalTag), q, f, m); }
    else if TagOf(es[0]) == CatTag(c) { CatEventStep(s, ch, c, q, f, m); }
    else if TagOf(es[0]) == FlagTag(c) { FlagEventStep(s, ch, c, q, f, m); }
    else if TagOf(es[0]) == MarkTag(c) { MarkEventStep(s, ch, c, q, f, m); }
    else { OtherEventStep(s, ch, c, es[0], q, f, m); }
  }

  lemma AllMidStep(s: State, ch: Change, es: seq<Event>)
    requires AllMid(s, ch, es) && es != [] && Safe(ch)
    ensures AllMid(Apply(s, es[0]), ch, es[1..])
  {
    StepKeepsConsistent(s, es[0]);
    OnlyHead(es, GlobalTag);
    if TagOf(es[0]) == GlobalTag { GlobalMidStep(s, ch, Only(es, GlobalTag)); }
    forall c ensures CatNow(Apply(s, es[0]), ch, es[1..], c) { CatMidStep(s, ch, es, c); }
  }

  lemma CatMidEnd(s: State, ch: Change, c: string)
    requires CatMid(s, ch, c, [], [], [])
    ensures CatSettled(s, ch.after, c)
  {
    var c0, c1, d1 := Customs(ch.before, c), Customs(ch.after, c), Disabled(ch.after, c);
    assert Names([]) == {};
    forall n: Idp ensures n in Cust(s, c) <==> n in c1 { assert CustMid(c0, c1, d1, Cust(s, c), {}, {}, n); }
  }

  lemma AllMidEnd(s: State, ch: Change)
    requires AllMid(s, ch, [])
    ensures Settled(s, ch.after)
  {
    assert Names([]) == {};
    forall c ensures CatSettled(s, ch.after, c) {
      assert CatNow(s, ch, [], c);
      CatMidEnd(s, ch, c);
    }
  }

  lemma {:induction false} SafeRun(s: State, ch: Change, es: seq<Event>)
    requires AllMid(s, ch, es) && Safe(ch)
    ensures Settled(Run(s, es), ch.after)
    decreases es
  {
    if es == [] {
      AllMidEnd(s, ch);
    } else {
      AllMidStep(s, ch, es);
      SafeRun(Apply(s, es[0]), ch, es[1..]);
    }
  }

  lemma DisabledNotCustom(cfg: Config, c: string)
    ensures Disabled(cfg, c) !! Customs(cfg, c)
  {}

  lemma MidStart(ch: Change, c: string, p: set<Idp>, f: set<Idp>)
    requires forall n: Idp :: n in p <==> Differs(ch, CatTag(c), n)
    ensures var c0, c1 := Customs(ch.before, c), Customs(ch.after, c);
      Mid(c0, c1, Disabled(ch.after, c), c0, p, f, c0 != {})
  {
    DisabledNotCustom(ch.after, c);
    var c0, c1 := Customs(ch.before, c), Customs(ch.after, c);
    forall n: Idp ensures CustMid(c0, c1, Disabled(ch.after, c), c0, p, f, n) {
      assert Redundant(ch, c, n) ==> c1 == {};
      assert n in p <==> Differs(ch, CatTag(c), n);
    }
  }

  lemma CatMidStart(s: State, ch: Change, c: string)
    requires CatSettled(s, ch.before, c)
    ensures CatMid(s, ch, c, Queue(ch, CatTag(c)), Queue(ch, FlagTag(c)), Queue(ch, MarkTag(c)))
  {
    QueuePending(ch, CatTag(c), 4);
    QueuePending(ch, FlagTag(c), 4);
    MidStart(ch, c, Names(Queue(ch, CatTag(c))), Names(Queue(ch, FlagTag(c))));
  }

  /** Before the first event, everything is still as the old configuration has it. */
  lemma AllMidStart(s: State, ch: Change, es: seq<Event>)
    requires Settled(s, ch.before) && Schedule(ch, es)
    ensures AllMid(s, ch, es)
  {
    QueuePending(ch, GlobalTag, 4);
    assert Only(es, GlobalTag) == Queue(ch, GlobalTag);
    forall c ensures CatNow(s, ch, es, c) {
      assert CatSettled(s, ch.before, c);
      assert Only(es, MarkTag(c)) == Queue(ch, MarkTag(c));
      assert Only(es, CatTag(c)) == Queue(ch, CatTag(c)) && Only(es, FlagTag(c)) == Queue(ch, FlagTag(c));
      CatMidStart(s, ch, c);
    }
  }

  /** Whatever the order, a safe change ends where the new configuration says, whatever the old one was. */
  lemma SafeChangeSettles(s: State, ch: Change, es: seq<Event>)
    requires Settled(s, ch.before) && Schedule(ch, es) && Safe(ch)
    ensures Settled(Run(s, es), ch.after)
  {
    AllMidStart(s, ch, es);
    SafeRun(s, ch, es);
  }

  // ----- What goes wrong otherwise -----------------------------------------------------

  /** A category without change channels gains no provider until they are created again. */
  predicate Lost(s: State, c: string, n: Idp) { c !in s.chans && n !in Cust(s, c) }

  lemma LostStep(s: State, e: Event, c: string, n: Idp)
    requires Consistent(s) && Lost(s, c, n) && e != Mark(c, true)
    ensures Lost(Apply(s, e), c, n)
  {
    if Subject(e).Some? && Subject(e) != Some(c) { OthersUntouched(s, e, c); }
    else {
      match e
      case Prov(None, m, true) => GlobalOnEffect(s, m, c);
      case Prov(None, m, false) => GlobalOffEffect(s, m, c);
      case Prov(Some(_), m, true) => EnableEffect(s, c, m);
      case Prov(Some(_), m, false) => DisableEffect(s, c, m);
      case Flag(_, m, on) => FlagEffect(s, c, m, on);
      case Mark(_, _) => MarkEffect(s, e);
    }
  }

  lemma {:induction false} LostForGood(s: State, es: seq<Event>, c: string, n: Idp)
    requires Consistent(s) && Lost(s, c, n) && Mark(c, true) !in es
    ensures Lost(Run(s, es), c, n)
    decreases es
  {
    if es != [] {
      LostStep(s, es[0], c, n);
      StepKeepsConsistent(s, es[0]);
      LostForGood(Apply(s, es[0]), es[1..], c, n);
    }
  }

  /**
    In a late category only old providers are left, and the last of them takes the channels with it; before its
    channels are looked at nothing has happened to it.
  */
  predicate Doomed(ch: Change, c: string, k: set<Idp>, p: set<Idp>, exists_: bool, chan: bool, unopened: bool) {
    var c0 := Customs(ch.before, c);
    && k !! Customs(ch.after, c)
    && (chan ==> exists_ && k <= c0 * p && c0 * p != {})
    && (unopened ==> exists_ && k == c0 && c0 <= p)
  }

  predicate DoomedIn(s: State, ch: Change, c: string, q: seq<Event>, m: seq<Event>) {
    && Pending(ch, CatTag(c), q) && (m == [] || m == [Mark(c, true)])
    && Doomed(ch, c, Cust(s, c), Names(q), c in s.cats, c in s.chans, m != [])
  }

  lemma DoomedCatEvent(s: State, ch: Change, c: string, q: seq<Event>)
    requires Consistent(s) && Late(ch, c) && DoomedIn(s, ch, c, q, []) && q != []
    ensures DoomedIn(Apply(s, q[0]), ch, c, q[1..], [])
  {
    PendingTail(ch, CatTag(c), q);
    var n := q[0].idp;
    assert q[0] == Prov(Some(c), n, n in Customs(ch.after, c));
    if n in Customs(ch.after, c) {
      EnableEffect(s, c, n);
      if x :| x in Customs(ch.before, c) * Names(q) { assert Rank(x) < Rank(n); }
    } else {
      DisableEffect(s, c, n);
      if x :| x in Cust(s, c) - {n} { assert c in s.chans ==> x in Customs(ch.before, c) * Names(q[1..]); }
    }
  }

  lemma DoomedMark(s: State, ch: Change, c: string, q: seq<Event>, m: seq<Event>)
    requires Late(ch, c) && DoomedIn(s, ch, c, q, m) && m != []
    ensures DoomedIn(Apply(s, m[0]), ch, c, q, m[1..])
  {
    MarkEffect(s, m[0]);
    assert Customs(ch.before, c) * Names(q) == Customs(ch.before, c);
    assert Cust(Apply(s, m[0]), c) == Cust(s, c);
  }

  lemma DoomedFlag(s: State, ch: Change, c: string, e: Event, q: seq<Event>)
    requires Consistent(s) && DoomedIn(s, ch, c, q, []) && TagOf(e) == FlagTag(c)
    ensures DoomedIn(Apply(s, e), ch, c, q, [])
  {
    FlagEffect(s, c, e.idp, e.disabled);
  }

  lemma DoomedElsewhere(s: State, ch: Change, c: string, e: Event, q: seq<Event>, m: seq<Event>)
    requires Consistent(s) && Late(ch, c) && DoomedIn(s, ch, c, q, m) && Subject(e) != Some(c)
    ensures DoomedIn(Apply(s, e), ch, c, q, m)
  {
    match e
    case Prov(None, n, true) => GlobalOnEffect(s, n, c);
    case Prov(None, n, false) => GlobalOffEffect(s, n, c);
    case _ => OthersUntouched(s, e, c);
  }

  lemma {:induction false} LateLoses(s: State, ch: Change, c: string, es: seq<Event>)
    requires Consistent(s) && Late(ch, c) && OpensFirst(es)
    requires DoomedIn(s, ch, c, Only(es, CatTag(c)), Only(es, MarkTag(c)))
    ensures Cust(Run(s, es), c) !! Customs(ch.after, c)
    decreases es
  {
    if es != [] {
      OnlyHead(es, CatTag(c));
      OnlyHead(es, MarkTag(c));
      var q, m := Only(es, CatTag(c)), Only(es, MarkTag(c));
      if TagOf(es[0]) == CatTag(c) { DoomedCatEvent(s, ch, c, q); }
      else if TagOf(es[0]) == FlagTag(c) { DoomedFlag(s, ch, c, es[0], q); }
      else if TagOf(es[0]) == MarkTag(c) { DoomedMark(s, ch, c, q, m); }
      else { DoomedElsewhere(s, ch, c, es[0], q, m); }
      StepKeepsConsistent(s, es[0]);
      LateLoses(Apply(s, es[0]), ch, c, es[1..]);
    }
  }

  lemma DoomedStart(s: State, ch: Change, c: string)
    requires CatSettled(s, ch.before, c) && Late(ch, c)
    ensures DoomedIn(s, ch, c, Queue(ch, CatTag(c)), Queue(ch, MarkTag(c)))
  {
    QueuePending(ch, CatTag(c), 4);
    var c0, c1 := Customs(ch.before, c), Customs(ch.after, c);
    forall x | x in c0 ensures x !in c1 && x in Names(Queue(ch, CatTag(c))) {
      assert x in c1 ==> Rank(x) < Rank(x);
      assert Differs(ch, CatTag(c), x);
    }
    assert c0 * Names(Queue(ch, CatTag(c))) == c0;
  }

  /** No order saves a late category: the new configuration is not reached in any schedule. */
  lemma LateNeverSettles(s: State, ch: Change, c: string, es: seq<Event>)
    requires Settled(s, ch.before) && Schedule(ch, es) && Late(ch, c)
    ensures !Settled(Run(s, es), ch.after)
  {
    assert CatSettled(s, ch.before, c);
    assert Only(es, CatTag(c)) == Queue(ch, CatTag(c)) && Only(es, MarkTag(c)) == Queue(ch, MarkTag(c));
    DoomedStart(s, ch, c);
    LateLoses(s, ch, c, es);
    var n :| n in Customs(ch.after, c);
    assert n !in Cust(Run(s, es), c);
    assert !CatSettled(Run(s, es), ch.after, c);
  }

  datatype Kind = Globals | Categories | Flags | Channels

  function KindOf(t: Tag): Kind {
    match t case GlobalTag => Globals case CatTag(_) => Categories case FlagTag(_) => Flags case MarkTag(_) => Channels
  }

  function OfKind(es: seq<Event>, k: Kind): seq<Event> {
    if es == [] then []
    else if KindOf(TagOf(es[0])) == k then [es[0]] + OfKind(es[1..], k)
    else OfKind(es[1..], k)
  }

  lemma {:induction false} OnlyConcat(a: seq<Event>, b: seq<Event>, t: Tag)
    ensures Only(a + b, t) == Only(a, t) + Only(b, t)
  {
    if a == [] {
      assert a + b == b;
    } else {
      OnlyConcat(a[1..], b, t);
      assert (a + b)[1..] == a[1..] + b;
    }
  }

  lemma {:induction false} OnlyOfKind(es: seq<Event>, k: Kind, t: Tag)
    ensures Only(OfKind(es, k), t) == if KindOf(t) == k then Only(es, t) else []
    ensures forall e <- OfKind(es, k) :: KindOf(TagOf(e)) == k
  {
    if es != [] {
      OnlyOfKind(es[1..], k, t);
      if KindOf(TagOf(es[0])) == k { assert OfKind(es, k)[1..] == OfKind(es[1..], k); }
    }
  }

  lemma {:induction false} ChannelsOnly(s: State, es: seq<Event>)
    requires forall e <- es :: e.Mark?
    ensures Run(s, es) == s.(chans := Run(s, es).chans)
    decreases es
  {
    if es != [] {
      MarkEffect(s, es[0]);
      ChannelsOnly(Apply(s, es[0]), es[1..]);
    }
  }

  /** While only flags are handled the scope stays, and LDAP goes with its flag. */
  predicate SwapFlagsMid(s: State, ch: Change, c: string, f: seq<Event>) {
    && OffMid(s, ch, c, f)
    && c in s.cats && Cust(s, c) <= {LDAP} && (LDAP in Names(f) || LDAP !in Cust(s, c))
  }

  lemma SwapFlagStep(s: State, ch: Change, c: string, f: seq<Event>)
    requires Consistent(s) && LDAP in Disabled(ch.after, c) && SwapFlagsMid(s, ch, c, f) && f != []
    ensures SwapFlagsMid(Apply(s, f[0]), ch, c, f[1..]) && Apply(s, f[0]).global == s.global
  {
    PendingTail(ch, FlagTag(c), f);
    assert f[0] == Flag(c, f[0].idp, f[0].idp in Disabled(ch.after, c));
    FlagEffect(s, c, f[0].idp, f[0].disabled);
  }

  lemma SwapOtherStep(s: State, ch: Change, c: string, e: Event, f: seq<Event>)
    requires SwapFlagsMid(s, ch, c, f) && KindOf(TagOf(e)) == Flags && TagOf(e) != FlagTag(c)
    ensures SwapFlagsMid(Apply(s, e), ch, c, f) && Apply(s, e).global == s.global
  {
    OthersUntouched(s, e, c);
  }

  lemma {:induction false} SwapFlags(s: State, ch: Change, c: string, es: seq<Event>)
    requires Consistent(s) && LDAP in Disabled(ch.after, c)
    requires SwapFlagsMid(s, ch, c, Only(es, FlagTag(c))) && forall e <- es :: KindOf(TagOf(e)) == Flags
    ensures Consistent(Run(s, es)) && SwapFlagsMid(Run(s, es), ch, c, []) && Run(s, es).global == s.global
    decreases es
  {
    if es != [] {
      OnlyHead(es, FlagTag(c));
      StepKeepsConsistent(s, es[0]);
      if TagOf(es[0]) == FlagTag(c) { SwapFlagStep(s, ch, c, Only(es, FlagTag(c))); }
      else { SwapOtherStep(s, ch, c, es[0], Only(es, FlagTag(c))); }
      SwapFlags(Apply(s, es[0]), ch, c, es[1..]);
    }
  }

  /** While only global events are handled: the empty scope goes with the global Local. */
  lemma {:induction false} SwapGlobals(s: State, ch: Change, c: string, es: seq<Event>)
    requires Consistent(s) && Local !in ch.after.global
    requires Pending(ch, GlobalTag, Only(es, GlobalTag)) && forall e <- es :: KindOf(TagOf(e)) == Globals
    requires Cust(s, c) == {} && Local !in OffOf(s, c)
    requires c !in s.chans || (c in s.cats && Local in s.global.form && Local in Names(Only(es, GlobalTag)))
    ensures Consistent(Run(s, es)) && Lost(Run(s, es), c, Local)
    decreases es
  {
    var g := Only(es, GlobalTag);
    if es == [] {
      assert Names(g) == {};
    } else {
      OnlyHead(es, GlobalTag);
      PendingTail(ch, GlobalTag, g);
      var n := g[0].idp;
      assert g[0] == Prov(None, n, n in ch.after.global);
      if n in ch.after.global { GlobalOnEffect(s, n, c); } else { GlobalOffEffect(s, n, c); }
      StepKeepsConsistent(s, es[0]);
      SwapGlobals(Apply(s, es[0]), ch, c, es[1..]);
    }
  }

  lemma SwapStart(s: State, ch: Change, c: string)
    requires CatSettled(s, ch.before, c) && Swap(ch, c)
    ensures SwapFlagsMid(s, ch, c, Queue(ch, FlagTag(c)))
    ensures Local in Names(Queue(ch, GlobalTag)) && Pending(ch, GlobalTag, Queue(ch, GlobalTag))
    ensures Local !in Disabled(ch.after, c)
  {
    CatMidStart(s, ch, c);
    QueuePending(ch, FlagTag(c), 4);
    QueuePending(ch, GlobalTag, 4);
    DisabledNotCustom(ch.before, c);
    DisabledNotCustom(ch.after, c);
    assert Differs(ch, FlagTag(c), LDAP) && Differs(ch, GlobalTag, Local);
  }

  /** A swapped category loses its new Local when all flags are handled first, then the global events. */
  lemma SwapRun(s: State, ch: Change, c: string, ms: seq<Event>, fs: seq<Event>, gs: seq<Event>, cs: seq<Event>)
    requires Settled(s, ch.before) && Swap(ch, c) && forall e <- ms :: KindOf(TagOf(e)) == Channels
    requires Only(fs, FlagTag(c)) == Queue(ch, FlagTag(c)) && forall e <- fs :: KindOf(TagOf(e)) == Flags
    requires Only(gs, GlobalTag) == Queue(ch, GlobalTag) && forall e <- gs :: KindOf(TagOf(e)) == Globals
    requires forall e <- cs :: KindOf(TagOf(e)) == Categories
    ensures Local !in Cust(Run(s, ms + fs + gs + cs), c)
  {
    SwapChannels(s, ch, c, ms);
    SwapLoses(s, Run(s, ms), ch, c, fs, gs, cs);
    RunFour(s, ms, fs, gs, cs);
  }

  lemma RunFour(s: State, a: seq<Event>, b: seq<Event>, c: seq<Event>, d: seq<Event>)
    ensures Run(s, a + b + c + d) == Run(Run(Run(Run(s, a), b), c), d)
  {
    RunConcat(s, a, b);
    RunConcat(s, a + b, c);
    RunConcat(s, a + b + c, d);
  }

  lemma SwapChannels(s: State, ch: Change, c: string, ms: seq<Event>)
    requires Settled(s, ch.before) && Swap(ch, c) && forall e <- ms :: e.Mark?
    ensures Consistent(Run(s, ms)) && Run(s, ms).global == s.global
    ensures SwapFlagsMid(Run(s, ms), ch, c, Queue(ch, FlagTag(c)))
  {
    ChannelsOnly(s, ms);
    var s0 := Run(s, ms);
    assert Consistent(s0) by { forall d ensures CatOk(s0, d) { assert CatOk(s, d); } }
    assert CatSettled(s, ch.before, c);
    SwapStart(s, ch, c);
    assert OffOf(s0, c) == OffOf(s, c) && Cust(s0, c) == Cust(s, c);
  }

  lemma SwapLoses(s: State, s0: State, ch: Change, c: string, fs: seq<Event>, gs: seq<Event>, cs: seq<Event>)
    requires Settled(s, ch.before) && Swap(ch, c) && Consistent(s0) && s0.global == s.global
    requires SwapFlagsMid(s0, ch, c, Only(fs, FlagTag(c))) && forall e <- fs :: KindOf(TagOf(e)) == Flags
    requires Only(gs, GlobalTag) == Queue(ch, GlobalTag) && forall e <- gs :: KindOf(TagOf(e)) == Globals
    requires forall e <- cs :: KindOf(TagOf(e)) == Categories
    ensures Local !in Cust(Run(Run(Run(s0, fs), gs), cs), c)
  {
    assert CatSettled(s, ch.before, c);
    SwapStart(s, ch, c);
    SwapFlags(s0, ch, c, fs);
    var s1 := Run(s0, fs);
    assert Cust(s1, c) == {} && Local !in OffOf(s1, c) by { assert Names([]) == {}; }
    assert Local in s1.global.form by { assert Local in GlobalSet(s) && Local !in s.global.own; }
    SwapGlobals(s1, ch, c, gs);
    LostForGood(Run(s1, gs), cs, c, Local);
  }

  // ----- Concrete unsafe changes ---------------------------------------------------------

  const PLAIN := Present(false, false, false)
  const OWN := Present(false, true, true)
  const OFF := Present(true, true, true)

  /** One category moves its own LDAP to its own SAML: the enable is lost in every order. */
  lemma LdapToSamlIsLate()
    ensures Late(Change(Config({}, map["c" := Category(Absent, OWN, Absent, Absent)]),
                        Config({}, map["c" := Category(Absent, PLAIN, OWN, Absent)])), "c")
  {
    assert LDAP in Customs(Config({}, map["c" := Category(Absent, OWN, Absent, Absent)]), "c");
    assert SAML in Customs(Config({}, map["c" := Category(Absent, PLAIN, OWN, Absent)]), "c");
  }

  /** One category disables its own LDAP and takes a Local of its own while the global Local is switched off. */
  lemma LocalHandoverIsSwap()
    ensures var ch := Change(Config({Local}, map["c" := Category(Absent, OWN, Absent, Absent)]),
                             Config({}, map["c" := Category(OWN, OFF, Absent, Absent)]));
      Swap(ch, "c") && !Late(ch, "c")
  {
    var before := Config({Local}, map["c" := Category(Absent, OWN, Absent, Absent)]);
    assert Customs(before, "c") == {LDAP};
  }

  // ----- Whole histories -------------------------------------------------------------------

  /** Each change starts from the configuration the one before ended with. */
  predicate Chain(chs: seq<Change>, start: Config) {
    chs == [] || (chs[0].before == start && Chain(chs[1..], chs[0].after))
  }

  function Final(chs: seq<Change>, start: Config): Config { if chs == [] then start else chs[|chs| - 1].after }

  function RunAll(s: State, chs: seq<Change>, ess: seq<seq<Event>>): State
    requires |chs| == |ess|
    decreases |chs|
  {
    if chs == [] then s else RunAll(Run(s, ess[0]), chs[1..], ess[1..])
  }

  lemma InitSettled()
    ensures Settled(Init(), Config({}, map[]))
  {}

  /** After any number of safe changes, each handled in any order, only the last configuration matters. */
  lemma {:induction false} HistorySettles(s: State, start: Config, chs: seq<Change>, ess: seq<seq<Event>>)
    requires Settled(s, start) && Chain(chs, start) && |chs| == |ess|
    requires forall i :: 0 <= i < |chs| ==> Safe(chs[i]) && Schedule(chs[i], ess[i])
    ensures Settled(RunAll(s, chs, ess), Final(chs, start))
    decreases |chs|
  {
    if chs != [] {
      SafeChangeSettles(s, chs[0], ess[0]);
      HistorySettles(Run(s, ess[0]), chs[0].after, chs[1..], ess[1..]);
    }
  }
}
