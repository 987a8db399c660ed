/**
  The two configuration watchers and the manager as three goroutines. A watcher's run is the list of what it does to
  the state it shares with the manager, in order: send an event, or create or delete a category's change channels.
  Whatever the interleaving, the result is a schedule of the change.
*/
module ProviderWatcher {
  import opened Common
  import opened ProviderModel
  import opened ProviderConvergence

  // ----- What a watcher does ------------------------------------------------------------

  function PairSent(ch: Change, c: string, n: Idp): seq<Event> { Sent(ch, CatTag(c), n) + Sent(ch, FlagTag(c), n) }

  function PairsSent(ch: Change, c: string): seq<Event> {
    PairSent(ch, c, Local) + PairSent(ch, c, LDAP) + PairSent(ch, c, SAML) + PairSent(ch, c, Google)
  }

  function CategoryScript(ch: Change, c: string): seq<Event> { Opening(ch, c) + PairsSent(ch, c) + Closing(ch, c) }

  /** What the categories watcher does when it visits the categories in the given order. */
  function Script(ch: Change, order: seq<string>): seq<Event> {
    if order == [] then [] else Script(ch, order[..|order| - 1]) + CategoryScript(ch, order[|order| - 1])
  }

  /** The categories of the new configuration first, then the deleted ones. */
  ghost predicate VisitOrder(ch: Change, order: seq<string>) {
    && Covers(order, ch.before.cats.Keys + ch.after.cats.Keys)
    && forall i, j :: 0 <= i < j < |order| && order[i] !in ch.after.cats ==> order[j] !in ch.after.cats
  }

  lemma {:induction false} OnlyUniform(q: seq<Event>, u: Tag, t: Tag)
    requires forall e <- q :: TagOf(e) == u
    ensures Only(q, t) == if t == u then q else []
  {
    if q != [] { OnlyUniform(q[1..], u, t); }
  }

  lemma OnlyPair(ch: Change, c: string, n: Idp, t: Tag)
    ensures Only(PairSent(ch, c, n), t) == if t == CatTag(c) || t == FlagTag(c) then Sent(ch, t, n) else []
  {
    OnlyConcat(Sent(ch, CatTag(c), n), Sent(ch, FlagTag(c), n), t);
    OnlyUniform(Sent(ch, CatTag(c), n), CatTag(c), t);
    OnlyUniform(Sent(ch, FlagTag(c), n), FlagTag(c), t);
  }

  lemma FourSent(ch: Change, t: Tag)
    ensures QueueUpTo(ch, t, 4) == Sent(ch, t, Local) + Sent(ch, t, LDAP) + Sent(ch, t, SAML) + Sent(ch, t, Google)
  {
    assert QueueUpTo(ch, t, 1) == Sent(ch, t, Local);
    assert QueueUpTo(ch, t, 2) == Sent(ch, t, Local) + Sent(ch, t, LDAP);
  }

  lemma OnlyFour(a: seq<Event>, b: seq<Event>, c: seq<Event>, d: seq<Event>, t: Tag)
    ensures Only(a + b + c + d, t) == Only(a, t) + Only(b, t) + Only(c, t) + Only(d, t)
  {
    OnlyConcat(a + b + c, d, t);
    OnlyConcat(a + b, c, t);
    OnlyConcat(a, b, t);
  }

  lemma OnlyPairs(ch: Change, c: string, t: Tag)
    ensures Only(PairsSent(ch, c), t) == if t == CatTag(c) || t == FlagTag(c) then Queue(ch, t) else []
  {
    OnlyFour(PairSent(ch, c, Local), PairSent(ch, c, LDAP), PairSent(ch, c, SAML), PairSent(ch, c, Google), t);
    OnlyPair(ch, c, Local, t);
    OnlyPair(ch, c, LDAP, t);
    OnlyPair(ch, c, SAML, t);
    OnlyPair(ch, c, Google, t);
    FourSent(ch, t);
  }

  lemma OnlyThree(a: seq<Event>, b: seq<Event>, c: seq<Event>, t: Tag)
    ensures Only(a + b + c, t) == Only(a, t) + Only(b, t) + Only(c, t)
  {
    OnlyConcat(a + b, c, t);
    OnlyConcat(a, b, t);
  }

  lemma OnlyBetween(a: seq<Event>, b: seq<Event>, c: seq<Event>, u: Tag, t: Tag)
    requires (forall e <- a :: TagOf(e) == u) && (forall e <- c :: TagOf(e) == u) && Only(b, u) == []
    ensures Only(a + b + c, t) == if t == u then a + c else Only(b, t)
  {
    OnlyThree(a, b, c, t);
    OnlyUniform(a, u, t);
    OnlyUniform(c, u, t);
    Around(a, c, Only(b, t));
  }

  lemma Around(a: seq<Event>, c: seq<Event>, x: seq<Event>)
    ensures a + [] + c == a + c && [] + x + [] == x
  {}

  /** One category's queues, each whole and in order, and nothing else. */
  lemma OnlyCategory(ch: Change, c: string, t: Tag)
    ensures Only(CategoryScript(ch, c), t) == if !t.GlobalTag? && t.cat == c then Queue(ch, t) else []
  {
    OnlyPairs(ch, c, t);
    OnlyPairs(ch, c, MarkTag(c));
    OnlyBetween(Opening(ch, c), PairsSent(ch, c), Closing(ch, c), MarkTag(c), t);
  }

  lemma OnlyOneOf(a: seq<Event>, b: seq<Event>, t: Tag)
    ensures Only(a, t) == [] ==> Only(a + b, t) == Only(b, t)
    ensures Only(b, t) == [] ==> Only(a + b, t) == Only(a, t)
  {
    OnlyConcat(a, b, t);
    Around([], [], Only(a, t));
    Around([], [], Only(b, t));
  }

  lemma NothingSent(ch: Change, t: Tag)
    requires !t.GlobalTag? && t.cat !in ch.before.cats && t.cat !in ch.after.cats
    ensures Queue(ch, t) == []
  {
    FourSent(ch, t);
  }

  lemma CoversInit(order: seq<string>, names: set<string>)
    requires Covers(order, names) && order != []
    ensures var c := order[|order| - 1]; c in names && Covers(order[..|order| - 1], names - {c})
  {
    assert order == order[..|order| - 1] + [order[|order| - 1]];
  }

  lemma {:induction false} OnlyScript(ch: Change, order: seq<string>, names: set<string>, t: Tag)
    requires Covers(order, names)
    ensures Only(Script(ch, order), t) == if !t.GlobalTag? && t.cat in names then Queue(ch, t) else []
    decreases order
  {
    if order != [] {
      var rest, c := order[..|order| - 1], order[|order| - 1];
      CoversInit(order, names);
      OnlyScript(ch, rest, names - {c}, t);
      OnlyOneOf(Script(ch, rest), CategoryScript(ch, c), t);
      OnlyCategory(ch, c, t);
    }
  }

  // ----- Channels are created before anything is sent ------------------------------------

  lemma {:induction false} NoOpening(es: seq<Event>)
    requires forall c: string :: !Unopened(es, c)
    ensures OpensFirst(es)
  {
    if es != [] {
      forall c ensures !Unopened(es[1..], c) {
        assert !Unopened(es, c);
        OnlyHead(es, MarkTag(c));
      }
      NoOpening(es[1..]);
    }
  }

  predicate Untouched(es: seq<Event>, c: string) { Only(es, CatTag(c)) == [] && Only(es, FlagTag(c)) == [] }

  lemma {:induction false} OpensFirstConcat(a: seq<Event>, b: seq<Event>)
    requires OpensFirst(a) && OpensFirst(b) && forall c: string :: Unopened(b, c) ==> Untouched(a, c)
    ensures OpensFirst(a + b)
  {
    if a == [] {
      assert a + b == b;
    } else {
      assert (a + b)[1..] == a[1..] + b;
      forall c | Unopened(b, c) ensures Untouched(a[1..], c) {
        assert Untouched(a, c);
        OnlyHead(a, CatTag(c));
        OnlyHead(a, FlagTag(c));
      }
      OpensFirstConcat(a[1..], b);
      if Subject(a[0]).Some? && !a[0].Mark? {
        var c := Subject(a[0]).value;
        OnlyConcat(a[1..], b, MarkTag(c));
        assert !Untouched(a, c);
        assert !Unopened(b, c);
      }
    }
  }

  lemma OpenThen(c: string, rest: seq<Event>)
    requires OpensFirst(rest)
    ensures OpensFirst([Mark(c, true)] + rest)
  {
    assert ([Mark(c, true)] + rest)[1..] == rest;
  }

  lemma SendsOpensFirst(ch: Change, c: string)
    ensures OpensFirst(PairsSent(ch, c) + Closing(ch, c))
  {
    forall d ensures !Unopened(PairsSent(ch, c) + Closing(ch, c), d) {
      OnlyConcat(PairsSent(ch, c), Closing(ch, c), MarkTag(d));
      OnlyPairs(ch, c, MarkTag(d));
      OnlyUniform(Closing(ch, c), MarkTag(c), MarkTag(d));
    }
    NoOpening(PairsSent(ch, c) + Closing(ch, c));
  }

  lemma CategoryOpensFirst(ch: Change, c: string)
    ensures OpensFirst(CategoryScript(ch, c))
  {
    var rest := PairsSent(ch, c) + Closing(ch, c);
    SendsOpensFirst(ch, c);
    assert CategoryScript(ch, c) == Opening(ch, c) + rest;
    if c in ch.after.cats { OpenThen(c, rest); } else { assert Opening(ch, c) + rest == rest; }
  }

  lemma {:induction false} ScriptOpensFirst(ch: Change, order: seq<string>, names: set<string>)
    requires Covers(order, names)
    ensures OpensFirst(Script(ch, order))
    decreases order
  {
    if order != [] {
      var rest, c := order[..|order| - 1], order[|order| - 1];
      CoversInit(order, names);
      ScriptOpensFirst(ch, rest, names - {c});
      CategoryOpensFirst(ch, c);
      forall d | Unopened(CategoryScript(ch, c), d) ensures Untouched(Script(ch, rest), d) {
        OnlyCategory(ch, c, MarkTag(d));
        OnlyScript(ch, rest, names - {c}, CatTag(d));
        OnlyScript(ch, rest, names - {c}, FlagTag(d));
      }
      OpensFirstConcat(Script(ch, rest), CategoryScript(ch, c));
    }
  }

  // ----- Interleavings ----------------------------------------------------------------------

  /** What both watchers have still to do, and what is in the two channels. */
  datatype System = System(globals: seq<Event>, categories: seq<Event>, providers: seq<Event>, flags: seq<Event>)

  predicate WellKinded(y: System) {
    && (forall e <- y.globals :: TagOf(e) == GlobalTag) && (forall e <- y.categories :: TagOf(e) != GlobalTag)
    && (forall e <- y.providers :: e.Prov?) && (forall e <- y.flags :: e.Flag?)
  }

  function Work(y: System): nat { 2 * (|y.globals| + |y.categories|) + |y.providers| + |y.flags| }

  /** The global watcher sends. */
  function GlobalSends(y: System): (z: System)
    requires y.globals != []
    ensures Work(z) < Work(y)
  {
    y.(globals := y.globals[1..], providers := y.providers + [y.globals[0]])
  }

  /** The categories watcher sends, or creates or deletes channels. */
  function CategoryActs(y: System): (z: System)
    requires y.categories != []
    ensures Work(z) < Work(y)
  {
    var e, z := y.categories[0], y.(categories := y.categories[1..]);
    match e
    case Prov(_, _, _) => z.(providers := y.providers + [e])
    case Flag(_, _, _) => z.(flags := y.flags + [e])
    case Mark(_, _) => z
  }

  /** The manager receives from one of its channels. */
  function Receives(y: System, flag: bool): (z: System)
    requires if flag then y.flags != [] else y.providers != []
    ensures Work(z) < Work(y)
  {
    if flag then y.(flags := y.flags[1..]) else y.(providers := y.providers[1..])
  }

  /** Whose turn it is: the global watcher's, the categories watcher's, or the manager's with one of its channels. */
  datatype Turn = Sends | Acts | Takes(flag: bool)

  predicate May(y: System, t: Turn) {
    match t
    case Sends => y.globals != []
    case Acts => y.categories != []
    case Takes(flag) => if flag then y.flags != [] else y.providers != []
  }

  function After(y: System, t: Turn): System
    requires May(y, t)
  {
    match t
    case Sends => GlobalSends(y)
    case Acts => CategoryActs(y)
    case Takes(flag) => Receives(y, flag)
  }

  /** What a turn does to the manager or to the channel map, if it does. */
  function Emits(y: System, t: Turn): Option<Event>
    requires May(y, t)
  {
    match t
    case Sends => None
    case Acts => if y.categories[0].Mark? then Some(y.categories[0]) else None
    case Takes(flag) => Some(if flag then y.flags[0] else y.providers[0])
  }

  /** The turns lead from one system to another, and `es` happens on the way. */
  predicate Leads(y: System, ts: seq<Turn>, es: seq<Event>, z: System)
    decreases |ts|
  {
    if ts == [] then z == y && es == []
    else
      && May(y, ts[0])
      && match Emits(y, ts[0])
         case None => Leads(After(y, ts[0]), ts[1..], es, z)
         case Some(e) => es != [] && es[0] == e && Leads(After(y, ts[0]), ts[1..], es[1..], z)
  }

  ghost predicate Reaches(y: System, es: seq<Event>, z: System) { exists ts: seq<Turn> :: Leads(y, ts, es, z) }

  const IDLE := System([], [], [], [])

  /** `es` is what can happen to the manager and the channel map from here on, until nothing is left to do. */
  ghost predicate Yields(y: System, es: seq<Event>) { Reaches(y, es, IDLE) }

  function Happens(e: Option<Event>, es: seq<Event>): seq<Event> { if e.Some? then [e.value] + es else es }

  lemma LeadsFirst(y: System, t: Turn, ts: seq<Turn>, es: seq<Event>, z: System)
    requires May(y, t) && Leads(After(y, t), ts, es, z)
    ensures Leads(y, [t] + ts, Happens(Emits(y, t), es), z)
  {
    assert ([t] + ts)[1..] == ts;
    if Emits(y, t).Some? { assert ([Emits(y, t).value] + es)[1..] == es; }
  }

  lemma ReachesFirst(y: System, t: Turn, es: seq<Event>, z: System)
    requires May(y, t) && Reaches(After(y, t), es, z)
    ensures Reaches(y, Happens(Emits(y, t), es), z)
  {
    var ts: seq<Turn> :| Leads(After(y, t), ts, es, z);
    LeadsFirst(y, t, ts, es, z);
  }

  lemma ReachesItself(y: System)
    ensures Reaches(y, [], y)
  {
    assert Leads(y, [], [], y);
  }

  lemma HappensBefore(e: Option<Event>, a: seq<Event>, b: seq<Event>)
    ensures Happens(e, a) + b == Happens(e, a + b)
  {}

  lemma {:induction false} LeadsThen(y: System, ts: seq<Turn>, a: seq<Event>, x: System, b: seq<Event>, z: System)
    requires Leads(y, ts, a, x) && Reaches(x, b, z)
    ensures Reaches(y, a + b, z)
    decreases |ts|
  {
    if ts == [] {
      assert a + b == b;
    } else {
      var e := Emits(y, ts[0]);
      var rest := if e.Some? then a[1..] else a;
      LeadsThen(After(y, ts[0]), ts[1..], rest, x, b, z);
      ReachesFirst(y, ts[0], rest + b, z);
      HappensBefore(e, rest, b);
      if e.Some? { assert a == [a[0]] + a[1..]; }
    }
  }

  lemma ReachesThen(y: System, a: seq<Event>, x: System, b: seq<Event>, z: System)
    requires Reaches(y, a, x) && Reaches(x, b, z)
    ensures Reaches(y, a + b, z)
  {
    var ts: seq<Turn> :| Leads(y, ts, a, x);
    LeadsThen(y, ts, a, x, b, z);
  }

  function Start(ch: Change, order: seq<string>): System { System(Queue(ch, GlobalTag), Script(ch, order), [], []) }

  /** An order of events the three goroutines can produce for a change. */
  ghost predicate Realizable(ch: Change, es: seq<Event>) {
    exists order: seq<string> :: VisitOrder(ch, order) && Yields(Start(ch, order), es)
  }

  /** What is still to come of one queue. */
  function Coming(y: System, t: Tag): seq<Event> {
    match t
    case GlobalTag => Only(y.providers, t) + Only(y.globals, t)
    case CatTag(_) => Only(y.providers, t) + Only(y.categories, t)
    case FlagTag(_) => Only(y.flags, t) + Only(y.categories, t)
    case MarkTag(_) => Only(y.categories, t)
  }

  lemma OnlySnoc(q: seq<Event>, e: Event, t: Tag)
    ensures Only(q + [e], t) == if TagOf(e) == t then Only(q, t) + [e] else Only(q, t)
  {
    OnlyConcat(q, [e], t);
  }

  lemma GlobalSendsComing(y: System, t: Tag)
    requires WellKinded(y) && y.globals != []
    ensures WellKinded(GlobalSends(y)) && Coming(GlobalSends(y), t) == Coming(y, t)
  {
    OnlyHead(y.globals, t);
    OnlySnoc(y.providers, y.globals[0], t);
  }

  lemma CategoryActsComing(y: System, t: Tag)
    requires WellKinded(y) && y.categories != []
    ensures WellKinded(CategoryActs(y))
    ensures !y.categories[0].Mark? || t != TagOf(y.categories[0]) ==> Coming(CategoryActs(y), t) == Coming(y, t)
    ensures y.categories[0].Mark? && t == TagOf(y.categories[0]) ==>
      Coming(y, t) == [y.categories[0]] + Coming(CategoryActs(y), t)
  {
    OnlyHead(y.categories, t);
    OnlySnoc(y.providers, y.categories[0], t);
    OnlySnoc(y.flags, y.categories[0], t);
  }

  lemma ReceivesComing(y: System, flag: bool, t: Tag)
    requires WellKinded(y) && if flag then y.flags != [] else y.providers != []
    ensures WellKinded(Receives(y, flag))
    ensures var e := if flag then y.flags[0] else y.providers[0];
      Coming(y, t) == if TagOf(e) == t then [e] + Coming(Receives(y, flag), t) else Coming(Receives(y, flag), t)
  {
    if flag {
      OnlyHead(y.flags, t);
      assert y.flags[0].Flag?;
    } else {
      OnlyHead(y.providers, t);
      assert y.providers[0].Prov?;
    }
  }

  lemma TurnComing(y: System, u: Turn, t: Tag)
    requires WellKinded(y) && May(y, u)
    ensures WellKinded(After(y, u))
    ensures var e := Emits(y, u);
      Coming(y, t) == Happens(if e.Some? && TagOf(e.value) == t then e else None, Coming(After(y, u), t))
  {
    match u
    case Sends => GlobalSendsComing(y, t);
    case Acts => CategoryActsComing(y, t);
    case Takes(flag) => ReceivesComing(y, flag, t);
  }

  /** Every queue comes through whole and in order. */
  lemma {:induction false} YieldsQueue(y: System, ts: seq<Turn>, es: seq<Event>, t: Tag)
    requires WellKinded(y) && Leads(y, ts, es, IDLE)
    ensures Only(es, t) == Coming(y, t)
    decreases |ts|
  {
    if ts != [] {
      TurnComing(y, ts[0], t);
      var rest := if Emits(y, ts[0]).Some? then es[1..] else es;
      YieldsQueue(After(y, ts[0]), ts[1..], rest, t);
      if Emits(y, ts[0]).Some? { OnlyHead(es, t); }
    }
  }

  /** Nothing of a category whose channels are still to be created is in the channels. */
  ghost predicate NothingEarly(y: System) {
    OpensFirst(y.categories)
    && forall c: string :: Unopened(y.categories, c) ==>
         Only(y.providers, CatTag(c)) == [] && Only(y.flags, FlagTag(c)) == []
  }

  lemma GlobalSendsNothingEarly(y: System)
    requires WellKinded(y) && NothingEarly(y) && y.globals != []
    ensures NothingEarly(GlobalSends(y))
  {
    forall c | Unopened(y.categories, c) ensures Only(GlobalSends(y).providers, CatTag(c)) == [] {
      OnlySnoc(y.providers, y.globals[0], CatTag(c));
    }
  }

  lemma CategoryActsNothingEarly(y: System)
    requires WellKinded(y) && NothingEarly(y) && y.categories != []
    ensures NothingEarly(CategoryActs(y))
  {
    var e, z := y.categories[0], CategoryActs(y);
    forall c | Unopened(z.categories, c) ensures Only(z.providers, CatTag(c)) == [] && Only(z.flags, FlagTag(c)) == [] {
      OnlyHead(y.categories, MarkTag(c));
      assert Unopened(y.categories, c);
      OnlySnoc(y.providers, e, CatTag(c));
      OnlySnoc(y.flags, e, FlagTag(c));
    }
  }

  lemma ReceivesNothingEarly(y: System, flag: bool)
    requires WellKinded(y) && NothingEarly(y) && if flag then y.flags != [] else y.providers != []
    ensures NothingEarly(Receives(y, flag))
    ensures var e := if flag then y.flags[0] else y.providers[0];
      Subject(e).Some? ==> !Unopened(y.categories, Subject(e).value)
  {
    forall c | Unopened(y.categories, c)
      ensures Only(Receives(y, flag).providers, CatTag(c)) == [] && Only(Receives(y, flag).flags, FlagTag(c)) == []
    {
      if flag { OnlyHead(y.flags, FlagTag(c)); } else { OnlyHead(y.providers, CatTag(c)); }
    }
  }

  lemma TurnNothingEarly(y: System, u: Turn)
    requires WellKinded(y) && NothingEarly(y) && May(y, u)
    ensures NothingEarly(After(y, u))
    ensures var e := Emits(y, u);
      e.Some? && !e.value.Mark? && Subject(e.value).Some? ==> !Unopened(After(y, u).categories, Subject(e.value).value)
  {
    match u
    case Sends => GlobalSendsNothingEarly(y);
    case Acts => CategoryActsNothingEarly(y);
    case Takes(flag) => ReceivesNothingEarly(y, flag);
  }

  lemma {:induction false} YieldsOpensFirst(y: System, ts: seq<Turn>, es: seq<Event>)
    requires WellKinded(y) && NothingEarly(y) && Leads(y, ts, es, IDLE)
    ensures OpensFirst(es)
    decreases |ts|
  {
    if ts != [] {
      TurnNothingEarly(y, ts[0]);
      TurnComing(y, ts[0], GlobalTag);
      var y', e := After(y, ts[0]), Emits(y, ts[0]);
      YieldsOpensFirst(y', ts[1..], if e.Some? then es[1..] else es);
      if e.Some? && !e.value.Mark? && Subject(e.value).Some? {
        YieldsQueue(y', ts[1..], es[1..], MarkTag(Subject(e.value).value));
      }
    }
  }

  lemma StartKinds(ch: Change, order: seq<string>, t: Tag)
    requires VisitOrder(ch, order)
    ensures WellKinded(Start(ch, order)) && NothingEarly(Start(ch, order))
    ensures Coming(Start(ch, order), t) == Queue(ch, t)
  {
    var names := ch.before.cats.Keys + ch.after.cats.Keys;
    QueuePending(ch, GlobalTag, 4);
    OnlyUniform(Queue(ch, GlobalTag), GlobalTag, t);
    OnlyScript(ch, order, names, t);
    OnlyScript(ch, order, names, GlobalTag);
    NoneTagged(Script(ch, order), GlobalTag);
    ScriptOpensFirst(ch, order, names);
    if !t.GlobalTag? && t.cat !in names { NothingSent(ch, t); }
  }

  lemma {:induction false} NoneTagged(q: seq<Event>, t: Tag)
    requires Only(q, t) == []
    ensures forall e <- q :: TagOf(e) != t
  {
    if q != [] {
      NoneTagged(q[1..], t);
      assert q == [q[0]] + q[1..];
    }
  }

  /** Whatever the goroutines' interleaving, the manager handles a schedule of the change. */
  lemma RealizableIsSchedule(ch: Change, es: seq<Event>)
    requires Realizable(ch, es)
    ensures Schedule(ch, es)
  {
    var order: seq<string> :| VisitOrder(ch, order) && Yields(Start(ch, order), es);
    var ts: seq<Turn> :| Leads(Start(ch, order), ts, es, IDLE);
    StartKinds(ch, order, GlobalTag);
    YieldsOpensFirst(Start(ch, order), ts, es);
    forall t: Tag ensures Only(es, t) == Queue(ch, t) {
      StartKinds(ch, order, t);
      YieldsQueue(Start(ch, order), ts, es, t);
    }
  }

  // ----- The order that loses a swapped category ----------------------------------------------

  /** The global watcher may send some of its events at once. */
  lemma {:induction false} GlobalsReach(a: seq<Event>, y: System)
    ensures Reaches(y.(globals := a + y.globals), [], y.(providers := y.providers + a))
  {
    var z := y.(globals := a + y.globals);
    if a == [] {
      assert z == y && y.providers + a == y.providers;
      ReachesItself(y);
    } else {
      var y' := y.(providers := y.providers + [a[0]]);
      assert y'.providers + a[1..] == y.providers + a;
      GlobalsReach(a[1..], y');
      assert z.globals[1..] == a[1..] + y.globals;
      ReachesFirst(z, Sends, [], y.(providers := y.providers + a));
    }
  }

  /** What the channels have gained once the categories watcher has done some of its work. */
  function Gained(y: System, a: seq<Event>): System {
    y.(providers := y.providers + OfKind(a, Categories), flags := y.flags + OfKind(a, Flags))
  }

  lemma GainedStep(y: System, a: seq<Event>)
    requires a != [] && TagOf(a[0]) != GlobalTag
    ensures var y' := CategoryActs(y.(categories := a + y.categories));
      Gained(y'.(categories := y.categories), a[1..]) == Gained(y, a) && y'.categories == a[1..] + y.categories
  {
    var e := a[0];
    assert (a + y.categories)[1..] == a[1..] + y.categories;
    if e.Prov? {
      assert y.providers + [e] + OfKind(a[1..], Categories) == y.providers + ([e] + OfKind(a[1..], Categories));
    } else if e.Flag? {
      assert y.flags + [e] + OfKind(a[1..], Flags) == y.flags + ([e] + OfKind(a[1..], Flags));
    }
  }

  /** The categories watcher may do some of its work at once. */
  lemma {:induction false} CategoriesReach(a: seq<Event>, y: System)
    requires forall e <- a :: TagOf(e) != GlobalTag
    ensures Reaches(y.(categories := a + y.categories), OfKind(a, Channels), Gained(y, a))
    decreases a
  {
    var z := y.(categories := a + y.categories);
    if a == [] {
      assert z == y && Gained(y, a) == y;
      ReachesItself(y);
    } else {
      var y' := CategoryActs(z).(categories := y.categories);
      GainedStep(y, a);
      CategoriesReach(a[1..], y');
      assert After(z, Acts) == y'.(categories := a[1..] + y.categories);
      ReachesFirst(z, Acts, OfKind(a[1..], Channels), Gained(y, a));
    }
  }

  /** The manager may receive several events in a row from one channel. */
  lemma {:induction false} ReceivesReach(a: seq<Event>, flag: bool, y: System)
    ensures Reaches(if flag then y.(flags := a + y.flags) else y.(providers := a + y.providers), a, y)
  {
    var z := if flag then y.(flags := a + y.flags) else y.(providers := a + y.providers);
    if a == [] {
      assert z == y;
      ReachesItself(y);
    } else {
      ReceivesReach(a[1..], flag, y);
      assert (a + y.flags)[1..] == a[1..] + y.flags && (a + y.providers)[1..] == a[1..] + y.providers;
      ReachesFirst(z, Takes(flag), a[1..], y);
      assert [a[0]] + a[1..] == a;
    }
  }

  /**
    The watchers may get all their work done first, the categories watcher in two parts and the global one after each,
    and the manager may turn from one channel to the other in between.
  */
  function Order(k1: seq<Event>, k2: seq<Event>, g1: seq<Event>, g2: seq<Event>, d1: seq<Event>, d2: seq<Event>)
    : seq<Event>
  {
    OfKind(k1, Channels) + OfKind(k2, Channels) + OfKind(k1, Categories) + d1 + g1 + d2 + OfKind(k2, Categories) + g2
  }

  lemma SendsReach(k1: seq<Event>, k2: seq<Event>, g1: seq<Event>, g2: seq<Event>)
    requires (forall e <- k1 :: TagOf(e) != GlobalTag) && (forall e <- k2 :: TagOf(e) != GlobalTag)
    ensures Reaches(System(g1 + g2, k1 + k2, [], []), OfKind(k1, Channels) + OfKind(k2, Channels),
                    System([], [], OfKind(k1, Categories) + g1 + OfKind(k2, Categories) + g2,
                           OfKind(k1, Flags) + OfKind(k2, Flags)))
  {
    var m1, m2 := OfKind(k1, Channels), OfKind(k2, Channels);
    var c1, c2 := OfKind(k1, Categories), OfKind(k2, Categories);
    var f1, f2 := OfKind(k1, Flags), OfKind(k2, Flags);
    var y0 := System(g1 + g2, k1 + k2, [], []);
    var y1 := System(g1 + g2, k2, c1, f1);
    var y2 := System(g2, k2, c1 + g1, f1);
    var y3 := System(g2, [], c1 + g1 + c2, f1 + f2);
    CategoriesReach(k1, System(g1 + g2, k2, [], []));
    assert [] + c1 == c1 && [] + f1 == f1;
    GlobalsReach(g1, System(g2, k2, c1, f1));
    CategoriesReach(k2, System(g2, [], c1 + g1, f1));
    assert k2 + [] == k2;
    GlobalsReach(g2, System([], [], c1 + g1 + c2, f1 + f2));
    assert g2 + [] == g2;
    ReachesThen(y0, m1, y1, [], y2);
    assert m1 + [] == m1;
    ReachesThen(y0, m1, y2, m2, y3);
    ReachesThen(y0, m1 + m2, y3, [], System([], [], c1 + g1 + c2 + g2, f1 + f2));
    assert m1 + m2 + [] == m1 + m2;
  }

  lemma ReceivesThen(a: seq<Event>, flag: bool, y: System, b: seq<Event>, z: System)
    requires Reaches(y, b, z)
    ensures Reaches(if flag then y.(flags := a + y.flags) else y.(providers := a + y.providers), a + b, z)
  {
    ReceivesReach(a, flag, y);
    ReachesThen(if flag then y.(flags := a + y.flags) else y.(providers := a + y.providers), a, y, b, z);
  }

  lemma TakesReach(c1: seq<Event>, g1: seq<Event>, c2: seq<Event>, d1: seq<Event>, d2: seq<Event>)
    ensures Reaches(System([], [], c1 + (g1 + c2), d1 + d2), c1 + (d1 + (g1 + (d2 + c2))), IDLE)
  {
    ReceivesReach(c2, false, IDLE);
    assert c2 + [] == c2;
    ReceivesThen(d2, true, System([], [], c2, []), c2, IDLE);
    assert d2 + [] == d2;
    ReceivesThen(g1, false, System([], [], c2, d2), d2 + c2, IDLE);
    ReceivesThen(d1, true, System([], [], g1 + c2, d2), g1 + (d2 + c2), IDLE);
    ReceivesThen(c1, false, System([], [], g1 + c2, d1 + d2), d1 + (g1 + (d2 + c2)), IDLE);
  }

  lemma Regrouped(c1: seq<Event>, g1: seq<Event>, c2: seq<Event>, g2: seq<Event>, d1: seq<Event>, d2: seq<Event>)
    ensures c1 + (g1 + (c2 + g2)) == c1 + g1 + c2 + g2
    ensures c1 + (d1 + (g1 + (d2 + (c2 + g2)))) == c1 + d1 + g1 + d2 + c2 + g2
  {}

  lemma OrderYields(k1: seq<Event>, k2: seq<Event>, g1: seq<Event>, g2: seq<Event>, d1: seq<Event>, d2: seq<Event>)
    requires (forall e <- k1 :: TagOf(e) != GlobalTag) && (forall e <- k2 :: TagOf(e) != GlobalTag)
    requires OfKind(k1, Flags) + OfKind(k2, Flags) == d1 + d2
    ensures Yields(System(g1 + g2, k1 + k2, [], []), Order(k1, k2, g1, g2, d1, d2))
  {
    var m, c1, c2 := OfKind(k1, Channels) + OfKind(k2, Channels), OfKind(k1, Categories), OfKind(k2, Categories);
    SendsReach(k1, k2, g1, g2);
    TakesReach(c1, g1, c2 + g2, d1, d2);
    Regrouped(c1, g1, c2, g2, d1, d2);
    ReachesThen(System(g1 + g2, k1 + k2, [], []), m, System([], [], c1 + g1 + c2 + g2, d1 + d2),
                c1 + d1 + g1 + d2 + c2 + g2, IDLE);
    SixAfter(m, c1, d1, g1, d2, c2, g2);
  }

  lemma SixAfter(m: seq<Event>, a: seq<Event>, b: seq<Event>, c: seq<Event>, d: seq<Event>, e: seq<Event>,
                 f: seq<Event>)
    ensures m + (a + b + c + d + e + f) == m + a + b + c + d + e + f
  {}

  /** All channels are created and deleted, then all flags are handled, then the global events, then the categories'. */
  function FlagsThenGlobals(ch: Change, order: seq<string>): seq<Event> {
    var k := Script(ch, order);
    OfKind(k, Channels) + OfKind(k, Flags) + Queue(ch, GlobalTag) + OfKind(k, Categories)
  }

  lemma FlagsThenGlobalsYields(g: seq<Event>, k: seq<Event>)
    requires forall e <- k :: TagOf(e) != GlobalTag
    ensures Yields(System(g, k, [], []), OfKind(k, Channels) + OfKind(k, Flags) + g + OfKind(k, Categories))
  {
    var m, c, f := OfKind(k, Channels), OfKind(k, Categories), OfKind(k, Flags);
    OrderYields([], k, g, [], f, []);
    assert g + [] == g && [] + k == k && f + [] == f && [] + f == f;
    assert [] + m + [] + f + g + [] + c + [] == m + f + g + c;
  }

  lemma FlagsThenGlobalsIsRealizable(ch: Change, order: seq<string>)
    requires VisitOrder(ch, order)
    ensures Realizable(ch, FlagsThenGlobals(ch, order))
  {
    StartKinds(ch, order, GlobalTag);
    FlagsThenGlobalsYields(Queue(ch, GlobalTag), Script(ch, order));
    assert VisitOrder(ch, order) && Yields(Start(ch, order), FlagsThenGlobals(ch, order));
  }

  lemma FlagsThenGlobalsLoses(s: State, ch: Change, c: string, order: seq<string>)
    requires Settled(s, ch.before) && Swap(ch, c) && VisitOrder(ch, order)
    ensures !Settled(Run(s, FlagsThenGlobals(ch, order)), ch.after)
  {
    var g, k := Queue(ch, GlobalTag), Script(ch, order);
    var names := ch.before.cats.Keys + ch.after.cats.Keys;
    OnlyOfKind(k, Channels, MarkTag(c));
    OnlyOfKind(k, Flags, FlagTag(c));
    OnlyOfKind(k, Categories, CatTag(c));
    OnlyScript(ch, order, names, FlagTag(c));
    QueuePending(ch, GlobalTag, 4);
    OnlyUniform(g, GlobalTag, GlobalTag);
    SwapRun(s, ch, c, OfKind(k, Channels), OfKind(k, Flags), g, OfKind(k, Categories));
    assert !CatSettled(Run(s, FlagsThenGlobals(ch, order)), ch.after, c);
  }

  lemma SomeVisitOrder(ch: Change) returns (order: seq<string>)
    ensures VisitOrder(ch, order)
  {
    var kept := SomeOrder(ch.after.cats.Keys);
    var gone := SomeOrder(ch.before.cats.Keys - ch.after.cats.Keys);
    order := kept + gone;
    KeptThenGone(ch, kept, gone);
  }

  lemma KeptThenGone(ch: Change, kept: seq<string>, gone: seq<string>)
    requires Covers(kept, ch.after.cats.Keys) && Covers(gone, ch.before.cats.Keys - ch.after.cats.Keys)
    ensures VisitOrder(ch, kept + gone)
  {
    var order := kept + gone;
    forall i | 0 <= i < |order| ensures order[i] in ch.after.cats <==> i < |kept| {
      if i < |kept| { assert kept[i] in kept; } else { assert gone[i - |kept|] in gone; }
    }
    forall i, j | 0 <= i < j < |order| ensures order[i] != order[j] {
      if i < |kept| <= j { assert order[i] in ch.after.cats && order[j] !in ch.after.cats; }
    }
  }

  /**
    The exact condition, which a caller can read off the two configurations: from any settled state a change reaches the
    new configuration in every order the goroutines can produce if and only if it is safe.
  */
  lemma ReloadSettlesIffSafe(s: State, ch: Change)
    requires Settled(s, ch.before)
    ensures Safe(ch) <==> forall es: seq<Event> :: Realizable(ch, es) ==> Settled(Run(s, es), ch.after)
  {
    if Safe(ch) {
      forall es: seq<Event> | Realizable(ch, es) ensures Settled(Run(s, es), ch.after) {
        RealizableIsSchedule(ch, es);
        SafeChangeSettles(s, ch, es);
      }
    } else {
      var c :| Late(ch, c) || Swap(ch, c);
      var order := SomeVisitOrder(ch);
      var es := FlagsThenGlobals(ch, order);
      FlagsThenGlobalsIsRealizable(ch, order);
      if Late(ch, c) {
        RealizableIsSchedule(ch, es);
        LateNeverSettles(s, ch, c, es);
      } else {
        FlagsThenGlobalsLoses(s, ch, c, order);
      }
    }
  }

  // ----- The watchers' code -----------------------------------------------------------------

  lemma HasProviders(cfg: Config, c: string)
    requires c in cfg.cats
    ensures Customs(cfg, c) != {} <==> exists n <- [Local, LDAP, SAML, Google] :: CustomOn(cfg.cats[c], n)
  {
    if n :| n in Customs(cfg, c) { assert n in [Local, LDAP, SAML, Google]; }
    if n :| n in [Local, LDAP, SAML, Google] && CustomOn(cfg.cats[c], n) { assert n in Customs(cfg, c); }
  }

  function PairAfter(q: seq<Event>, ch: Change, c: string, n: Idp): seq<Event> {
    q + Sent(ch, CatTag(c), n) + Sent(ch, FlagTag(c), n)
  }

  function PairsAfter(q: seq<Event>, ch: Change, c: string): seq<Event> {
    PairAfter(PairAfter(PairAfter(PairAfter(q, ch, c, Local), ch, c, LDAP), ch, c, SAML), ch, c, Google)
  }

  lemma FourAfter(q: seq<Event>, a: seq<Event>, b: seq<Event>, c: seq<Event>, d: seq<Event>)
    ensures q + a + b + c + d == q + (a + b + c + d)
  {}

  lemma PairsAfterIs(q: seq<Event>, ch: Change, c: string)
    ensures PairsAfter(q, ch, c) == q + PairsSent(ch, c)
  {
    var q1 := q + PairSent(ch, c, Local);
    var q2 := q1 + PairSent(ch, c, LDAP);
    var q3 := q2 + PairSent(ch, c, SAML);
    assert PairAfter(q, ch, c, Local) == q1;
    assert PairAfter(q1, ch, c, LDAP) == q2;
    assert PairAfter(q2, ch, c, SAML) == q3;
    assert PairAfter(q3, ch, c, Google) == q3 + PairSent(ch, c, Google);
    FourAfter(q, PairSent(ch, c, Local), PairSent(ch, c, LDAP), PairSent(ch, c, SAML), PairSent(ch, c, Google));
  }

  function CategoryAfter(q: seq<Event>, ch: Change, c: string): seq<Event> {
    PairsAfter(q + Opening(ch, c), ch, c) + Closing(ch, c)
  }

  lemma ThreeAfter(q: seq<Event>, a: seq<Event>, b: seq<Event>, c: seq<Event>)
    ensures q + a + b + c == q + (a + b + c)
  {}

  lemma CategoryAfterIs(q: seq<Event>, ch: Change, c: string)
    ensures CategoryAfter(q, ch, c) == q + CategoryScript(ch, c)
  {
    PairsAfterIs(q + Opening(ch, c), ch, c);
    ThreeAfter(q, Opening(ch, c), PairsSent(ch, c), Closing(ch, c));
  }

  lemma VisitStep(q: seq<Event>, ch: Change, order: seq<string>, i: nat)
    requires i < |order|
    ensures CategoryAfter(q + Script(ch, order[..i]), ch, order[i]) == q + Script(ch, order[..i + 1])
  {
    var done, more := Script(ch, order[..i]), CategoryScript(ch, order[i]);
    CategoryAfterIs(q + done, ch, order[i]);
    assert q + done + more == q + (done + more) by { TwoAfter(q, done, more); }
    ScriptStep(ch, order, i);
  }

  lemma TwoAfter(q: seq<Event>, a: seq<Event>, b: seq<Event>)
    ensures q + a + b == q + (a + b)
  {}

  lemma ScriptStep(ch: Change, order: seq<string>, i: nat)
    requires i < |order|
    ensures Script(ch, order[..i + 1]) == Script(ch, order[..i]) + CategoryScript(ch, order[i])
  {
    assert order[..i + 1][..i] == order[..i];
  }

  /** One watcher goroutine, with what it has done to the shared state so far. */
  class Goroutine {
    var done: seq<Event>

    constructor ()
      ensures done == []
    {
      done := [];
    }

    method NotifyProvider(scope: Option<string>, n: Idp, was: bool, now: bool)
      modifies this
      ensures done == old(done) + if was == now then [] else [Prov(scope, n, now)]
    {
      if was == now { return; }
      done := done + [Prov(scope, n, now)];
    }

    method NotifyDisabled(c: string, n: Idp, was: bool, now: bool)
      modifies this
      ensures done == old(done) + if was == now then [] else [Flag(c, n, now)]
    {
      if was == now { return; }
      done := done + [Flag(c, n, now)];
    }

    method HandleGlobalChange(ch: Change)
      modifies this
      ensures done == old(done) + Queue(ch, GlobalTag)
    {
      ghost var t := GlobalTag;
      FourSent(ch, t);
      FourAfter(done, Sent(ch, t, Local), Sent(ch, t, LDAP), Sent(ch, t, SAML), Sent(ch, t, Google));
      NotifyProvider(None, Local, Local in ch.before.global, Local in ch.after.global);
      NotifyProvider(None, LDAP, LDAP in ch.before.global, LDAP in ch.after.global);
      NotifyProvider(None, SAML, SAML in ch.before.global, SAML in ch.after.global);
      NotifyProvider(None, Google, Google in ch.before.global, Google in ch.after.global);
    }

    /** One provider of a category of the new configuration, compared with what the old one had for it. */
    method AnnounceProvider(ch: Change, c: string, n: Idp)
      requires c in ch.after.cats
      modifies this
      ensures done == PairAfter(old(done), ch, c, n)
    {
      var cfg := if c in ch.before.cats then ch.before.cats[c] else Category(Absent, Absent, Absent, Absent);
      var newCfg := ch.after.cats[c];
      NotifyProvider(Some(c), n, CustomOn(cfg, n), CustomOn(newCfg, n));
      NotifyDisabled(c, n, DisabledIn(cfg, n), DisabledIn(newCfg, n));
    }

    /** The channels are created before anything is sent, and deleted at the end if nothing needs them. */
    method AnnounceCategory(ch: Change, c: string)
      requires c in ch.after.cats
      modifies this
      ensures done == CategoryAfter(old(done), ch, c)
    {
      done := done + [Mark(c, true)];
      AnnounceProvider(ch, c, Local);
      AnnounceProvider(ch, c, LDAP);
      AnnounceProvider(ch, c, SAML);
      AnnounceProvider(ch, c, Google);
      var cfg := ch.after.cats[c];
      var hasProviders := CustomOn(cfg, Local) || CustomOn(cfg, LDAP) || CustomOn(cfg, SAML) || CustomOn(cfg, Google);
      HasProviders(ch.after, c);
      if !hasProviders { done := done + [Mark(c, false)]; }
    }

    /** One provider of a deleted category: take back the flag, or the provider if it may be the category's own. */
    method RetractProvider(ch: Change, c: string, n: Idp)
      requires c in ch.before.cats && c !in ch.after.cats
      modifies this
      ensures done == PairAfter(old(done), ch, c, n)
    {
      var setting := SettingOf(ch.before.cats[c], n);
      if setting.Present? {
        if setting.disabled {
          done := done + [Flag(c, n, false)];
        } else if n.Local? || (setting.custom && setting.configured) {
          done := done + [Prov(Some(c), n, false)];
        }
      }
    }

    method RetractCategory(ch: Change, c: string)
      requires c in ch.before.cats && c !in ch.after.cats
      modifies this
      ensures done == CategoryAfter(old(done), ch, c)
    {
      assert done + Opening(ch, c) == done;
      RetractProvider(ch, c, Local);
      RetractProvider(ch, c, LDAP);
      RetractProvider(ch, c, SAML);
      RetractProvider(ch, c, Google);
      done := done + [Mark(c, false)];
    }

    method Visit(ch: Change, order: seq<string>)
      requires forall c <- order :: c in ch.before.cats || c in ch.after.cats
      modifies this
      ensures done == old(done) + Script(ch, order)
    {
      for i := 0 to |order|
        invariant done == old(done) + Script(ch, order[..i])
      {
        var c := order[i];
        VisitStep(old(done), ch, order, i);
        assert c in order;
        if c in ch.after.cats { AnnounceCategory(ch, c); } else { RetractCategory(ch, c); }
      }
      assert order[..|order|] == order;
    }

    /** In whatever order the two maps are ranged over, each category's work is done whole and in order. */
    method HandleCategoriesChange(ch: Change) returns (order: seq<string>)
      modifies this
      ensures VisitOrder(ch, order) && done == old(done) + Script(ch, order)
    {
      var kept := AnyOrder(ch.after.cats.Keys);
      var gone := AnyOrder(ch.before.cats.Keys - ch.after.cats.Keys);
      order := kept + gone;
      KeptThenGone(ch, kept, gone);
      Visit(ch, order);
    }
  }
}
