/**
  Changes that follow one another without waiting for the manager. The watchers announce each as it comes, the manager
  handles what has been sent in any order the channels allow, and in the end every category is as the last
  configuration says, in every order, if and only if its history exposes it to none of three accidents.
*/
module ProviderHistory {
  import opened Common
  import opened ProviderModel
  import opened ProviderConvergence
  import opened ProviderWatcher

  // ----- Switches over a queue ------------------------------------------------------------

  predicate On(e: Event) { match e case Prov(_, _, on) => on case Flag(_, _, on) => on case Mark(_, open) => open }

  function Toggle(x: set<Idp>, e: Event): set<Idp>
    requires !e.Mark?
  {
    if On(e) then x + {e.idp} else x - {e.idp}
  }

  predicate Plain(q: seq<Event>) { forall e <- q :: !e.Mark? }

  /** The switches after the first `j` events of a queue. */
  function Toggled(start: set<Idp>, q: seq<Event>, j: nat): set<Idp>
    requires j <= |q| && Plain(q)
  {
    if j == 0 then start else Toggle(Toggled(start, q, j - 1), q[j - 1])
  }

  predicate AnyOn(q: seq<Event>, j: nat)
    requires j <= |q|
  {
    j != 0 && (On(q[j - 1]) || AnyOn(q, j - 1))
  }

  /** The sub-providers the first `k` flags have taken out of the category's Form at some time. */
  function FlaggedOff(f: seq<Event>, k: nat): set<Idp>
    requires k <= |f| && Plain(f)
  {
    if k == 0 then {}
    else FlaggedOff(f, k - 1) + if On(f[k - 1]) && IsFormSub(f[k - 1].idp) then {f[k - 1].idp} else {}
  }

  lemma {:induction false} ToggledPrefix(start: set<Idp>, a: seq<Event>, b: seq<Event>, j: nat)
    requires j <= |a| && Plain(a) && Plain(a + b)
    ensures Toggled(start, a + b, j) == Toggled(start, a, j) && (AnyOn(a + b, j) <==> AnyOn(a, j))
  {
    if j != 0 { ToggledPrefix(start, a, b, j - 1); }
  }

  lemma {:induction false} ToggledConcat(start: set<Idp>, a: seq<Event>, b: seq<Event>, j: nat)
    requires j <= |b| && Plain(a) && Plain(b) && Plain(a + b)
    ensures Toggled(start, a + b, |a| + j) == Toggled(Toggled(start, a, |a|), b, j)
    ensures AnyOn(a + b, |a| + j) <==> AnyOn(a, |a|) || AnyOn(b, j)
  {
    if j == 0 { ToggledPrefix(start, a, b, |a|); } else { ToggledConcat(start, a, b, j - 1); }
  }

  /** Something that is on at the end was on at the start or has been switched on. */
  lemma {:induction false} OnSomehow(start: set<Idp>, q: seq<Event>, j: nat)
    requires j <= |q| && Plain(q) && Toggled(start, q, j) != {}
    ensures start != {} || AnyOn(q, j)
  {
    if j != 0 && !On(q[j - 1]) {
      assert Toggled(start, q, j) <= Toggled(start, q, j - 1);
      OnSomehow(start, q, j - 1);
    }
  }

  /** Something that is on now and off at the end is switched off in between. */
  lemma {:induction false} OffSomehow(start: set<Idp>, q: seq<Event>, j: nat, m: nat, n: Idp)
    requires j <= m <= |q| && Plain(q) && n in Toggled(start, q, j) && n !in Toggled(start, q, m)
    ensures exists i :: j <= i < m && !On(q[i])
    decreases m - j
  {
    if !On(q[m - 1]) { assert j <= m - 1 < m; } else { OffSomehow(start, q, j, m - 1, n); }
  }

  predicate Mentioned(q: seq<Event>, j: nat, n: Idp)
    requires j <= |q| && Plain(q)
  {
    j != 0 && (q[j - 1].idp == n || Mentioned(q, j - 1, n))
  }

  /** Events that all say what `y` says take each switch they mention there, and leave the others. */
  lemma {:induction false} ToggledTowards(x: set<Idp>, y: set<Idp>, q: seq<Event>, j: nat, n: Idp)
    requires j <= |q| && Plain(q) && forall e <- q :: On(e) <==> e.idp in y
    ensures n in Toggled(x, q, j) <==> n in if Mentioned(q, j, n) then y else x
  {
    if j != 0 {
      ToggledTowards(x, y, q, j - 1, n);
      assert q[j - 1] in q;
    }
  }

  lemma {:induction false} MentionedIs(q: seq<Event>, j: nat, n: Idp)
    requires j <= |q| && Plain(q)
    ensures Mentioned(q, j, n) <==> n in Names(q[..j])
  {
    if j != 0 {
      MentionedIs(q, j - 1, n);
      assert q[..j] == q[..j - 1] + [q[j - 1]];
    }
  }

  /** A queue takes its switches from the old configuration to the new one. */
  lemma QueueToggles(ch: Change, t: Tag)
    requires !t.MarkTag?
    ensures Plain(Queue(ch, t))
    ensures Toggled(Switches(ch.before, t), Queue(ch, t), |Queue(ch, t)|) == Switches(ch.after, t)
  {
    QueuePending(ch, t, 4);
    var q := Queue(ch, t);
    assert q[..|q|] == q;
    forall n: Idp ensures n in Toggled(Switches(ch.before, t), q, |q|) <==> n in Switches(ch.after, t) {
      ToggledTowards(Switches(ch.before, t), Switches(ch.after, t), q, |q|, n);
      MentionedIs(q, |q|, n);
      assert n in Names(q) <==> Differs(ch, t, n);
    }
  }

  // ----- Histories ---------------------------------------------------------------------------

  /** One queue over a whole history. */
  function QueueAll(chs: seq<Change>, t: Tag): seq<Event> {
    if chs == [] then [] else Queue(chs[0], t) + QueueAll(chs[1..], t)
  }

  lemma JoinToggles(x: set<Idp>, y: set<Idp>, z: set<Idp>, a: seq<Event>, b: seq<Event>)
    requires Plain(a) && Plain(b) && Toggled(x, a, |a|) == y && Toggled(y, b, |b|) == z
    ensures Plain(a + b) && Toggled(x, a + b, |a + b|) == z
  {
    ToggledConcat(x, a, b, |b|);
  }

  lemma {:induction false} QueueAllToggles(start: Config, chs: seq<Change>, t: Tag)
    requires Chain(chs, start) && !t.MarkTag?
    ensures Plain(QueueAll(chs, t))
    ensures Toggled(Switches(start, t), QueueAll(chs, t), |QueueAll(chs, t)|) == Switches(Final(chs, start), t)
    decreases |chs|
  {
    if chs != [] {
      var ch, rest := chs[0], chs[1..];
      QueueToggles(ch, t);
      QueueAllToggles(ch.after, rest, t);
      FinalTail(chs, start);
      JoinToggles(Switches(start, t), Switches(ch.after, t), Switches(Final(chs, start), t),
                  Queue(ch, t), QueueAll(rest, t));
    }
  }

  lemma FinalTail(chs: seq<Change>, start: Config)
    requires chs != []
    ensures Final(chs, start) == Final(chs[1..], chs[0].after)
  {}

  // ----- What can go wrong for a category ------------------------------------------------------

  /** What a history means for one category: where it starts, and the events of its three queues. */
  datatype Plan = Plan(customs: set<Idp>, disabled: set<Idp>, globals: set<Idp>,
                       q: seq<Event>, f: seq<Event>, g: seq<Event>)

  predicate Sound(p: Plan) { Plain(p.q) && Plain(p.f) && Plain(p.g) }

  function CustomsAt(p: Plan, j: nat): set<Idp>
    requires Sound(p) && j <= |p.q|
  {
    Toggled(p.customs, p.q, j)
  }

  /** The category has had a scope before the `j`-th event. */
  predicate HadScope(p: Plan, j: nat)
    requires j <= |p.q|
  {
    p.customs != {} || AnyOn(p.q, j)
  }

  /** A flag of the past, handled last, takes out a provider that is custom in the end. */
  predicate StaleFlag(p: Plan)
    requires Sound(p)
  {
    FlaggedOff(p.f, |p.f|) * CustomsAt(p, |p.q|) != {}
  }

  /** A disable finds nothing left but what flags may have taken out: the scope goes, and the channels with it. */
  predicate Drained(p: Plan, j: nat)
    requires Sound(p) && j < |p.q|
  {
    !On(p.q[j]) && HadScope(p, j) && CustomsAt(p, j + 1) <= FlaggedOff(p.f, |p.f|)
  }

  /** With all that was custom taken out by flags, a global provider the category inherits is withdrawn. */
  predicate Swept(p: Plan, j: nat, k: nat, i: nat)
    requires Sound(p) && j <= |p.q| && k <= |p.f| && i < |p.g|
  {
    && HadScope(p, j) && CustomsAt(p, j) <= FlaggedOff(p.f, k)
    && !On(p.g[i]) && IsFormSub(p.g[i].idp) && p.g[i].idp in Toggled(p.globals, p.g, i)
    && p.g[i].idp !in Toggled(p.disabled, p.f, k)
  }

  ghost predicate Exposed(p: Plan)
    requires Sound(p)
  {
    && CustomsAt(p, |p.q|) != {}
    && (|| StaleFlag(p)
        || (exists j | 0 <= j < |p.q| :: Drained(p, j))
        || (exists j, k, i | 0 <= j <= |p.q| && 0 <= k <= |p.f| && 0 <= i < |p.g| :: Swept(p, j, k, i)))
  }

  function PlanOf(start: Config, chs: seq<Change>, c: string): Plan {
    Plan(Customs(start, c), Disabled(start, c), start.global,
         QueueAll(chs, CatTag(c)), QueueAll(chs, FlagTag(c)), QueueAll(chs, GlobalTag))
  }

  lemma PlanSound(start: Config, chs: seq<Change>, c: string)
    requires Chain(chs, start)
    ensures var p := PlanOf(start, chs, c);
      && Sound(p)
      && CustomsAt(p, |p.q|) == Customs(Final(chs, start), c)
      && Toggled(p.disabled, p.f, |p.f|) == Disabled(Final(chs, start), c)
      && Toggled(p.globals, p.g, |p.g|) == Final(chs, start).global
  {
    QueueAllToggles(start, chs, CatTag(c));
    QueueAllToggles(start, chs, FlagTag(c));
    QueueAllToggles(start, chs, GlobalTag);
  }
}
