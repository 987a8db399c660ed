/**
  Value model of the identity-provider manager: the provider sets it keeps, the
  events that change them, and what a lookup resolves to.

  A provider instance is an opaque reference; its `id` stands for object identity
  and its `home` for the scope whose enable event created it.
*/
module ProviderModel {
  import opened Common

  /** The names the configuration watcher can send. */
  datatype Idp = Local | LDAP | SAML | Google

  /** Local and LDAP plug into the Form provider; SAML and Google stand alone. */
  predicate IsFormSub(n: Idp) { n.Local? || n.LDAP? }

  datatype Ref = Ref(idp: Idp, home: Option<string>, id: nat)

  /**
    One provider set: stand-alone providers, the sub-providers of its Form, and
    the sub-providers marked custom. `unknown`, `form` and `external` are in every
    set from its creation and are left implicit.
  */
  datatype Scope = Scope(own: map<Idp, Ref>, form: map<Idp, Ref>, custom: set<Idp>)

  datatype State = State(
    global: Scope,
    cats: map<string, Scope>,
    off: map<string, set<Idp>>,   // categoriesDisabledProviders
    chans: set<string>,           // keys of categoriesChanges
    next: nat)                    // identity of the next provider instance

  /**
    What the manager handles off its two channels, and what the watcher does to the map of change channels it
    shares with the manager: create a category's channels if there are none, or delete them.
  */
  datatype Event =
    | Prov(scope: Option<string>, idp: Idp, enabled: bool)
    | Flag(cat: string, idp: Idp, disabled: bool)
    | Mark(cat: string, open: bool)

  function Empty(): Scope { Scope(map[], map[], {}) }

  function Init(): State { State(Empty(), map[], map[], {}, 0) }

  /** The providers a category has explicitly disabled. */
  function OffOf(s: State, c: string): set<Idp> { if c in s.off then s.off[c] else {} }

  /** The reference a Form holds for a sub-provider. */
  function Slot(form: map<Idp, Ref>, n: Idp): Option<Ref> {
    if n in form then Some(form[n]) else None
  }

  // ----- The handlers, on one provider set ---------------------------------------

  function EnableIn(sc: Scope, n: Idp, r: Ref): Scope {
    if IsFormSub(n) then
      if n in sc.form then sc else sc.(form := sc.form[n := r])
    else if n in sc.own then sc else sc.(own := sc.own[n := r])
  }

  function DisableIn(sc: Scope, n: Idp): Scope {
    if IsFormSub(n) then sc.(form := sc.form - {n}) else sc.(own := sc.own - {n})
  }

  /** Inherited sub-providers do not keep a scope alive. */
  predicate IsEmpty(sc: Scope) { sc.own == map[] && sc.form.Keys !! sc.custom }

  /** Re-adds one inherited sub-provider, unless custom, disabled, missing or already there. */
  function Restored(form: map<Idp, Ref>, custom: set<Idp>, off: set<Idp>, parent: map<Idp, Ref>, n: Idp)
    : map<Idp, Ref>
  {
    if n in custom || n in off || n !in parent || n in form then form else form[n := parent[n]]
  }

  function Restore(sc: Scope, off: set<Idp>, parent: map<Idp, Ref>, n: Idp): Scope {
    sc.(form := Restored(sc.form, sc.custom, off, parent, n))
  }

  /** A new category scope, with the global sub-providers the category has not disabled. */
  function Fresh(off: set<Idp>, parent: map<Idp, Ref>): Scope { Scope(map[], parent - off, {}) }

  /** A custom provider replaces an inherited one; a custom one already there stays. */
  function EnableOwn(sc: Scope, n: Idp, r: Ref): Scope {
    var sc1 := if IsFormSub(n) && n !in sc.custom then sc.(form := sc.form - {n}) else sc;
    var sc2 := EnableIn(sc1, n, r);
    if IsFormSub(n) then sc2.(custom := sc2.custom + {n}) else sc2
  }

  /** Dropping a custom sub-provider uncovers the inherited one. */
  function DisableOwn(sc: Scope, off: set<Idp>, parent: map<Idp, Ref>, n: Idp): Scope {
    var sc1 := DisableIn(sc, n);
    if IsFormSub(n) then Restore(sc1.(custom := sc1.custom - {n}), off, parent, n) else sc1
  }

  predicate Inherits(sc: Scope, n: Idp) { n !in sc.custom && n in sc.form }

  function Uninherit(sc: Scope, n: Idp): Scope {
    if Inherits(sc, n) then sc.(form := sc.form - {n}) else sc
  }

  predicate Emptied(sc: Scope, n: Idp) { Inherits(sc, n) && IsEmpty(Uninherit(sc, n)) }

  function Forbid(sc: Scope, n: Idp): Scope {
    if IsFormSub(n) then sc.(form := sc.form - {n}, custom := sc.custom - {n}) else sc
  }

  function Permit(sc: Scope, off: set<Idp>, parent: map<Idp, Ref>, n: Idp): Scope {
    if IsFormSub(n) then Restore(sc, off, parent, n) else sc
  }

  // ----- The handlers, on the manager ---------------------------------------------

  function EnableGlobal(s: State, n: Idp): State {
    var g := EnableIn(s.global, n, Ref(n, None, s.next));
    s.(global := g, next := s.next + 1,
       cats := if IsFormSub(n) then map c | c in s.cats :: Restore(s.cats[c], OffOf(s, c), g.form, n) else s.cats)
  }

  function DisableGlobal(s: State, n: Idp): State {
    var s1 := s.(global := DisableIn(s.global, n));
    if IsFormSub(n) then
      s1.(cats := map c | c in s.cats && !Emptied(s.cats[c], n) :: Uninherit(s.cats[c], n),
          chans := s.chans - (set c | c in s.cats && Emptied(s.cats[c], n)))
    else s1
  }

  function ScopeOrFresh(s: State, c: string): Scope {
    if c in s.cats then s.cats[c] else Fresh(OffOf(s, c), s.global.form)
  }

  function EnableCategory(s: State, c: string, n: Idp): State {
    var sc := ScopeOrFresh(s, c);
    if c !in s.chans then s.(cats := s.cats[c := sc])
    else s.(cats := s.cats[c := EnableOwn(sc, n, Ref(n, Some(c), s.next))], next := s.next + 1)
  }

  function DisableCategory(s: State, c: string, n: Idp): State {
    if c !in s.cats then s
    else
      var sc := DisableOwn(s.cats[c], OffOf(s, c), s.global.form, n);
      if IsEmpty(sc) then s.(cats := s.cats - {c}, chans := s.chans - {c})
      else s.(cats := s.cats[c := sc])
  }

  function SetOff(s: State, c: string, n: Idp): State {
    s.(off := s.off[c := OffOf(s, c) + {n}],
       cats := if c in s.cats then s.cats[c := Forbid(s.cats[c], n)] else s.cats)
  }

  function ClearOff(s: State, c: string, n: Idp): State {
    var off := OffOf(s, c) - {n};
    s.(off := if off == {} then s.off - {c} else s.off[c := off],
       cats := if c in s.cats then s.cats[c := Permit(s.cats[c], off, s.global.form, n)] else s.cats)
  }

  function Apply(s: State, e: Event): State {
    match e
    case Prov(None, n, true) => EnableGlobal(s, n)
    case Prov(None, n, false) => DisableGlobal(s, n)
    case Prov(Some(c), n, true) => EnableCategory(s, c, n)
    case Prov(Some(c), n, false) => DisableCategory(s, c, n)
    case Flag(c, n, true) => SetOff(s, c, n)
    case Flag(c, n, false) => ClearOff(s, c, n)
    case Mark(c, open) => s.(chans := if open then s.chans + {c} else s.chans - {c})
  }

  function Run(s: State, es: seq<Event>): State
    decreases es
  {
    if es == [] then s else Run(Apply(s, es[0]), es[1..])
  }

  lemma {:induction false} RunConcat(s: State, a: seq<Event>, b: seq<Event>)
    ensures Run(s, a + b) == Run(Run(s, a), b)
    decreases a
  {
    if a == [] {
      assert a + b == b;
    } else {
      assert (a + b)[1..] == a[1..] + b;
      RunConcat(Apply(s, a[0]), a[1..], b);
    }
  }

  // ----- The inheritance invariant ----------------------------------------------

  predicate Shaped(sc: Scope, home: Option<string>) {
    && (forall n <- sc.own :: !IsFormSub(n) && sc.own[n].idp == n && sc.own[n].home == home)
    && (forall n <- sc.form :: IsFormSub(n) && sc.form[n].idp == n)
    && (forall n <- sc.custom :: IsFormSub(n))
  }

  /** What a category's Form must hold for a sub-provider. */
  predicate SlotOk(sc: Scope, c: string, off: set<Idp>, parent: map<Idp, Ref>, n: Idp) {
    if n in sc.custom then Slot(sc.form, n).Some? && Slot(sc.form, n).value.home == Some(c)
    else if n in off then Slot(sc.form, n) == None
    else Slot(sc.form, n) == Slot(parent, n)
  }

  predicate ScopeOk(sc: Scope, c: string, off: set<Idp>, parent: map<Idp, Ref>) {
    Shaped(sc, Some(c)) && SlotOk(sc, c, off, parent, Local) && SlotOk(sc, c, off, parent, LDAP)
  }

  predicate GlobalOk(g: Scope) {
    Shaped(g, None) && g.custom == {} && forall n <- g.form :: g.form[n].home == None
  }

  ghost predicate Consistent(s: State) {
    GlobalOk(s.global) && forall c: string :: CatOk(s, c)
  }

  predicate FormShaped(parent: map<Idp, Ref>) { forall m <- parent :: IsFormSub(m) && parent[m].idp == m }

  lemma GlobalStepOk(g: Scope, n: Idp, r: Ref)
    requires GlobalOk(g) && r.idp == n && r.home == None
    ensures GlobalOk(EnableIn(g, n, r)) && GlobalOk(DisableIn(g, n))
  {}

  lemma RestoreOk(g: map<Idp, Ref>, n: Idp, r: Ref, sc: Scope, c: string, off: set<Idp>)
    requires FormShaped(g) && IsFormSub(n) && r.idp == n && ScopeOk(sc, c, off, g)
    ensures n !in g ==> ScopeOk(Restore(sc, off, g[n := r], n), c, off, g[n := r])
    ensures Restore(sc, off, g, n) == sc
  {}

  lemma UninheritOk(g: map<Idp, Ref>, n: Idp, sc: Scope, c: string, off: set<Idp>)
    requires FormShaped(g) && IsFormSub(n) && ScopeOk(sc, c, off, g)
    ensures ScopeOk(Uninherit(sc, n), c, off, g - {n})
  {}

  lemma EnableOwnOk(g: map<Idp, Ref>, n: Idp, r: Ref, sc: Scope, c: string, off: set<Idp>)
    requires ScopeOk(sc, c, off, g) && r.idp == n && r.home == Some(c)
    ensures ScopeOk(EnableOwn(sc, n, r), c, off, g)
  {}

  lemma DisableOwnOk(g: map<Idp, Ref>, n: Idp, sc: Scope, c: string, off: set<Idp>)
    requires FormShaped(g) && ScopeOk(sc, c, off, g)
    ensures ScopeOk(DisableOwn(sc, off, g, n), c, off, g)
  {}

  lemma ForbidOk(g: map<Idp, Ref>, n: Idp, sc: Scope, c: string, off: set<Idp>)
    requires ScopeOk(sc, c, off, g)
    ensures ScopeOk(Forbid(sc, n), c, off + {n}, g)
  {}

  lemma PermitOk(g: map<Idp, Ref>, n: Idp, sc: Scope, c: string, off: set<Idp>)
    requires FormShaped(g) && ScopeOk(sc, c, off, g)
    ensures ScopeOk(Permit(sc, off - {n}, g, n), c, off - {n}, g)
  {}

  lemma FreshOk(g: map<Idp, Ref>, c: string, off: set<Idp>)
    requires FormShaped(g)
    ensures ScopeOk(Fresh(off, g), c, off, g)
  {}

  /** A category's part of the invariant. */
  predicate CatOk(s: State, c: string) {
    c in s.cats ==> ScopeOk(s.cats[c], c, OffOf(s, c), s.global.form)
  }

  lemma GlobalEventKeeps(s: State, n: Idp, on: bool, c: string)
    requires GlobalOk(s.global) && CatOk(s, c)
    ensures CatOk(Apply(s, Prov(None, n, on)), c)
  {
    if c in s.cats && IsFormSub(n) {
      if on { RestoreOk(s.global.form, n, Ref(n, None, s.next), s.cats[c], c, OffOf(s, c)); }
      else { UninheritOk(s.global.form, n, s.cats[c], c, OffOf(s, c)); }
    }
  }

  lemma ScopeOrFreshOk(s: State, c: string)
    requires GlobalOk(s.global) && CatOk(s, c)
    ensures ScopeOk(ScopeOrFresh(s, c), c, OffOf(s, c), s.global.form)
  {
    FreshOk(s.global.form, c, OffOf(s, c));
  }

  lemma EnableCategoryKeeps(s: State, n: Idp, c: string)
    requires GlobalOk(s.global) && CatOk(s, c)
    ensures CatOk(EnableCategory(s, c, n), c)
  {
    ScopeOrFreshOk(s, c);
    EnableOwnOk(s.global.form, n, Ref(n, Some(c), s.next), ScopeOrFresh(s, c), c, OffOf(s, c));
  }

  lemma DisableCategoryKeeps(s: State, n: Idp, c: string)
    requires GlobalOk(s.global) && CatOk(s, c)
    ensures CatOk(DisableCategory(s, c, n), c)
  {
    if c in s.cats { DisableOwnOk(s.global.form, n, s.cats[c], c, OffOf(s, c)); }
  }

  lemma SetOffKeeps(s: State, n: Idp, c: string)
    requires CatOk(s, c)
    ensures CatOk(SetOff(s, c, n), c)
  {
    if c in s.cats { ForbidOk(s.global.form, n, s.cats[c], c, OffOf(s, c)); }
  }

  lemma ClearOffKeeps(s: State, n: Idp, c: string)
    requires GlobalOk(s.global) && CatOk(s, c)
    ensures CatOk(ClearOff(s, c, n), c)
  {
    if c in s.cats { PermitOk(s.global.form, n, s.cats[c], c, OffOf(s, c)); }
  }

  lemma MarkKeeps(s: State, d: string, open: bool, c: string)
    requires CatOk(s, c)
    ensures CatOk(Apply(s, Mark(d, open)), c)
  {
    assert OffOf(Apply(s, Mark(d, open)), c) == OffOf(s, c);
  }

  /** The category an event is about, if it is about one. */
  function Subject(e: Event): Option<string> { if e.Prov? then e.scope else Some(e.cat) }

  /** An event about one category leaves every other category alone. */
  lemma OthersUntouched(s: State, e: Event, c: string)
    requires Subject(e).Some? && Subject(e) != Some(c)
    ensures c in Apply(s, e).cats <==> c in s.cats
    ensures c in s.cats ==> Apply(s, e).cats[c] == s.cats[c]
    ensures OffOf(Apply(s, e), c) == OffOf(s, c)
    ensures c in Apply(s, e).chans <==> c in s.chans
    ensures Apply(s, e).global == s.global
  {}

  lemma StepKeepsConsistent(s: State, e: Event)
    requires Consistent(s)
    ensures Consistent(Apply(s, e))
  {
    if e.Prov? { GlobalStepOk(s.global, e.idp, Ref(e.idp, None, s.next)); }
    forall c
      ensures CatOk(Apply(s, e), c)
    {
      assert CatOk(s, c);
      if Subject(e).Some? && Subject(e) != Some(c) {
        OthersUntouched(s, e, c);
      } else {
        match e
        case Prov(None, n, on) => GlobalEventKeeps(s, n, on, c);
        case Prov(Some(_), n, true) => EnableCategoryKeeps(s, n, c);
        case Prov(Some(_), n, false) => DisableCategoryKeeps(s, n, c);
        case Flag(_, n, true) => SetOffKeeps(s, n, c);
        case Flag(_, n, false) => ClearOffKeeps(s, n, c);
        case Mark(d, open) => MarkKeeps(s, d, open, c);
      }
    }
  }

  /** The invariant holds in every state reachable by any events in any order. */
  lemma {:induction false} ReachableConsistent(s: State, es: seq<Event>)
    requires Consistent(s)
    ensures Consistent(Run(s, es))
    decreases es
  {
    if es != [] {
      StepKeepsConsistent(s, es[0]);
      ReachableConsistent(Apply(s, es[0]), es[1..]);
    }
  }

  // ----- Lookups -------------------------------------------------------------------

  datatype Query = Named(idp: Idp) | FormName | UnknownName | ExternalName | Other(text: string)

  /** `unknown` stands for the Unknown provider; Form and External are told apart by scope. */
  datatype Found = Unknown | FormOf(scope: Option<string>) | ExternalOf(scope: Option<string>) | Instance(ref: Ref)

  function Get(sc: Scope, scope: Option<string>, q: Query): Found {
    match q
    case Named(n) => if n in sc.own then Instance(sc.own[n]) else if n in sc.form then Instance(sc.form[n]) else Unknown
    case FormName => FormOf(scope)
    case ExternalName => ExternalOf(scope)
    case UnknownName => Unknown
    case Other(_) => Unknown
  }

  predicate Hidden(s: State, q: Query, c: string) { q.Named? && q.idp in OffOf(s, c) }

  function ReadScope(s: State, c: string): Scope { if c in s.cats then s.cats[c] else s.global }

  function ScopeName(s: State, c: string): Option<string> { if c in s.cats then Some(c) else None }

  /** The provider a login to a category is handed to. */
  function Resolve(s: State, q: Query, c: string): Found {
    if Hidden(s, q, c) then Unknown
    else
      var f := Get(ReadScope(s, c), ScopeName(s, c), q);
      if f != Unknown then f else Get(s.global, None, q)
  }

  predicate InList(sc: Scope, q: Query) {
    match q
    case Named(n) => n in sc.own || n in sc.form
    case FormName => sc.form.Keys != {}
    case _ => false
  }

  predicate Shown(s: State, c: string, q: Query) {
    !Hidden(s, q, c) && (InList(ReadScope(s, c), q) || InList(s.global, q))
  }

  /** The providers a category offers. */
  predicate Listed(s: State, c: string, q: Query) {
    Shown(s, c, q) && (q.FormName? ==> Shown(s, c, Named(Local)) || Shown(s, c, Named(LDAP)))
  }

  /** A provider is offered exactly when a login to it reaches something. */
  lemma ListedIffResolved(s: State, c: string, q: Query)
    requires Consistent(s)
    ensures q.Named? || q.Other? ==> (Listed(s, c, q) <==> Resolve(s, q, c) != Unknown)
    ensures Listed(s, c, FormName) <==> Listed(s, c, Named(Local)) || Listed(s, c, Named(LDAP))
    ensures !Listed(s, c, UnknownName) && !Listed(s, c, ExternalName)
  {
    assert CatOk(s, c);
    assert Local !in ReadScope(s, c).own && LDAP !in ReadScope(s, c).own;
  }

  /** A scope that counts as empty holds nothing of its own. */
  lemma EmptyScopeInherits(s: State, c: string, n: Idp)
    requires Consistent(s) && c in s.cats && IsEmpty(s.cats[c])
    ensures n !in s.cats[c].own
    ensures n !in OffOf(s, c) ==> Slot(s.cats[c].form, n) == Slot(s.global.form, n)
  {
    assert CatOk(s, c);
    assert n !in s.cats[c].custom;
    assert !IsFormSub(n) ==> n !in s.cats[c].form && n !in s.global.form;
  }

  /** Removing a scope that counts as empty is invisible to lookups and listings. */
  lemma EmptyScopeInvisible(s: State, c: string, q: Query)
    requires Consistent(s) && c in s.cats && IsEmpty(s.cats[c])
    ensures q.Named? || q.Other? ==> Resolve(s.(cats := s.cats - {c}), q, c) == Resolve(s, q, c)
    ensures Listed(s.(cats := s.cats - {c}), c, q) <==> Listed(s, c, q)
  {
    var t := s.(cats := s.cats - {c});
    forall n: Idp
      ensures Resolve(t, Named(n), c) == Resolve(s, Named(n), c)
      ensures Listed(t, c, Named(n)) <==> Listed(s, c, Named(n))
    {
      EmptyScopeInherits(s, c, n);
    }
    assert Consistent(t) by {
      forall d ensures CatOk(t, d) { assert CatOk(s, d); }
    }
    ListedIffResolved(s, c, q);
    ListedIffResolved(t, c, q);
  }
}
