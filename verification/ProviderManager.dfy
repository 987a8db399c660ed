/**
  The manager as an object. Every handler is proved to do to the abstract state what the value model says, and one
  reload, however the two watchers and the manager interleave, is proved to reach the new configuration exactly as the
  two configurations allow.
*/
module ProviderManager {
  import opened Common
  import opened ProviderModel
  import opened ProviderConvergence
  import opened ProviderHistory
  import opened ProviderOverlap
  import opened ProviderWatcher

  /** What the watchers and the manager share. */
  class CfgWatcher {
    var providerChanges: seq<Event>
    var disabledChanges: seq<Event>
    var categoriesChanges: set<string>

    constructor ()
      ensures providerChanges == [] && disabledChanges == [] && categoriesChanges == {}
    {
      providerChanges, disabledChanges, categoriesChanges := [], [], {};
    }

    /** One thing a watcher does. */
    method Perform(e: Event)
      modifies this
      ensures providerChanges == old(providerChanges) + if e.Prov? then [e] else []
      ensures disabledChanges == old(disabledChanges) + if e.Flag? then [e] else []
      ensures categoriesChanges == if !e.Mark? then old(categoriesChanges)
                                   else if e.open then old(categoriesChanges) + {e.cat}
                                   else old(categoriesChanges) - {e.cat}
    {
      match e
      case Prov(_, _, _) => providerChanges := providerChanges + [e];
      case Flag(_, _, _) => disabledChanges := disabledChanges + [e];
      case Mark(c, open) => categoriesChanges := if open then categoriesChanges + {c} else categoriesChanges - {c};
    }
  }

  class ProviderManager {
    const watcher: CfgWatcher
    var global: Scope
    var categories: map<string, Scope>
    var disabledProviders: map<string, set<Idp>>
    var next: nat

    ghost function View(): State
      reads this, watcher
    {
      State(global, categories, disabledProviders, watcher.categoriesChanges, next)
    }

    constructor (w: CfgWatcher)
      requires w.categoriesChanges == {}
      ensures View() == Init() && watcher == w
    {
      watcher := w;
      global := Empty();
      categories, disabledProviders, next := map[], map[], 0;
    }

    function DisabledIn(c: string): set<Idp>
      reads this
    {
      if c in disabledProviders then disabledProviders[c] else {}
    }

    /** Reads a scope: does anything in it keep it alive? */
    method IsScopeEmpty(scope: Scope) returns (empty: bool)
      ensures empty == IsEmpty(scope)
    {
      if scope.own.Keys != {} { return false; }
      assert scope.own == map[];
      var names := scope.form.Keys;
      while names != {}
        invariant names <= scope.form.Keys
        invariant forall n :: n in scope.form.Keys && n !in names ==> n !in scope.custom
        decreases |names|
      {
        var n :| n in names;
        if n in scope.custom {
          assert n in scope.form.Keys * scope.custom;
          return false;
        }
        names := names - {n};
      }
      return true;
    }

    method CleanupEmptyScope(c: string)
      modifies this`categories, watcher`categoriesChanges
      ensures categories == old(categories) - {c}
      ensures watcher.categoriesChanges == old(watcher.categoriesChanges) - {c}
    {
      categories := categories - {c};
      watcher.categoriesChanges := watcher.categoriesChanges - {c};
    }

    method RestoreInherited(scope: Scope, c: string, n: Idp) returns (out: Scope)
      ensures out == Restore(scope, DisabledIn(c), global.form, n)
    {
      out := scope;
      if n in scope.custom { return; }
      if n in DisabledIn(c) { return; }
      if n !in global.form { return; }
      if n in scope.form { return; }
      out := scope.(form := scope.form[n := global.form[n]]);
    }

    /** A global sub-provider reaches every existing category scope. */
    method Propagate(n: Idp)
      modifies this`categories
      ensures categories.Keys == old(categories.Keys)
      ensures forall c :: c in categories ==>
                categories[c] == Restore(old(categories)[c], DisabledIn(c), global.form, n)
    {
      var todo := categories.Keys;
      while todo != {}
        invariant todo <= categories.Keys == old(categories.Keys)
        invariant forall c :: c in todo ==> categories[c] == old(categories)[c]
        invariant forall c :: c in categories && c !in todo ==>
                    categories[c] == Restore(old(categories)[c], DisabledIn(c), global.form, n)
        decreases |todo|
      {
        var c :| c in todo;
        var scope := RestoreInherited(categories[c], c, n);
        categories := categories[c := scope];
        todo := todo - {c};
      }
    }

    method EnableGlobalProvider(n: Idp)
      modifies this`global, this`categories, this`next
      ensures View() == EnableGlobal(old(View()), n)
    {
      global := EnableIn(global, n, Ref(n, None, next));
      next := next + 1;
      if IsFormSub(n) {
        Propagate(n);
        assert forall c :: c in categories ==> OffOf(old(View()), c) == DisabledIn(c);
        assert categories == EnableGlobal(old(View()), n).cats;
      }
    }

    method WithdrawFrom(c: string, n: Idp) returns (emptied: bool)
      requires c in categories
      modifies this`categories
      ensures categories == old(categories)[c := Uninherit(old(categories)[c], n)]
      ensures emptied == Emptied(old(categories)[c], n)
    {
      var scope := categories[c];
      if n in scope.custom || n !in scope.form {
        assert categories == categories[c := scope];
        return false;
      }
      scope := scope.(form := scope.form - {n});
      categories := categories[c := scope];
      emptied := IsScopeEmpty(scope);
    }

    /** Takes a global sub-provider back from the scopes that inherit it, and names those left empty. */
    method Withdraw(n: Idp) returns (emptyScopes: set<string>)
      modifies this`categories
      ensures categories.Keys == old(categories.Keys)
      ensures forall c :: c in categories ==> categories[c] == Uninherit(old(categories)[c], n)
      ensures forall c :: c in emptyScopes <==> c in old(categories) && Emptied(old(categories)[c], n)
    {
      emptyScopes := {};
      var todo := categories.Keys;
      while todo != {}
        invariant todo <= categories.Keys == old(categories.Keys)
        invariant forall c :: c in todo ==> categories[c] == old(categories)[c]
        invariant forall c :: c in categories && c !in todo ==> categories[c] == Uninherit(old(categories)[c], n)
        invariant forall c :: c in emptyScopes <==> c in categories && c !in todo && Emptied(old(categories)[c], n)
        decreases |todo|
      {
        var c :| c in todo;
        todo := todo - {c};
        var emptied := WithdrawFrom(c, n);
        if emptied { emptyScopes := emptyScopes + {c}; }
      }
    }

    method CleanupEmptyScopes(emptyScopes: set<string>)
      modifies this`categories, watcher`categoriesChanges
      ensures categories == old(categories) - emptyScopes
      ensures watcher.categoriesChanges == old(watcher.categoriesChanges) - emptyScopes
    {
      var todo := emptyScopes;
      while todo != {}
        invariant todo <= emptyScopes
        invariant categories == old(categories) - (emptyScopes - todo)
        invariant watcher.categoriesChanges == old(watcher.categoriesChanges) - (emptyScopes - todo)
        decreases |todo|
      {
        var c :| c in todo;
        CleanupEmptyScope(c);
        todo := todo - {c};
      }
    }

    method DisableGlobalProvider(n: Idp)
      modifies this`global, this`categories, watcher`categoriesChanges
      ensures View() == DisableGlobal(old(View()), n)
    {
      global := DisableIn(global, n);
      if IsFormSub(n) {
        var emptyScopes := Withdraw(n);
        CleanupEmptyScopes(emptyScopes);
        assert emptyScopes == set c | c in old(categories) && Emptied(old(categories)[c], n);
        assert categories == DisableGlobal(old(View()), n).cats;
      }
    }

    /** A category's own provider takes the place of an inherited one, never of another of its own. */
    method EnableOverInherited(scope: Scope, c: string, n: Idp) returns (out: Scope)
      ensures out == EnableOwn(scope, n, Ref(n, Some(c), next))
    {
      out := scope;
      if IsFormSub(n) && n !in scope.custom {
        if n in scope.form {
          out := scope.(form := scope.form - {n});
        } else {
          assert scope.form - {n} == scope.form;
        }
      }
      out := EnableIn(out, n, Ref(n, Some(c), next));
      if IsFormSub(n) && n in out.form {
        out := out.(custom := out.custom + {n});
      }
    }

    method EnableCategoryProvider(c: string, n: Idp)
      modifies this`categories, this`next
      ensures View() == EnableCategory(old(View()), c, n)
    {
      var scope := if c in categories then categories[c] else Fresh(DisabledIn(c), global.form);
      categories := categories[c := scope];
      if c !in watcher.categoriesChanges { return; }
      scope := EnableOverInherited(scope, c, n);
      next := next + 1;
      assert old(categories)[c := scope] == categories[c := scope];
      categories := categories[c := scope];
    }

    method DisableCategoryProvider(c: string, n: Idp)
      modifies this`categories, watcher`categoriesChanges
      ensures View() == DisableCategory(old(View()), c, n)
    {
      if c !in categories { return; }
      var scope := DisableIn(categories[c], n);
      if IsFormSub(n) {
        scope := scope.(custom := scope.custom - {n});
        scope := RestoreInherited(scope, c, n);
      }
      var empty := IsScopeEmpty(scope);
      if empty {
        CleanupEmptyScope(c);
      } else {
        categories := categories[c := scope];
      }
    }

    method ForbidInScope(scope: Scope, n: Idp) returns (out: Scope)
      ensures out == Forbid(scope, n)
    {
      out := scope;
      if IsFormSub(n) {
        if n in scope.form {
          out := scope.(form := scope.form - {n});
        } else {
          assert scope.form - {n} == scope.form;
        }
        out := out.(custom := out.custom - {n});
      }
    }

    method SetDisabled(c: string, n: Idp)
      modifies this`categories, this`disabledProviders
      ensures View() == SetOff(old(View()), c, n)
    {
      disabledProviders := disabledProviders[c := DisabledIn(c) + {n}];
      if c in categories {
        var scope := ForbidInScope(categories[c], n);
        categories := categories[c := scope];
      }
    }

    method ClearDisabled(c: string, n: Idp)
      modifies this`categories, this`disabledProviders
      ensures View() == ClearOff(old(View()), c, n)
    {
      ghost var off := DisabledIn(c) - {n};
      if c in disabledProviders {
        var left := disabledProviders[c] - {n};
        disabledProviders := if left == {} then disabledProviders - {c} else disabledProviders[c := left];
      } else {
        assert disabledProviders - {c} == disabledProviders;
      }
      assert DisabledIn(c) == off;
      if c in categories {
        var scope := categories[c];
        if IsFormSub(n) { scope := RestoreInherited(scope, c, n); }
        categories := categories[c := scope];
      }
    }

    /** One event off a channel. */
    method Handle(e: Event)
      requires !e.Mark?
      modifies this`global, this`categories, this`disabledProviders, this`next, watcher`categoriesChanges
      ensures View() == Apply(old(View()), e)
    {
      match e
      case Prov(None, n, true) => EnableGlobalProvider(n);
      case Prov(None, n, false) => DisableGlobalProvider(n);
      case Prov(Some(c), n, true) => EnableCategoryProvider(c, n);
      case Prov(Some(c), n, false) => DisableCategoryProvider(c, n);
      case Flag(c, n, true) => SetDisabled(c, n);
      case Flag(c, n, false) => ClearDisabled(c, n);
    }

    method Provider(q: Query, c: string) returns (f: Found)
      ensures f == Resolve(View(), q, c)
    {
      if q.Named? && q.idp in DisabledIn(c) { return Unknown; }
      f := if c in categories then Get(categories[c], Some(c), q) else Get(global, None, q);
      if f != Unknown { return; }
      f := Get(global, None, q);
    }

    method ListProviders(scope: Scope) returns (names: set<Query>)
      ensures forall q: Query :: q in names <==> InList(scope, q)
    {
      names := set n | n in scope.own :: Named(n);
      if scope.form.Keys != {} {
        names := names + (set n | n in scope.form :: Named(n)) + {FormName};
      }
    }

    method Providers(c: string) returns (names: set<Query>)
      ensures forall q: Query :: q in names <==> Listed(View(), c, q)
    {
      names := ListProviders(if c in categories then categories[c] else global);
      var fallback := ListProviders(global);
      names := names + fallback;
      names := set q | q in names && !(q.Named? && q.idp in DisabledIn(c));
      if FormName in names && Named(Local) !in names && Named(LDAP) !in names {
        names := names - {FormName};
      }
    }

    function System(globals: seq<Event>, categories: seq<Event>): System
      reads watcher
    {
      ProviderWatcher.System(globals, categories, watcher.providerChanges, watcher.disabledChanges)
    }

    /** The global watcher's next send, the categories watcher's next act, or the manager's next event, as they come. */
    method Interleave(globals: seq<Event>, categories: seq<Event>) returns (ghost es: seq<Event>)
      requires WellKinded(System(globals, categories))
      modifies this, watcher
      ensures watcher.providerChanges == [] && watcher.disabledChanges == []
      ensures View() == Run(old(View()), es) && Yields(old(System(globals, categories)), es)
      decreases Work(System(globals, categories))
    {
      if {
        case globals != [] => es := GlobalTurn(globals, categories);
        case categories != [] => es := CategoryTurn(globals, categories);
        case watcher.providerChanges != [] => es := ManagerTurn(false, globals, categories);
        case watcher.disabledChanges != [] => es := ManagerTurn(true, globals, categories);
        case Work(System(globals, categories)) == 0 =>
          es := [];
          ReachesItself(IDLE);
      }
    }

    method GlobalTurn(globals: seq<Event>, categories: seq<Event>) returns (ghost es: seq<Event>)
      requires WellKinded(System(globals, categories)) && globals != []
      modifies this, watcher
      ensures watcher.providerChanges == [] && watcher.disabledChanges == []
      ensures View() == Run(old(View()), es) && Yields(old(System(globals, categories)), es)
      decreases Work(System(globals, categories)), 0
    {
      ghost var y := System(globals, categories);
      GlobalSendsComing(y, GlobalTag);
      assert globals[0].Prov?;
      watcher.Perform(globals[0]);
      assert System(globals[1..], categories) == GlobalSends(y);
      es := Interleave(globals[1..], categories);
      ReachesFirst(y, Sends, es, IDLE);
    }

    method CategoryTurn(globals: seq<Event>, categories: seq<Event>) returns (ghost es: seq<Event>)
      requires WellKinded(System(globals, categories)) && categories != []
      modifies this, watcher
      ensures watcher.providerChanges == [] && watcher.disabledChanges == []
      ensures View() == Run(old(View()), es) && Yields(old(System(globals, categories)), es)
      decreases Work(System(globals, categories)), 0
    {
      ghost var y, s := System(globals, categories), View();
      CategoryActsComing(y, GlobalTag);
      var e := categories[0];
      watcher.Perform(e);
      assert System(globals, categories[1..]) == CategoryActs(y);
      ghost var rest := Interleave(globals, categories[1..]);
      ReachesFirst(y, Acts, rest, IDLE);
      es := if e.Mark? then [e] + rest else rest;
      RunFirst(s, e, rest);
    }

    method ManagerTurn(flag: bool, globals: seq<Event>, categories: seq<Event>) returns (ghost es: seq<Event>)
      requires WellKinded(System(globals, categories))
      requires if flag then watcher.disabledChanges != [] else watcher.providerChanges != []
      modifies this, watcher
      ensures watcher.providerChanges == [] && watcher.disabledChanges == []
      ensures View() == Run(old(View()), es) && Yields(old(System(globals, categories)), es)
      decreases Work(System(globals, categories)), 0
    {
      ghost var y, s := System(globals, categories), View();
      ReceivesComing(y, flag, GlobalTag);
      var e;
      if flag {
        e := watcher.disabledChanges[0];
        watcher.disabledChanges := watcher.disabledChanges[1..];
      } else {
        e := watcher.providerChanges[0];
        watcher.providerChanges := watcher.providerChanges[1..];
      }
      Handle(e);
      assert System(globals, categories) == Receives(y, flag);
      ghost var rest := Interleave(globals, categories);
      ReachesFirst(y, Takes(flag), rest, IDLE);
      es := [e] + rest;
      RunFirst(s, e, rest);
    }

    /** What the two watchers will do about a change. */
    method Announce(ch: Change) returns (globals: seq<Event>, categories: seq<Event>, ghost order: seq<string>)
      ensures VisitOrder(ch, order) && globals == Queue(ch, GlobalTag) && categories == Script(ch, order)
    {
      var watchGlobal := new Goroutine();
      watchGlobal.HandleGlobalChange(ch);
      globals := watchGlobal.done;
      var watchCategories := new Goroutine();
      order := watchCategories.HandleCategoriesChange(ch);
      categories := watchCategories.done;
      assert [] + Queue(ch, GlobalTag) == Queue(ch, GlobalTag) && [] + Script(ch, order) == Script(ch, order);
    }

    /** One reload of both configurations, from the old one to the new one. */
    method Reload(ch: Change)
      requires watcher.providerChanges == [] && watcher.disabledChanges == [] && Settled(View(), ch.before)
      modifies this, watcher
      ensures watcher.providerChanges == [] && watcher.disabledChanges == []
      ensures Consistent(View())
      ensures Safe(ch) ==> Settled(View(), ch.after)
      ensures (exists c: string :: Late(ch, c)) ==> !Settled(View(), ch.after)
    {
      ghost var s := View();
      var globals, categories, order := Announce(ch);
      StartKinds(ch, order, GlobalTag);
      ghost var es := Interleave(globals, categories);
      ReloadEnds(s, ch, order, es);
    }

    method AnnounceAll(chs: seq<Change>)
      returns (globals: seq<Event>, categories: seq<Event>, ghost orders: seq<seq<string>>)
      ensures VisitOrders(chs, orders) && globals == QueueAll(chs, GlobalTag) && categories == ScriptAll(chs, orders)
      decreases |chs|
    {
      globals, categories, orders := [], [], [];
      if chs != [] {
        var globals0, categories0, order := Announce(chs[0]);
        var globals1, categories1, rest := AnnounceAll(chs[1..]);
        globals, categories, orders := globals0 + globals1, categories0 + categories1, [order] + rest;
        assert orders[1..] == rest;
        assert forall i | 0 < i < |chs| :: chs[i] == chs[1..][i - 1] && orders[i] == rest[i - 1];
      }
    }

    /** A history of reloads, each made whether or not those before have been handled. */
    method ReloadAll(chs: seq<Change>, ghost start: Config)
      requires watcher.providerChanges == [] && watcher.disabledChanges == []
      requires Settled(View(), start) && Chain(chs, start)
      modifies this, watcher
      ensures watcher.providerChanges == [] && watcher.disabledChanges == []
      ensures Consistent(View())
      ensures AllSpared(start, chs) ==> Settled(View(), Final(chs, start))
    {
      ghost var s := View();
      var globals, categories, orders := AnnounceAll(chs);
      StartAllKinds(chs, orders, GlobalTag);
      ghost var es := Interleave(globals, categories);
      assert VisitOrders(chs, orders) && Yields(StartAll(chs, orders), es);
      ReachableConsistent(s, es);
      if AllSpared(start, chs) { SparedHistorySettles(s, start, chs, es); }
    }
  }

  lemma RunFirst(s: State, e: Event, rest: seq<Event>)
    ensures Run(s, [e] + rest) == Run(Apply(s, e), rest)
  {
    assert ([e] + rest)[1..] == rest;
  }

  lemma ReloadEnds(s: State, ch: Change, order: seq<string>, es: seq<Event>)
    requires Settled(s, ch.before) && VisitOrder(ch, order) && Yields(Start(ch, order), es)
    ensures Consistent(Run(s, es))
    ensures Safe(ch) ==> Settled(Run(s, es), ch.after)
    ensures (exists c: string :: Late(ch, c)) ==> !Settled(Run(s, es), ch.after)
  {
    RealizableIsSchedule(ch, es);
    ReachableConsistent(s, es);
    if Safe(ch) { SafeChangeSettles(s, ch, es); }
    if c: string :| Late(ch, c) { LateNeverSettles(s, ch, c, es); }
  }
}
