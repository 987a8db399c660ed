/**
  The session service at the granularity of Redis commands: any number of New,
  Renew and Revoke calls interleave, a per-user SETNX lock with a TTL guards the
  critical sections, and every record lives until its MaxTime.
*/
module Sessions {

  type Id = nat
  type User = string

  // ----- Redis ------------------------------------------------------------------------

  datatype Times = Times(maxTime: int, maxRenewTime: int, expirationTime: int)

  datatype Session = Session(user: User, time: Times)

  datatype Pointer = Pointer(session: Id, expires: int)

  /**
    The keyspace. `owners` remembers every id ever drawn and its user, `revoked`
    every session some call deleted, `failed` every user for whom a command failed;
    the service reads none of them.
  */
  datatype Store = Store(
    now: int,
    sessions: map<Id, Session>,
    users: map<User, Pointer>,
    locks: map<User, int>,
    owners: map<Id, User>,
    revoked: set<Id>,
    failed: set<User>)

  predicate LiveSession(s: Store, id: Id) { id in s.sessions && s.now < s.sessions[id].time.maxTime }

  predicate LivePointer(s: Store, u: User) { u in s.users && s.now < s.users[u].expires }

  predicate Locked(s: Store, u: User) { u in s.locks && s.now < s.locks[u] }

  // ----- Calls in progress -------------------------------------------------------------

  datatype Config = Config(maxTime: int, maxRenewTime: int, expirationTime: int, ttl: int)

  datatype Goal = New(time: Times) | Renew(id: Id, at: int) | Revoke(id: Id)

  /** What follows a revoke: New goes on to create a session, Revoke is done. */
  datatype Cont = Create(time: Times) | Done

  /** The next command of a call that holds its user's lock. */
  datatype Step =
    | LoadUser(time: Times)
    | RevokeLoad(id: Id, then_: Cont)
    | RevokeDelSession(id: Id, owner: User, then_: Cont)
    | RevokeLoadUser(id: Id, owner: User, then_: Cont)
    | RevokeDelUser(id: Id, owner: User, then_: Cont)
    | DelStaleUser(time: Times)
    | PutSession(time: Times)
    | PutUser(id: Id, time: Times)
    | Reload(id: Id, at: int)
    | PutRenewed(id: Id, session: Session)
    | Release

  datatype Call =
    | LookUp(id: Id, renew: bool)
    | Waiting(user: User, goal: Goal)
    | Holding(user: User, lockEnd: int, step: Step)

  datatype State = State(store: Store, calls: map<nat, Call>)

  /** The times Renew writes: both capped at MaxTime, the second by what the old value would have reached. */
  function Renewed(cfg: Config, t: Times, at: int): Times {
    Times(t.maxTime,
          if t.maxRenewTime + cfg.maxRenewTime > t.maxTime then t.maxTime else at + cfg.maxRenewTime,
          if at + cfg.expirationTime > t.maxTime then t.maxTime else at + cfg.expirationTime)
  }

  function Created(cfg: Config, at: int): Times {
    Times(at + cfg.maxTime, at + cfg.maxRenewTime, at + cfg.expirationTime)
  }

  function FirstStep(g: Goal): Step {
    match g
    case New(t) => LoadUser(t)
    case Renew(id, at) => Reload(id, at)
    case Revoke(id) => RevokeLoad(id, Done)
  }

  /** A revoke that found nothing: New tries to drop the pointer, Revoke returns the error. */
  function NotFound(c: Cont): Step { match c case Create(t) => DelStaleUser(t) case Done => Release }

  function Continue(c: Cont): Step { match c case Create(t) => PutSession(t) case Done => Release }

  /** One command of a call that holds the lock of `u`, with `drawn` the id a new session would get. */
  function Exec(cfg: Config, s: Store, u: User, step: Step, drawn: Id): (Store, Step) {
    match step
    case LoadUser(t) =>
      (s, if LivePointer(s, u) then RevokeLoad(s.users[u].session, Create(t)) else PutSession(t))
    case RevokeLoad(id, c) =>
      (s, if LiveSession(s, id) then RevokeDelSession(id, s.sessions[id].user, c) else NotFound(c))
    case RevokeDelSession(id, o, c) =>
      if LiveSession(s, id)
      then (s.(sessions := s.sessions - {id}, revoked := s.revoked + {id}), RevokeLoadUser(id, o, c))
      else (s, NotFound(c))
    case RevokeLoadUser(id, o, c) =>
      (s, if LivePointer(s, o) then RevokeDelUser(id, o, c) else NotFound(c))
    case RevokeDelUser(id, o, c) =>
      if LivePointer(s, o) then (s.(users := s.users - {o}), Continue(c)) else (s, NotFound(c))
    case DelStaleUser(t) =>
      if LivePointer(s, u) then (s.(users := s.users - {u}), PutSession(t)) else (s, Release)
    case PutSession(t) =>
      (s.(sessions := s.sessions[drawn := Session(u, t)], owners := s.owners[drawn := u]), PutUser(drawn, t))
    case PutUser(id, t) =>
      (s.(users := s.users[u := Pointer(id, t.maxTime)]), Release)
    case Reload(id, at) =>
      (s, if LiveSession(s, id)
          then PutRenewed(id, s.sessions[id].(time := Renewed(cfg, s.sessions[id].time, at))) else Release)
    case PutRenewed(id, x) =>
      (s.(sessions := s.sessions[id := x]), Release)
    case Release => (s, Release)
  }

  /** A write needs a positive expiration, and a new session an id never drawn before. */
  predicate CanExec(s: Store, step: Step, drawn: Id) {
    match step
    case PutSession(t) => s.now < t.maxTime && drawn !in s.owners
    case PutUser(_, t) => s.now < t.maxTime
    case PutRenewed(_, x) => s.now < x.time.maxTime
    case _ => true
  }

  // ----- Transitions -------------------------------------------------------------------

  datatype Action =
    | Begin(call: nat, what: Call)
    | Look(call: nat)
    | Acquire(call: nat)
    | GiveUp(call: nat)
    | Command(call: nat, drawn: Id)
    | Fails(call: nat, drawn: Id, taken: bool)
    | Unlock(call: nat)
    | Tick(to: int)

  predicate Enabled(cfg: Config, st: State, a: Action) {
    var s := st.store;
    match a
    case Begin(p, c) =>
      p !in st.calls && (c.LookUp? || (c.Waiting? && c.goal == New(Created(cfg, s.now))))
    case Look(p) => p in st.calls && st.calls[p].LookUp?
    case Acquire(p) => p in st.calls && st.calls[p].Waiting? && !Locked(s, st.calls[p].user) && 0 < cfg.ttl
    case GiveUp(p) => p in st.calls && !st.calls[p].Holding?
    case Command(p, drawn) =>
      p in st.calls && st.calls[p].Holding? && !st.calls[p].step.Release? && CanExec(s, st.calls[p].step, drawn)
    case Fails(p, drawn, taken) =>
      && p in st.calls && st.calls[p].Holding? && !st.calls[p].step.Release?
      && (taken ==> CanExec(s, st.calls[p].step, drawn))
    case Unlock(p) => p in st.calls && st.calls[p].Holding? && st.calls[p].step.Release?
    case Tick(t) => s.now <= t
  }

  /** Store and next step after a command, whether or not its answer arrives; without effect it is still to be done. */
  function Tried(cfg: Config, s: Store, u: User, step: Step, drawn: Id, taken: bool): (Store, Step) {
    if taken then Exec(cfg, s, u, step, drawn) else (s, step)
  }

  function Apply(cfg: Config, st: State, a: Action): State
    requires Enabled(cfg, st, a)
  {
    var s := st.store;
    match a
    case Begin(p, c) => st.(calls := st.calls[p := c])
    case Look(p) =>
      var c := st.calls[p];
      if !LiveSession(s, c.id) then st.(calls := st.calls - {p})
      else
        var x := s.sessions[c.id];
        if c.renew && (x.time.maxRenewTime < s.now || x.time.maxTime < s.now) then st.(calls := st.calls - {p})
        else st.(calls := st.calls[p := Waiting(x.user, if c.renew then Renew(c.id, s.now) else Revoke(c.id))])
    case Acquire(p) =>
      var c := st.calls[p];
      State(s.(locks := s.locks[c.user := s.now + cfg.ttl]),
            st.calls[p := Holding(c.user, s.now + cfg.ttl, FirstStep(c.goal))])
    case GiveUp(p) => st.(calls := st.calls - {p})
    case Command(p, drawn) =>
      var c := st.calls[p];
      var (s', step) := Exec(cfg, s, c.user, c.step, drawn);
      State(s', st.calls[p := c.(step := step)])
    case Fails(p, drawn, taken) =>
      var c := st.calls[p];
      var s' := Tried(cfg, s, c.user, c.step, drawn, taken).0;
      State(s'.(failed := s'.failed + {c.user}), st.calls[p := c.(step := Release)])
    case Unlock(p) =>
      State(s.(locks := s.locks - {st.calls[p].user}), st.calls - {p})
    case Tick(t) => st.(store := s.(now := t))
  }

  /** Time never passes the lock of a call that still holds it. */
  predicate Timely(st: State, a: Action) {
    a.Tick? ==> forall p <- st.calls :: st.calls[p].Holding? ==> a.to < st.calls[p].lockEnd
  }

  /** A session is stored that still lives, and its pointer is not. */
  predicate Orphaning(s: Store, step: Step) { step.PutUser? && s.now < step.time.maxTime }

  /** No failure falls between the writing of a session and the writing of its pointer. */
  predicate Bearable(cfg: Config, st: State, a: Action)
    requires Enabled(cfg, st, a)
  {
    a.Fails? ==>
      var (s, step) := Tried(cfg, st.store, st.calls[a.call].user, st.calls[a.call].step, a.drawn, a.taken);
      !Orphaning(s, step)
  }

  // ----- The invariant -------------------------------------------------------------------

  predicate LiveOf(s: Store, u: User, id: Id) { LiveSession(s, id) && s.sessions[id].user == u }

  /** The live session of a user is the one named by the user's pointer, and the two expire together. */
  ghost predicate Named(s: Store, u: User) {
    && (forall id: Id :: LiveOf(s, u, id) ==> LivePointer(s, u) && s.users[u].session == id)
    && (LivePointer(s, u) && LiveOf(s, u, s.users[u].session) ==>
          s.sessions[s.users[u].session].time.maxTime == s.users[u].expires)
  }

  /** A user at rest: session and pointer come as a pair, but for a pointer that a failure has left behind. */
  ghost predicate Paired(s: Store, u: User) {
    Named(s, u) && (u !in s.failed && LivePointer(s, u) ==> LiveOf(s, u, s.users[u].session))
  }

  ghost predicate NoSession(s: Store, u: User) { forall id: Id :: !LiveOf(s, u, id) }

  predicate PointsAtMost(s: Store, u: User, id: Id) { LivePointer(s, u) ==> s.users[u].session == id }

  predicate OwnedBy(s: Store, id: Id, u: User) { id in s.owners && s.owners[id] == u }

  /** A stored session of `u` that lives until `maxTime`. */
  predicate Stored(s: Store, u: User, id: Id, maxTime: int) {
    id in s.sessions && s.sessions[id].user == u && s.sessions[id].time.maxTime == maxTime
  }

  /** What holds of user `u` while a call holds the user's lock and is about to do `step`. */
  ghost predicate Midway(s: Store, u: User, step: Step) {
    match step
    case LoadUser(_) => Paired(s, u)
    case RevokeLoad(id, c) => Paired(s, u) && OwnedBy(s, id, u) && (c.Create? ==> PointsAtMost(s, u, id))
    case RevokeDelSession(id, o, _) => Paired(s, u) && OwnedBy(s, id, u) && o == u && PointsAtMost(s, u, id)
    case RevokeLoadUser(id, o, _) => NoSession(s, u) && o == u && PointsAtMost(s, u, id)
    case RevokeDelUser(id, o, _) => NoSession(s, u) && o == u && PointsAtMost(s, u, id)
    case DelStaleUser(_) => NoSession(s, u) && (u !in s.failed ==> !LivePointer(s, u))
    case PutSession(_) => NoSession(s, u) && !LivePointer(s, u)
    case PutUser(id, t) =>
      && !LivePointer(s, u) && Stored(s, u, id, t.maxTime)
      && forall i: Id :: LiveOf(s, u, i) ==> i == id
    case Reload(id, _) => Paired(s, u) && OwnedBy(s, id, u)
    case PutRenewed(id, x) =>
      Paired(s, u) && x.user == u && Stored(s, u, id, x.time.maxTime) && x.time.expirationTime <= x.time.maxTime
    case Release => Paired(s, u)
  }

  /** The owner of an id never changes, and a revoked session is never stored again. */
  ghost predicate Known(s: Store) {
    && (forall id <- s.sessions :: OwnedBy(s, id, s.sessions[id].user))
    && (forall u <- s.users :: OwnedBy(s, s.users[u].session, u))
    && (forall id <- s.revoked :: id in s.owners && id !in s.sessions)
  }

  predicate GoalOk(s: Store, u: User, g: Goal) { g.New? || OwnedBy(s, g.id, u) }

  ghost predicate CallOk(s: Store, c: Call) {
    match c
    case LookUp(_, _) => true
    case Waiting(u, g) => GoalOk(s, u, g)
    case Holding(u, e, step) => u in s.locks && s.locks[u] == e && s.now < e && Midway(s, u, step)
  }

  predicate Holds(c: Call, u: User) { c.Holding? && c.user == u }

  predicate Exclusive(calls: map<nat, Call>) {
    forall p <- calls, q <- calls :: p != q && calls[p].Holding? ==> !Holds(calls[q], calls[p].user)
  }

  ghost predicate AtRest(st: State, u: User) {
    (forall p <- st.calls :: !Holds(st.calls[p], u)) ==> Paired(st.store, u)
  }

  ghost predicate Inv(st: State) {
    && Known(st.store)
    && Exclusive(st.calls)
    && (forall p <- st.calls :: CallOk(st.store, st.calls[p]))
    && (forall u: User :: AtRest(st, u))
  }

  function Start(now: int): State { State(Store(now, map[], map[], map[], map[], {}, {}), map[]) }

  lemma StartInv(now: int)
    ensures Inv(Start(now))
  {}

  // ----- One command -----------------------------------------------------------------------

  lemma ExecKnown(cfg: Config, s: Store, u: User, step: Step, drawn: Id)
    requires Known(s) && Midway(s, u, step) && CanExec(s, step, drawn)
    ensures Known(Exec(cfg, s, u, step, drawn).0)
  {
    if step.PutUser? { assert OwnedBy(s, step.id, s.sessions[step.id].user); }
  }

  /** A command creates at most one live session of its user: the one New stores. */
  lemma ExecSessions(cfg: Config, s: Store, u: User, step: Step, drawn: Id, i: Id)
    requires Midway(s, u, step) && CanExec(s, step, drawn)
    ensures var t := Exec(cfg, s, u, step, drawn).0;
      LiveOf(t, u, i) <==> if step.PutSession? && i == drawn then true
                           else LiveOf(s, u, i) && !(step.RevokeDelSession? && i == step.id)
  {}

  /** The command of a call leads to what its next step expects. */
  lemma ExecMidway(cfg: Config, s: Store, u: User, step: Step, drawn: Id)
    requires Known(s) && Midway(s, u, step) && CanExec(s, step, drawn)
    ensures Midway(Exec(cfg, s, u, step, drawn).0, u, Exec(cfg, s, u, step, drawn).1)
  {
    var t := Exec(cfg, s, u, step, drawn).0;
    forall i: Id
      ensures LiveOf(t, u, i) <==> if step.PutSession? && i == drawn then true
                                   else LiveOf(s, u, i) && !(step.RevokeDelSession? && i == step.id)
    {
      ExecSessions(cfg, s, u, step, drawn, i);
    }
    match step
    case LoadUser(_) => assert LivePointer(s, u) ==> OwnedBy(s, s.users[u].session, u);
    case RevokeLoad(id, _) => assert LiveSession(s, id) ==> OwnedBy(s, id, s.sessions[id].user) && LiveOf(s, u, id);
    case RevokeDelSession(id, _, _) =>
      assert LiveSession(s, id) ==> OwnedBy(s, id, s.sessions[id].user) && LiveOf(s, u, id);
    case Reload(id, _) => assert LiveSession(s, id) ==> OwnedBy(s, id, s.sessions[id].user);
    case PutUser(id, _) => assert LiveOf(t, u, id);
    case _ =>
  }

  /** A command does not touch another user. */
  lemma ExecElsewhere(cfg: Config, s: Store, u: User, step: Step, drawn: Id, v: User)
    requires Known(s) && Midway(s, u, step) && CanExec(s, step, drawn) && v != u
    ensures var t := Exec(cfg, s, u, step, drawn).0;
      && t.now == s.now && t.locks == s.locks && t.failed == s.failed
      && (v in t.users <==> v in s.users) && (v in s.users ==> t.users[v] == s.users[v])
      && (forall id: Id, w: User :: OwnedBy(s, id, w) ==> OwnedBy(t, id, w))
      && (forall id: Id, m: int :: Stored(t, v, id, m) <==> Stored(s, v, id, m))
  {
    var t := Exec(cfg, s, u, step, drawn).0;
    forall id: Id, m: int ensures Stored(t, v, id, m) <==> Stored(s, v, id, m) {
      if id in s.sessions { assert OwnedBy(s, id, s.sessions[id].user); }
    }
  }

  lemma MidwayElsewhere(s: Store, t: Store, v: User, step: Step)
    requires t.now == s.now && (v in t.failed <==> v in s.failed)
    requires (v in t.users <==> v in s.users) && (v in s.users ==> t.users[v] == s.users[v])
    requires forall id: Id, w: User :: OwnedBy(s, id, w) ==> OwnedBy(t, id, w)
    requires forall id: Id, m: int :: Stored(t, v, id, m) <==> Stored(s, v, id, m)
    requires Midway(s, v, step)
    ensures Midway(t, v, step)
  {
    forall id: Id ensures LiveOf(t, v, id) <==> LiveOf(s, v, id) {
      if id in s.sessions {
        assert Stored(s, v, id, s.sessions[id].time.maxTime) <==> Stored(t, v, id, s.sessions[id].time.maxTime);
      }
      if id in t.sessions {
        assert Stored(s, v, id, t.sessions[id].time.maxTime) <==> Stored(t, v, id, t.sessions[id].time.maxTime);
      }
    }
    if LivePointer(s, v) {
      var pointer := s.users[v];
      assert Stored(s, v, pointer.session, pointer.expires) <==> Stored(t, v, pointer.session, pointer.expires);
    }
  }

  /** Time passing takes session and pointer of a pair away together. */
  lemma TickMidway(s: Store, to: int, u: User, step: Step)
    requires s.now <= to && Midway(s, u, step)
    ensures Midway(s.(now := to), u, step)
  {
    var t := s.(now := to);
    forall id: Id ensures LiveOf(t, u, id) ==> LiveOf(s, u, id) {}
  }

  // ----- Every action keeps the invariant ---------------------------------------------------

  /** What one call does to the store and to itself keeps the invariant if it leads to what its next step expects. */
  lemma TriedKeeps(cfg: Config, st: State, p: nat, drawn: Id, taken: bool, t: Store, next: Step)
    requires Inv(st) && p in st.calls && st.calls[p].Holding?
    requires taken ==> CanExec(st.store, st.calls[p].step, drawn)
    requires var u := st.calls[p].user;
      && t == Tried(cfg, st.store, u, st.calls[p].step, drawn, taken).0.(failed := t.failed)
      && st.store.failed <= t.failed <= st.store.failed + {u}
      && Midway(t, u, next)
    ensures Inv(State(t, st.calls[p := st.calls[p].(step := next)]))
  {
    var s, u, step := st.store, st.calls[p].user, st.calls[p].step;
    var st' := State(t, st.calls[p := st.calls[p].(step := next)]);
    assert CallOk(s, st.calls[p]);
    if taken { ExecKnown(cfg, s, u, step, drawn); }
    forall q | q in st'.calls ensures CallOk(t, st'.calls[q]) {
      if q != p {
        var c := st.calls[q];
        assert CallOk(s, c);
        if c.Holding? { TriedElsewhere(cfg, s, t, u, step, drawn, taken, c.user, c.step); }
        if c.Waiting? && taken && !c.goal.New? { ExecOwners(cfg, s, u, step, drawn, c.goal.id, c.user); }
      } else if taken {
        ExecLocks(cfg, s, u, step, drawn);
      }
    }
    forall v: User ensures AtRest(st', v) {
      if v == u {
        assert Holds(st'.calls[p], u);
      } else {
        assert AtRest(st, v);
        if forall q <- st'.calls :: !Holds(st'.calls[q], v) {
          forall q | q in st.calls ensures !Holds(st.calls[q], v) { assert !Holds(st'.calls[q], v); }
          TriedElsewhere(cfg, s, t, u, step, drawn, taken, v, Release);
        }
      }
    }
  }

  lemma ExecLocks(cfg: Config, s: Store, u: User, step: Step, drawn: Id)
    ensures var t := Exec(cfg, s, u, step, drawn).0; t.now == s.now && t.locks == s.locks && t.failed == s.failed
  {}

  lemma ExecOwners(cfg: Config, s: Store, u: User, step: Step, drawn: Id, id: Id, w: User)
    requires CanExec(s, step, drawn) && OwnedBy(s, id, w)
    ensures OwnedBy(Exec(cfg, s, u, step, drawn).0, id, w)
  {}

  /** A command that is tried does not touch what another user's call expects. */
  lemma TriedElsewhere(cfg: Config, s: Store, t: Store, u: User, step: Step, drawn: Id, taken: bool, v: User,
                       other: Step)
    requires Known(s) && Midway(s, u, step) && (taken ==> CanExec(s, step, drawn)) && v != u && Midway(s, v, other)
    requires t == Tried(cfg, s, u, step, drawn, taken).0.(failed := t.failed)
    requires s.failed <= t.failed <= s.failed + {u}
    ensures t.now == s.now && t.locks == s.locks && Midway(t, v, other)
  {
    if taken { ExecElsewhere(cfg, s, u, step, drawn, v); }
    MidwayElsewhere(s, t, v, other);
  }

  lemma CommandKeeps(cfg: Config, st: State, a: Action)
    requires Inv(st) && a.Command? && Enabled(cfg, st, a)
    ensures Inv(Apply(cfg, st, a))
  {
    var s, c := st.store, st.calls[a.call];
    assert CallOk(s, c);
    ExecMidway(cfg, s, c.user, c.step, a.drawn);
    ExecLocks(cfg, s, c.user, c.step, a.drawn);
    var (t, next) := Exec(cfg, s, c.user, c.step, a.drawn);
    TriedKeeps(cfg, st, a.call, a.drawn, true, t, next);
  }

  /** A call may be left at any step, but for the one between the session and its pointer. */
  lemma MidwayNamed(s: Store, u: User, step: Step)
    requires Midway(s, u, step) && !Orphaning(s, step)
    ensures Named(s, u)
  {}

  lemma FailsKeeps(cfg: Config, st: State, a: Action)
    requires Inv(st) && a.Fails? && Enabled(cfg, st, a) && Bearable(cfg, st, a)
    ensures Inv(Apply(cfg, st, a))
  {
    var s, c := st.store, st.calls[a.call];
    assert CallOk(s, c);
    var (t, next) := Tried(cfg, s, c.user, c.step, a.drawn, a.taken);
    if a.taken {
      ExecMidway(cfg, s, c.user, c.step, a.drawn);
      ExecLocks(cfg, s, c.user, c.step, a.drawn);
    }
    MidwayNamed(t, c.user, next);
    var t' := t.(failed := t.failed + {c.user});
    assert Named(t', c.user) by {
      forall id: Id ensures LiveOf(t', c.user, id) <==> LiveOf(t, c.user, id) {}
    }
    TriedKeeps(cfg, st, a.call, a.drawn, a.taken, t', Release);
  }

  lemma TickKeeps(cfg: Config, st: State, a: Action)
    requires Inv(st) && a.Tick? && Enabled(cfg, st, a) && Timely(st, a)
    ensures Inv(Apply(cfg, st, a))
  {
    var st' := Apply(cfg, st, a);
    forall p | p in st'.calls ensures CallOk(st'.store, st'.calls[p]) {
      assert CallOk(st.store, st.calls[p]);
      if st.calls[p].Holding? { TickMidway(st.store, a.to, st.calls[p].user, st.calls[p].step); }
    }
    forall u: User ensures AtRest(st', u) {
      assert AtRest(st, u);
      if forall p <- st'.calls :: !Holds(st'.calls[p], u) { TickMidway(st.store, a.to, u, Release); }
    }
  }

  /** A lock that can be taken is held by no one. */
  lemma FreeMeansUnheld(st: State, u: User)
    requires Inv(st) && !Locked(st.store, u)
    ensures forall p <- st.calls :: !Holds(st.calls[p], u)
    ensures Paired(st.store, u)
  {
    forall p | p in st.calls ensures !Holds(st.calls[p], u) { assert CallOk(st.store, st.calls[p]); }
    assert AtRest(st, u);
  }

  lemma AcquireKeeps(cfg: Config, st: State, a: Action)
    requires Inv(st) && a.Acquire? && Enabled(cfg, st, a)
    ensures Inv(Apply(cfg, st, a))
  {
    var st', u := Apply(cfg, st, a), st.calls[a.call].user;
    FreeMeansUnheld(st, u);
    assert CallOk(st.store, st.calls[a.call]);
    forall p | p in st'.calls ensures CallOk(st'.store, st'.calls[p]) {
      assert CallOk(st.store, st.calls[p]);
      assert !Holds(st.calls[p], u);
      if p != a.call && st.calls[p].Holding? {
        MidwayElsewhere(st.store, st'.store, st.calls[p].user, st.calls[p].step);
      }
      if p == a.call { MidwayElsewhere(st.store, st'.store, u, Release); }
    }
    forall v: User ensures AtRest(st', v) {
      assert AtRest(st, v);
      assert v == u ==> Holds(st'.calls[a.call], v);
      if forall p <- st'.calls :: !Holds(st'.calls[p], v) {
        forall p | p in st.calls ensures !Holds(st.calls[p], v) { assert !Holds(st'.calls[p], v); }
        MidwayElsewhere(st.store, st'.store, v, Release);
      }
    }
  }

  lemma UnlockKeeps(cfg: Config, st: State, a: Action)
    requires Inv(st) && a.Unlock? && Enabled(cfg, st, a)
    ensures Inv(Apply(cfg, st, a))
  {
    var st', u := Apply(cfg, st, a), st.calls[a.call].user;
    assert CallOk(st.store, st.calls[a.call]);
    forall p | p in st'.calls ensures CallOk(st'.store, st'.calls[p]) {
      assert CallOk(st.store, st.calls[p]);
      assert !Holds(st.calls[p], u);
      if st.calls[p].Holding? { MidwayElsewhere(st.store, st'.store, st.calls[p].user, st.calls[p].step); }
    }
    forall v: User ensures AtRest(st', v) {
      assert AtRest(st, v);
      if forall p <- st'.calls :: !Holds(st'.calls[p], v) {
        forall p | p in st.calls && v != u ensures !Holds(st.calls[p], v) {
          if p != a.call { assert !Holds(st'.calls[p], v); }
        }
        MidwayElsewhere(st.store, st'.store, v, Release);
      }
    }
  }

  lemma OutsideKeeps(cfg: Config, st: State, a: Action)
    requires Inv(st) && (a.Begin? || a.Look? || a.GiveUp?) && Enabled(cfg, st, a)
    ensures Inv(Apply(cfg, st, a))
  {
    var st' := Apply(cfg, st, a);
    if a.Look? && LiveSession(st.store, st.calls[a.call].id) {
      assert OwnedBy(st.store, st.calls[a.call].id, st.store.sessions[st.calls[a.call].id].user);
    }
    forall p | p in st'.calls ensures CallOk(st'.store, st'.calls[p]) {
      if p in st.calls { assert CallOk(st.store, st.calls[p]); }
    }
    forall u: User ensures AtRest(st', u) {
      assert AtRest(st, u);
      if forall p <- st'.calls :: !Holds(st'.calls[p], u) {
        forall p | p in st.calls ensures !Holds(st.calls[p], u) {
          if p in st'.calls { assert !Holds(st'.calls[p], u); }
        }
      }
    }
  }

  lemma ActionKeepsInv(cfg: Config, st: State, a: Action)
    requires Inv(st) && Enabled(cfg, st, a) && Timely(st, a) && Bearable(cfg, st, a)
    ensures Inv(Apply(cfg, st, a))
  {
    match a
    case Command(_, _) => CommandKeeps(cfg, st, a);
    case Fails(_, _, _) => FailsKeeps(cfg, st, a);
    case Tick(_) => TickKeeps(cfg, st, a);
    case Acquire(_) => AcquireKeeps(cfg, st, a);
    case Unlock(_) => UnlockKeeps(cfg, st, a);
    case _ => OutsideKeeps(cfg, st, a);
  }

  // ----- Whole runs -------------------------------------------------------------------------

  /** States of a run of any calls in any interleaving, where no call outlives its lock and failures are bearable. */
  ghost predicate IsRun(cfg: Config, sts: seq<State>, acts: seq<Action>) {
    && |sts| == |acts| + 1
    && sts[0] == Start(sts[0].store.now)
    && forall i :: 0 <= i < |acts| ==> Follows(cfg, sts[i], acts[i], sts[i + 1])
  }

  predicate Follows(cfg: Config, st: State, a: Action, st': State) {
    Enabled(cfg, st, a) && Timely(st, a) && Bearable(cfg, st, a) && st' == Apply(cfg, st, a)
  }

  lemma {:induction false} RunInv(cfg: Config, sts: seq<State>, acts: seq<Action>, i: nat)
    requires IsRun(cfg, sts, acts) && i < |sts|
    ensures Inv(sts[i])
    decreases i
  {
    if i == 0 {
      StartInv(sts[0].store.now);
    } else {
      RunInv(cfg, sts, acts, i - 1);
      assert Follows(cfg, sts[i - 1], acts[i - 1], sts[i]);
      ActionKeepsInv(cfg, sts[i - 1], acts[i - 1]);
    }
  }

  lemma {:induction false} FailedRecords(cfg: Config, sts: seq<State>, acts: seq<Action>, i: nat)
    requires IsRun(cfg, sts, acts) && i < |sts| && forall j | 0 <= j < i :: !acts[j].Fails?
    ensures sts[i].store.failed == {}
    decreases i
  {
    if i != 0 {
      FailedRecords(cfg, sts, acts, i - 1);
      assert Follows(cfg, sts[i - 1], acts[i - 1], sts[i]);
    }
  }

  /**
    In every state of every run a user has at most one live session; whenever the user's lock is free it is the one the
    user's pointer names, and they expire together; and if no command has failed there is no pointer without it.
  */
  lemma OneSessionPerUser(cfg: Config, sts: seq<State>, acts: seq<Action>, i: nat, u: User)
    requires IsRun(cfg, sts, acts) && i < |sts|
    ensures forall a: Id, b: Id :: LiveOf(sts[i].store, u, a) && LiveOf(sts[i].store, u, b) ==> a == b
    ensures !Locked(sts[i].store, u) ==> Named(sts[i].store, u)
    ensures !Locked(sts[i].store, u) && LivePointer(sts[i].store, u) && (forall j | 0 <= j < i :: !acts[j].Fails?) ==>
      LiveOf(sts[i].store, u, sts[i].store.users[u].session)
  {
    RunInv(cfg, sts, acts, i);
    var st := sts[i];
    if forall j | 0 <= j < i :: !acts[j].Fails? { FailedRecords(cfg, sts, acts, i); }
    if !Locked(st.store, u) { FreeMeansUnheld(st, u); }
    if p :| p in st.calls && Holds(st.calls[p], u) {
      assert CallOk(st.store, st.calls[p]);
    } else {
      assert AtRest(st, u);
    }
  }

  /** At most one call holds a user's lock, and releasing it deletes that call's own key. */
  lemma LocksExclusive(cfg: Config, sts: seq<State>, acts: seq<Action>, i: nat, p: nat)
    requires IsRun(cfg, sts, acts) && i < |sts| && p in sts[i].calls && sts[i].calls[p].Holding?
    ensures var u := sts[i].calls[p].user;
      && Locked(sts[i].store, u) && sts[i].store.locks[u] == sts[i].calls[p].lockEnd
      && forall q <- sts[i].calls :: Holds(sts[i].calls[q], u) ==> q == p
  {
    RunInv(cfg, sts, acts, i);
    assert CallOk(sts[i].store, sts[i].calls[p]);
  }

  /** Action `i` is a command of a call that is at `step`. */
  predicate Commands(cfg: Config, sts: seq<State>, acts: seq<Action>, i: nat, u: User, step: Step) {
    && i < |acts| < |sts| && acts[i].Command? && acts[i].call in sts[i].calls
    && Holds(sts[i].calls[acts[i].call], u) && sts[i].calls[acts[i].call].step == step
  }

  /** Renew writes only over a session that is still live and unrevoked, keeps its MaxTime, and expires it no later. */
  lemma RenewOnlyOverwrites(cfg: Config, sts: seq<State>, acts: seq<Action>, i: nat, u: User, id: Id, x: Session)
    requires IsRun(cfg, sts, acts) && Commands(cfg, sts, acts, i, u, PutRenewed(id, x))
    ensures LiveOf(sts[i].store, u, id) && id !in sts[i].store.revoked
    ensures sts[i + 1].store.sessions == sts[i].store.sessions[id := x] && x.user == u
    ensures x.time.maxTime == sts[i].store.sessions[id].time.maxTime && x.time.expirationTime <= x.time.maxTime
  {
    RunInv(cfg, sts, acts, i);
    assert Follows(cfg, sts[i], acts[i], sts[i + 1]);
    assert CallOk(sts[i].store, sts[i].calls[acts[i].call]);
  }

  /** Revoking a session deletes no pointer but the one to that session. */
  lemma RevokeKeepsNewerPointer(cfg: Config, sts: seq<State>, acts: seq<Action>, i: nat, u: User, id: Id,
                                o: User, c: Cont, v: User)
    requires IsRun(cfg, sts, acts) && Commands(cfg, sts, acts, i, u, RevokeDelUser(id, o, c))
    requires LivePointer(sts[i].store, v) && sts[i].store.users[v].session != id
    ensures LivePointer(sts[i + 1].store, v) && sts[i + 1].store.users[v] == sts[i].store.users[v]
  {
    RunInv(cfg, sts, acts, i);
    assert Follows(cfg, sts[i], acts[i], sts[i + 1]);
    assert CallOk(sts[i].store, sts[i].calls[acts[i].call]);
  }

  lemma RevokedGrows(cfg: Config, st: State, a: Action)
    requires Enabled(cfg, st, a)
    ensures st.store.revoked <= Apply(cfg, st, a).store.revoked
  {}

  /** A session that some call revoked is never live again, whatever runs later. */
  lemma {:induction false} RevokedForGood(cfg: Config, sts: seq<State>, acts: seq<Action>, i: nat, j: nat, id: Id)
    requires IsRun(cfg, sts, acts) && i <= j < |sts| && id in sts[i].store.revoked
    ensures id in sts[j].store.revoked && !LiveSession(sts[j].store, id)
    decreases j
  {
    RunInv(cfg, sts, acts, j);
    if i < j {
      RevokedForGood(cfg, sts, acts, i, j - 1, id);
      assert Follows(cfg, sts[j - 1], acts[j - 1], sts[j]);
      RevokedGrows(cfg, sts[j - 1], acts[j - 1]);
    }
  }

  predicate Leads(cfg: Config, st: State, a: Action, st': State) { Enabled(cfg, st, a) && st' == Apply(cfg, st, a) }

  /** The bound on time is needed: once the clock reaches the end of a held lock, a second call can take it. */
  lemma OutlivedLockIsShared(cfg: Config, st: State, p: nat, q: nat, to: int)
    returns (st1: State, st2: State, st3: State)
    requires Inv(st) && 0 < cfg.ttl && q !in st.calls
    requires p in st.calls && st.calls[p].Holding? && st.calls[p].lockEnd <= to
    ensures var u := st.calls[p].user;
      && Leads(cfg, st, Tick(to), st1) && !Timely(st, Tick(to))
      && Leads(cfg, st1, Begin(q, Waiting(u, New(Created(cfg, to)))), st2)
      && Leads(cfg, st2, Acquire(q), st3)
      && st3.calls == st.calls[q := st3.calls[q]] && Holds(st3.calls[p], u) && Holds(st3.calls[q], u)
  {
    assert CallOk(st.store, st.calls[p]);
    st1 := Apply(cfg, st, Tick(to));
    st2 := Apply(cfg, st1, Begin(q, Waiting(st.calls[p].user, New(Created(cfg, to)))));
    st3 := Apply(cfg, st2, Acquire(q));
    assert st3.calls == st.calls[q := st3.calls[q]];
  }

  predicate LeadsAll(cfg: Config, st: State, acts: seq<Action>, st': State)
    decreases |acts|
  {
    if acts == [] then st' == st
    else Enabled(cfg, st, acts[0]) && LeadsAll(cfg, Apply(cfg, st, acts[0]), acts[1..], st')
  }

  lemma LeadsThen(cfg: Config, st: State, a: Action, st1: State, acts: seq<Action>, st2: State)
    requires Leads(cfg, st, a, st1) && LeadsAll(cfg, st1, acts, st2)
    ensures LeadsAll(cfg, st, [a] + acts, st2)
  {
    assert ([a] + acts)[1..] == acts;
  }

  lemma FiveLead(cfg: Config, st: State, a: Action, st1: State, b: Action, st2: State, c: Action, st3: State,
                 d: Action, st4: State, e: Action, st5: State)
    requires Leads(cfg, st, a, st1) && Leads(cfg, st1, b, st2) && Leads(cfg, st2, c, st3)
    requires Leads(cfg, st3, d, st4) && Leads(cfg, st4, e, st5)
    ensures LeadsAll(cfg, st, [a] + ([b] + ([c] + ([d] + [e]))), st5)
  {
    assert [e] + [] == [e];
    LeadsThen(cfg, st4, e, st5, [], st5);
    LeadsThen(cfg, st3, d, st4, [e], st5);
    LeadsThen(cfg, st2, c, st3, [d] + [e], st5);
    LeadsThen(cfg, st1, b, st2, [c] + ([d] + [e]), st5);
    LeadsThen(cfg, st, a, st1, [b] + ([c] + ([d] + [e])), st5);
  }

  /** The release of a failed call, then a New of the same user up to the session it stores. */
  function NewFrom(cfg: Config, u: User, p: nat, q: nat, now: int, drawn: Id): seq<Action> {
    var begin := Begin(q, Waiting(u, New(Created(cfg, now))));
    [Unlock(p)] + ([begin] + ([Acquire(q)] + ([Command(q, drawn)] + [Command(q, drawn)])))
  }

  /** A user with a live session and no pointer to it: the next New stores another. */
  lemma SecondSession(cfg: Config, st: State, p: nat, q: nat, id: Id, drawn: Id) returns (st': State)
    requires p in st.calls && st.calls[p].Holding? && st.calls[p].step.Release? && q !in st.calls
    requires var u := st.calls[p].user; LiveOf(st.store, u, id) && !LivePointer(st.store, u)
    requires 0 < cfg.ttl && 0 < cfg.maxTime && drawn !in st.store.owners && drawn != id
    ensures var u := st.calls[p].user;
      && LeadsAll(cfg, st, NewFrom(cfg, u, p, q, st.store.now, drawn), st')
      && LiveOf(st'.store, u, id) && LiveOf(st'.store, u, drawn)
  {
    var u := st.calls[p].user;
    var begin := Begin(q, Waiting(u, New(Created(cfg, st.store.now))));
    var st1 := Apply(cfg, st, Unlock(p));
    var st2 := Apply(cfg, st1, begin);
    var st3 := Apply(cfg, st2, Acquire(q));
    var st4 := Apply(cfg, st3, Command(q, drawn));
    st' := Apply(cfg, st4, Command(q, drawn));
    FiveLead(cfg, st, Unlock(p), st1, begin, st2, Acquire(q), st3, Command(q, drawn), st4, Command(q, drawn), st');
  }

  lemma Orphaned(cfg: Config, st: State, f: Action) returns (id: Id)
    requires Inv(st) && Enabled(cfg, st, f) && !Bearable(cfg, st, f)
    ensures var st', u := Apply(cfg, st, f), st.calls[f.call].user;
      && st'.calls == st.calls[f.call := st.calls[f.call].(step := Release)] && st'.store.now == st.store.now
      && LiveOf(st'.store, u, id) && !LivePointer(st'.store, u)
      && id in st'.store.owners && st'.store.owners.Keys <= st.store.owners.Keys + {f.drawn}
  {
    var u, step := st.calls[f.call].user, st.calls[f.call].step;
    assert CallOk(st.store, st.calls[f.call]);
    if f.taken {
      ExecKnown(cfg, st.store, u, step, f.drawn);
      ExecMidway(cfg, st.store, u, step, f.drawn);
    }
    var (t, next) := Tried(cfg, st.store, u, step, f.drawn, f.taken);
    assert OwnedBy(t, next.id, t.sessions[next.id].user);
    id := next.id;
  }

  /**
    The bound on failures is needed: after any other failure the user's next New finds no pointer to the session that
    was just stored, revokes nothing, and the user has two live sessions.
  */
  lemma OrphanIsSecondSession(cfg: Config, st: State, f: Action, q: nat, drawn: Id) returns (id: Id, st': State)
    requires Inv(st) && Enabled(cfg, st, f) && !Bearable(cfg, st, f)
    requires 0 < cfg.ttl && 0 < cfg.maxTime && q !in st.calls && drawn !in st.store.owners && drawn != f.drawn
    ensures var u := st.calls[f.call].user;
      && LeadsAll(cfg, st, [f] + NewFrom(cfg, u, f.call, q, st.store.now, drawn), st')
      && id != drawn && LiveOf(st'.store, u, id) && LiveOf(st'.store, u, drawn)
  {
    var u, st0 := st.calls[f.call].user, Apply(cfg, st, f);
    id := Orphaned(cfg, st, f);
    st' := SecondSession(cfg, st0, f.call, q, id, drawn);
    LeadsThen(cfg, st, f, st0, NewFrom(cfg, u, f.call, q, st.store.now, drawn), st');
  }

  /** With two holders, the release of either deletes the key of the other. */
  lemma SharedReleaseUnlocks(cfg: Config, st: State, p: nat, q: nat, u: User) returns (st': State)
    requires p in st.calls && q in st.calls && p != q && Holds(st.calls[p], u) && Holds(st.calls[q], u)
    requires st.calls[p].step.Release?
    ensures Leads(cfg, st, Unlock(p), st') && q in st'.calls && Holds(st'.calls[q], u) && !Locked(st'.store, u)
  {
    st' := Apply(cfg, st, Unlock(p));
  }
}
