/**
  How far renewals can push a session's limits: over serial calls, and over every
  interleaving of the protocol.
*/
module SessionTimes {
  import opened Sessions

  // ----- Session times over serial renewals ------------------------------------------------

  /** A Renew call: refused after MaxRenewTime or MaxTime, otherwise the new times. */
  function RenewAt(cfg: Config, t: Times, at: int): Times {
    if t.maxRenewTime < at || t.maxTime < at then t else Renewed(cfg, t, at)
  }

  function RenewAll(cfg: Config, t: Times, ats: seq<int>): Times {
    if ats == [] then t else RenewAt(cfg, RenewAll(cfg, t, ats[..|ats| - 1]), ats[|ats| - 1])
  }

  /** Neither limit passes creation plus the configured MaxTime. */
  predicate WithinMax(cfg: Config, created: int, t: Times) {
    t.expirationTime <= created + cfg.maxTime && t.maxRenewTime <= created + cfg.maxTime
  }

  lemma {:induction false} MaxTimeFixed(cfg: Config, created: int, ats: seq<int>)
    ensures RenewAll(cfg, Created(cfg, created), ats).maxTime == created + cfg.maxTime
    decreases ats
  {
    if ats != [] { MaxTimeFixed(cfg, created, ats[..|ats| - 1]); }
  }

  lemma {:induction false} DurationsBoundTimes(cfg: Config, created: int, ats: seq<int>)
    requires cfg.expirationTime <= cfg.maxTime && cfg.maxRenewTime <= cfg.maxTime
    ensures WithinMax(cfg, created, RenewAll(cfg, Created(cfg, created), ats))
    decreases ats
  {
    MaxTimeFixed(cfg, created, ats);
    if ats != [] {
      DurationsBoundTimes(cfg, created, ats[..|ats| - 1]);
      MaxTimeFixed(cfg, created, ats[..|ats| - 1]);
    }
  }

  /** However often a session is renewed, its limits stay within MaxTime, exactly when both configured durations do. */
  lemma WithinMaxIffConfigured(cfg: Config, created: int)
    ensures (forall ats: seq<int> :: WithinMax(cfg, created, RenewAll(cfg, Created(cfg, created), ats)))
      <==> cfg.expirationTime <= cfg.maxTime && cfg.maxRenewTime <= cfg.maxTime
  {
    if cfg.expirationTime <= cfg.maxTime && cfg.maxRenewTime <= cfg.maxTime {
      forall ats: seq<int> ensures WithinMax(cfg, created, RenewAll(cfg, Created(cfg, created), ats)) {
        DurationsBoundTimes(cfg, created, ats);
      }
    } else {
      assert !WithinMax(cfg, created, RenewAll(cfg, Created(cfg, created), []));
    }
  }

  predicate Accepted(t: Times, at: int) { at <= t.maxRenewTime && at <= t.maxTime }

  /** Some renewal of the list was accepted. */
  predicate EverRenewed(cfg: Config, t: Times, ats: seq<int>) {
    ats != [] && (EverRenewed(cfg, t, ats[..|ats| - 1]) || Accepted(RenewAll(cfg, t, ats[..|ats| - 1]), ats[|ats| - 1]))
  }

  /** The limits are within MaxTime exactly when both configured durations are, or some renewal has been accepted. */
  lemma {:induction false} WithinMaxOnceRenewed(cfg: Config, created: int, ats: seq<int>)
    ensures WithinMax(cfg, created, RenewAll(cfg, Created(cfg, created), ats))
      <==> (cfg.expirationTime <= cfg.maxTime && cfg.maxRenewTime <= cfg.maxTime)
           || EverRenewed(cfg, Created(cfg, created), ats)
    ensures !EverRenewed(cfg, Created(cfg, created), ats) ==>
      RenewAll(cfg, Created(cfg, created), ats) == Created(cfg, created)
    decreases ats
  {
    if ats != [] {
      WithinMaxOnceRenewed(cfg, created, ats[..|ats| - 1]);
      MaxTimeFixed(cfg, created, ats[..|ats| - 1]);
    }
  }

  /** A service configured to let sessions be renewed for an hour but to last half of one. */
  lemma RenewablePastMaxTime()
    ensures var cfg := Config(1800, 3600, 600, 10); !WithinMax(cfg, 0, RenewAll(cfg, Created(cfg, 0), []))
  {}

  // ----- The same bound in every interleaving ------------------------------------------------

  predicate Bounded(t: Times) { t.expirationTime <= t.maxTime && t.maxRenewTime <= t.maxTime }

  /** Never renewed since it was created. */
  predicate AsCreated(cfg: Config, t: Times) { t == Created(cfg, t.maxTime - cfg.maxTime) }

  predicate Fair(cfg: Config, t: Times) { Bounded(t) || AsCreated(cfg, t) }

  /** From here on every renewal sets MaxRenewTime to MaxTime. */
  predicate Capped(cfg: Config, t: Times) { t.maxRenewTime + cfg.maxRenewTime > t.maxTime }

  /** A renewal decided at `at` stays within MaxTime even if other renewals come first. */
  predicate RenewOk(cfg: Config, s: Store, id: Id, at: int) {
    id in s.sessions ==>
      var t := s.sessions[id].time;
      at <= t.maxTime && (at + cfg.maxRenewTime <= t.maxTime || Capped(cfg, t))
  }

  predicate StepTimes(cfg: Config, s: Store, step: Step) {
    match step
    case LoadUser(t) => Fair(cfg, t)
    case RevokeLoad(_, c) => c.Create? ==> Fair(cfg, c.time)
    case RevokeDelSession(_, _, c) => c.Create? ==> Fair(cfg, c.time)
    case RevokeLoadUser(_, _, c) => c.Create? ==> Fair(cfg, c.time)
    case RevokeDelUser(_, _, c) => c.Create? ==> Fair(cfg, c.time)
    case DelStaleUser(t) => Fair(cfg, t)
    case PutSession(t) => Fair(cfg, t)
    case PutUser(_, _) => true
    case Reload(id, at) => RenewOk(cfg, s, id, at)
    case PutRenewed(id, x) =>
      && Bounded(x.time)
      && (0 < cfg.maxRenewTime && id in s.sessions && Capped(cfg, s.sessions[id].time) ==> Capped(cfg, x.time))
    case Release => true
  }

  predicate CallTimes(cfg: Config, s: Store, c: Call) {
    match c
    case LookUp(_, _) => true
    case Waiting(_, New(t)) => Fair(cfg, t)
    case Waiting(_, Renew(id, at)) => RenewOk(cfg, s, id, at)
    case Waiting(_, Revoke(_)) => true
    case Holding(_, _, step) => StepTimes(cfg, s, step)
  }

  ghost predicate TimesInv(cfg: Config, st: State) {
    && (forall id <- st.store.sessions :: Fair(cfg, st.store.sessions[id].time))
    && (forall p <- st.calls :: CallTimes(cfg, st.store, st.calls[p]))
  }

  lemma ExecTimes(cfg: Config, s: Store, u: User, step: Step, drawn: Id)
    requires forall id <- s.sessions :: Fair(cfg, s.sessions[id].time)
    requires StepTimes(cfg, s, step)
    ensures StepTimes(cfg, Exec(cfg, s, u, step, drawn).0, Exec(cfg, s, u, step, drawn).1)
    ensures var t := Exec(cfg, s, u, step, drawn).0;
      forall id <- t.sessions :: Fair(cfg, t.sessions[id].time)
  {}

  /** Renewals decided earlier stay good: only another renewal touches the session, and it keeps the cap. */
  lemma ExecKeepsRenewal(cfg: Config, s: Store, u: User, step: Step, drawn: Id, id: Id, at: int)
    requires Midway(s, u, step) && StepTimes(cfg, s, step) && CanExec(s, step, drawn)
    requires id in s.owners && RenewOk(cfg, s, id, at)
    ensures RenewOk(cfg, Exec(cfg, s, u, step, drawn).0, id, at)
  {}

  /** A command of one call leaves the times another call relies on. */
  lemma ExecOthersTimes(cfg: Config, st: State, p: nat, drawn: Id, q: nat)
    requires Inv(st) && TimesInv(cfg, st) && p in st.calls && st.calls[p].Holding? && q in st.calls && q != p
    requires CanExec(st.store, st.calls[p].step, drawn)
    ensures CallTimes(cfg, Exec(cfg, st.store, st.calls[p].user, st.calls[p].step, drawn).0, st.calls[q])
  {
    var s, u, step := st.store, st.calls[p].user, st.calls[p].step;
    var c := st.calls[q];
    assert CallOk(s, st.calls[p]) && CallOk(s, c);
    assert CallTimes(cfg, s, c) && CallTimes(cfg, s, st.calls[p]);
    if c.Waiting? && c.goal.Renew? {
      ExecKeepsRenewal(cfg, s, u, step, drawn, c.goal.id, c.goal.at);
    } else if c.Holding? {
      assert !Holds(c, u);
      if c.step.Reload? { ExecKeepsRenewal(cfg, s, u, step, drawn, c.step.id, c.step.at); }
      if c.step.PutRenewed? {
        ExecElsewhere(cfg, s, u, step, drawn, c.user);
        assert OwnedBy(s, c.step.id, c.user);
      }
    }
  }

  lemma FailedIrrelevant(cfg: Config, s: Store, failed: set<User>, c: Call)
    ensures CallTimes(cfg, s.(failed := failed), c) <==> CallTimes(cfg, s, c)
  {}

  lemma TriedKeepsTimes(cfg: Config, st: State, a: Action)
    requires Inv(st) && TimesInv(cfg, st) && (a.Command? || a.Fails?) && Enabled(cfg, st, a)
    ensures TimesInv(cfg, Apply(cfg, st, a))
  {
    var st', c := Apply(cfg, st, a), st.calls[a.call];
    var taken := a.Command? || a.taken;
    var t := Tried(cfg, st.store, c.user, c.step, a.drawn, taken).0;
    assert CallTimes(cfg, st.store, c);
    if taken { ExecTimes(cfg, st.store, c.user, c.step, a.drawn); }
    forall p | p in st'.calls ensures CallTimes(cfg, st'.store, st'.calls[p]) {
      assert CallTimes(cfg, st.store, st.calls[p]);
      if taken && p != a.call { ExecOthersTimes(cfg, st, a.call, a.drawn, p); }
      FailedIrrelevant(cfg, t, st'.store.failed, st'.calls[p]);
    }
  }

  lemma ActionKeepsTimes(cfg: Config, st: State, a: Action)
    requires Inv(st) && TimesInv(cfg, st) && Enabled(cfg, st, a)
    ensures TimesInv(cfg, Apply(cfg, st, a))
  {
    if a.Command? || a.Fails? {
      TriedKeepsTimes(cfg, st, a);
    } else {
      var st' := Apply(cfg, st, a);
      forall p | p in st'.calls ensures CallTimes(cfg, st'.store, st'.calls[p]) {
        if p in st.calls { assert CallTimes(cfg, st.store, st.calls[p]); }
      }
    }
  }

  /**
    No interleaving of renewals takes a stored session's limits past its MaxTime: only a session that was never renewed
    can have them beyond it, and only if they were configured so.
  */
  lemma {:induction false} RunTimes(cfg: Config, sts: seq<State>, acts: seq<Action>, i: nat)
    requires IsRun(cfg, sts, acts) && i < |sts|
    ensures TimesInv(cfg, sts[i])
    ensures forall id <- sts[i].store.sessions ::
              var t := sts[i].store.sessions[id].time;
              && (Bounded(t) || AsCreated(cfg, t))
              && (cfg.expirationTime <= cfg.maxTime && cfg.maxRenewTime <= cfg.maxTime ==> Bounded(t))
    decreases i
  {
    if i != 0 {
      RunTimes(cfg, sts, acts, i - 1);
      RunInv(cfg, sts, acts, i - 1);
      assert Follows(cfg, sts[i - 1], acts[i - 1], sts[i]);
      ActionKeepsTimes(cfg, sts[i - 1], acts[i - 1]);
    }
  }
}
