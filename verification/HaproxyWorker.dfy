/**
  The HAProxy worker behind the admin socket: three maps, a certificate store and a
  crt-list. Any command may fail, with or without having taken effect, and a reload may replace the worker at any time.
*/
module HaproxyWorker {
  import opened Common

  datatype MapName = Subdomains | IndividualDomains | Domains

  datatype Cert = Cert(committed: Option<string>, pending: Option<string>)

  datatype Worker = Worker(
    pid: int,
    subdomains: set<string>,
    individual: set<string>,
    domains: set<string>,
    certs: map<string, Cert>,
    crtList: set<string>)

  function Entries(w: Worker, m: MapName): set<string> {
    match m
    case Subdomains => w.subdomains
    case IndividualDomains => w.individual
    case Domains => w.domains
  }

  function WithEntries(w: Worker, m: MapName, e: set<string>): Worker {
    match m
    case Subdomains => w.(subdomains := e)
    case IndividualDomains => w.(individual := e)
    case Domains => w.(domains := e)
  }

  datatype Cmd =
    | AddMap(name: MapName, key: string)
    | DelMap(name: MapName, key: string)
    | NewCert(path: string)
    | SetCert(path: string, pem: string)
    | CommitCert(path: string)
    | AddCrt(path: string)
    | DelCrt(path: string)
    | DelCert(path: string)

  /** Commands on a certificate slot need the slot, and a commit needs a transaction. */
  predicate Accepts(w: Worker, c: Cmd) {
    match c
    case SetCert(p, _) => p in w.certs
    case CommitCert(p) => p in w.certs && w.certs[p].pending.Some?
    case AddCrt(p) => p in w.certs
    case _ => true
  }

  /** Creating an existing slot or listing a listed certificate changes nothing. */
  function Effect(w: Worker, c: Cmd): Worker {
    match c
    case AddMap(m, k) => WithEntries(w, m, Entries(w, m) + {k})
    case DelMap(m, k) => WithEntries(w, m, Entries(w, m) - {k})
    case NewCert(p) => if p in w.certs then w else w.(certs := w.certs[p := Cert(None, None)])
    case SetCert(p, pem) => if p in w.certs then w.(certs := w.certs[p := w.certs[p].(pending := Some(pem))]) else w
    case CommitCert(p) => if p in w.certs then w.(certs := w.certs[p := Cert(w.certs[p].pending, None)]) else w
    case AddCrt(p) => w.(crtList := w.crtList + {p})
    case DelCrt(p) => w.(crtList := w.crtList - {p})
    case DelCert(p) => w.(certs := w.certs - {p})
  }

  predicate Serves(w: Worker, path: string) {
    path in w.certs && w.certs[path].committed.Some? && path in w.crtList
  }

  /** A worker as it starts: the runtime maps, certificates and crt-list of the one before are gone. */
  function Started(pid: int): Worker { Worker(pid, {}, {}, {}, map[], {}) }

  /** The worker a command reached, by the process id it left behind. */
  function Reached(w: Worker, pid: int): Worker { if pid == w.pid then w else Started(pid) }

  /** A command succeeds with its effect, or fails with or without it. */
  predicate Took(w: Worker, c: Cmd, ok: bool, w': Worker) {
    || (Accepts(w, c) && w' == Effect(w, c))
    || (!ok && w' == w)
  }

  /** From one worker to a later one: the same, or one with a process id that was never used before. */
  predicate Onward(used: set<int>, w: Worker, used': set<int>, w': Worker) {
    used <= used' && w'.pid in used' && (w'.pid == w.pid || w'.pid !in used)
  }

  /** Going onward twice is going onward, and the same worker at the end was the same in between. */
  lemma OnwardTwice(u0: set<int>, w0: Worker, u1: set<int>, w1: Worker, u2: set<int>, w2: Worker)
    requires w0.pid in u0 && Onward(u0, w0, u1, w1) && Onward(u1, w1, u2, w2)
    ensures Onward(u0, w0, u2, w2) && (w2.pid == w0.pid ==> w1.pid == w0.pid)
  {}

  /** What happened to the workers behind the socket. */
  datatype Entry = Reloaded(w: Worker) | Did(c: Cmd, w: Worker)

  /** The admin socket. Reloads are asynchronous: any command may find another worker than the one before. */
  class HAProxy {
    var w: Worker
    var used: set<int>
    ghost var commands: nat       // map entries added or deleted so far
    ghost var failures: nat       // commands and listings that failed so far
    ghost var log: seq<Entry>

    constructor (pid: int)
      requires pid != 0
      ensures w == Started(pid) && used == {0, pid} && log == [Reloaded(w)] && commands == failures == 0
    {
      w, used := Started(pid), {0, pid};
      commands, failures := 0, 0;
      log := [Reloaded(Started(pid))];
    }

    /** A reload may happen here. */
    method Interrupt()
      modifies this
      ensures commands == old(commands) && failures == old(failures) && used == old(used) + {w.pid}
      ensures if w.pid == old(w.pid) then w == old(w) && log == old(log)
              else w == Started(w.pid) && w.pid !in old(used) && log == old(log) + [Reloaded(w)]
      ensures old(w.pid) in old(used) ==> Onward(old(used), old(w), used, w)
    {
      var pid: int := *;
      if pid !in used && pid != w.pid {
        w := Started(pid);
        log := log + [Reloaded(w)];
      }
      used := used + {w.pid};
    }

    method Exec(c: Cmd) returns (ok: bool)
      requires w.pid in used
      modifies this
      ensures Onward(old(used), old(w), used, w) && used == old(used) + {w.pid}
      ensures Took(Reached(old(w), w.pid), c, ok, w)
      ensures log == old(log) + (if w.pid == old(w.pid) then [] else [Reloaded(Started(w.pid))]) + [Did(c, w)]
      ensures commands == old(commands) + if c.AddMap? || c.DelMap? then 1 else 0
      ensures failures == old(failures) + if ok then 0 else 1
    {
      Interrupt();
      var taken, answered := *, *;
      ok := Accepts(w, c) && taken && answered;
      if Accepts(w, c) && taken { w := Effect(w, c); }
      if c.AddMap? || c.DelMap? { commands := commands + 1; }
      if !ok { failures := failures + 1; }
      log := log + [Did(c, w)];
    }

    method ShowMap(m: MapName) returns (ok: bool, keys: set<string>)
      requires w.pid in used
      modifies this
      ensures Onward(old(used), old(w), used, w) && used == old(used) + {w.pid} && commands == old(commands)
      ensures w == Reached(old(w), w.pid) && log == old(log) + if w.pid == old(w.pid) then [] else [Reloaded(w)]
      ensures keys == if ok then Entries(w, m) else {}
      ensures failures == old(failures) + if ok then 0 else 1
    {
      Interrupt();
      ok := *;
      if !ok { failures := failures + 1; }
      keys := if ok then Entries(w, m) else {};
    }

    method ShowPID() returns (ok: bool, pid: int)
      requires w.pid in used
      modifies this
      ensures Onward(old(used), old(w), used, w) && used == old(used) + {w.pid} && commands == old(commands)
      ensures w == Reached(old(w), w.pid) && log == old(log) + if w.pid == old(w.pid) then [] else [Reloaded(w)]
      ensures ok ==> pid == w.pid
      ensures failures == old(failures) + if ok then 0 else 1
    {
      Interrupt();
      ok := *;
      if !ok { failures := failures + 1; }
      pid := w.pid;
    }
  }
}
