/**
  One proxied SSH channel: the goroutines that copy the target's output and the client's input, the one that signals
  the end of output, and the loop that forwards channel requests and replies, interleaved in any order. A copy may
  break, a reply may fail to be sent, and a failed request or a cancelled session ends the loop.
*/
module SshChannel {
  import opened Common

  datatype Lane = Stdin | Stdout | Stderr

  datatype Request = Request(kind: string, wantReply: bool)

  datatype Msg = Data(lane: Lane, b: int) | Req(r: Request) | Reply(ok: bool) | Eof | Close

  /**
    Bytes one end has sent, whether it sends no more, how many were copied on, whether the copy is over, and whether it
    broke.
  */
  datatype Pipe = Pipe(sent: seq<int>, ended: bool, copied: nat, done: bool, broken: bool)

  /**
    Requests received, whether their channel was closed, how many were forwarded, and whether the loop selects on it.
  */
  datatype Queue = Queue(sent: seq<Request>, ended: bool, taken: nat, open: bool)

  datatype Closer = Waiting | EofSent | DoneClosed

  /** Whose reply the request loop is waiting for. */
  datatype Await = Nobody | Target | Client

  datatype State = State(
    stdin: Pipe, stdout: Pipe, stderr: Pipe,
    client: Queue, target: Queue, await: Await,
    closer: Closer, outDoneSeen: bool, closed: bool, aborted: bool,
    toClient: seq<Msg>, toTarget: seq<Msg>, lostToClient: nat, lostToTarget: nat)

  const START := State(
    Pipe([], false, 0, false, false), Pipe([], false, 0, false, false), Pipe([], false, 0, false, false),
    Queue([], false, 0, true), Queue([], false, 0, true), Nobody, Waiting, false, false, false, [], [], 0, 0)

  function PipeOf(s: State, l: Lane): Pipe {
    match l case Stdin => s.stdin case Stdout => s.stdout case Stderr => s.stderr
  }

  /** What the peers and the network do, then what the proxy does. */
  datatype Step =
    | SendsByte(lane: Lane, b: int) | EndsLane(lane: Lane)
    | ClientAsks(r: Request) | ClientEnds | TargetAsks(r: Request) | TargetEnds
    | TargetReplies(ok: bool, sent: bool) | ClientReplies(ok: bool, sent: bool)
    | CopyBreaks(lane: Lane) | Aborts
    | CopyByte(lane: Lane) | CopyReturns(lane: Lane)
    | SendEof | CloseOutDone
    | ForwardClient | ClientDrained | ForwardTarget | TargetDrained | SeeOutDone | Return

  predicate Outside(a: Step) {
    || a.SendsByte? || a.EndsLane? || a.ClientAsks? || a.ClientEnds? || a.TargetAsks? || a.TargetEnds?
    || a.TargetReplies? || a.ClientReplies? || a.CopyBreaks? || a.Aborts?
  }

  /** The loop goes on while it waits for the target's requests or the end of its output. */
  predicate Looping(s: State) { !s.closed && (s.target.open || !s.outDoneSeen) }

  predicate Selecting(s: State) { Looping(s) && s.await.Nobody? }

  predicate Enabled(s: State, a: Step) {
    match a
    case SendsByte(l, _) => !PipeOf(s, l).ended
    case EndsLane(l) => !PipeOf(s, l).ended
    case ClientAsks(_) => !s.client.ended
    case ClientEnds => !s.client.ended
    case TargetAsks(_) => !s.target.ended
    case TargetEnds => !s.target.ended
    case TargetReplies(_, _) => Looping(s) && s.await.Target?
    case ClientReplies(_, _) => Looping(s) && s.await.Client?
    case CopyBreaks(l) => !s.closed && !PipeOf(s, l).done
    case Aborts => Looping(s)
    case CopyByte(l) => !s.closed && !PipeOf(s, l).done && PipeOf(s, l).copied < |PipeOf(s, l).sent|
    case CopyReturns(l) =>
      !s.closed && !PipeOf(s, l).done && PipeOf(s, l).ended && PipeOf(s, l).copied == |PipeOf(s, l).sent|
    case SendEof => !s.closed && s.closer.Waiting? && s.stdout.done && s.stderr.done
    case CloseOutDone => s.closer.EofSent?
    case ForwardClient => Selecting(s) && s.client.open && s.client.taken < |s.client.sent|
    case ClientDrained => Selecting(s) && s.client.open && s.client.ended && s.client.taken == |s.client.sent|
    case ForwardTarget => Selecting(s) && s.target.open && s.target.taken < |s.target.sent|
    case TargetDrained => Selecting(s) && s.target.open && s.target.ended && s.target.taken == |s.target.sent|
    case SeeOutDone => Selecting(s) && s.closer.DoneClosed? && !s.outDoneSeen
    case Return => !s.closed && !Looping(s)
  }

  // What a step does, one component of the state at a time.

  function PipeAfter(p: Pipe, l: Lane, a: Step): Pipe {
    match a
    case SendsByte(m, b) => if m == l then p.(sent := p.sent + [b]) else p
    case EndsLane(m) => if m == l then p.(ended := true) else p
    case CopyByte(m) => if m == l then p.(copied := p.copied + 1) else p
    case CopyReturns(m) => if m == l then p.(done := true) else p
    case CopyBreaks(m) => if m == l then p.(done := true, broken := true) else p
    case _ => p
  }

  function ClientAfter(q: Queue, a: Step): Queue {
    match a
    case ClientAsks(r) => q.(sent := q.sent + [r])
    case ClientEnds => q.(ended := true)
    case ForwardClient => q.(taken := q.taken + 1)
    case ClientDrained => q.(open := false)
    case _ => q
  }

  function TargetAfter(q: Queue, a: Step): Queue {
    match a
    case TargetAsks(r) => q.(sent := q.sent + [r])
    case TargetEnds => q.(ended := true)
    case ForwardTarget => q.(taken := q.taken + 1)
    case TargetDrained => q.(open := false)
    case _ => q
  }

  function AwaitAfter(s: State, a: Step): Await
    requires Enabled(s, a)
  {
    match a
    case ForwardClient => if s.client.sent[s.client.taken].wantReply then Target else Nobody
    case ForwardTarget => if s.target.sent[s.target.taken].wantReply then Client else Nobody
    case TargetReplies(_, _) => Nobody
    case ClientReplies(_, _) => Nobody
    case _ => s.await
  }

  function CloserAfter(c: Closer, a: Step): Closer {
    match a case SendEof => EofSent case CloseOutDone => DoneClosed case _ => c
  }

  predicate ClosedAfter(closed: bool, a: Step) { closed || a.Return? || a.Aborts? }

  /** What a step sends to the client. */
  function ForClient(s: State, a: Step): Option<Msg>
    requires Enabled(s, a)
  {
    match a
    case CopyByte(l) => if l.Stdin? then None else Some(Data(l, PipeOf(s, l).sent[PipeOf(s, l).copied]))
    case SendEof => Some(Eof)
    case ForwardTarget => Some(Req(s.target.sent[s.target.taken]))
    case TargetReplies(ok, sent) => if sent then Some(Reply(ok)) else None
    case Return => Some(Close)
    case Aborts => Some(Close)
    case _ => None
  }

  /** What a step sends to the target; behind the client's input, whether it ended or broke, goes an end-of-file. */
  function ForTarget(s: State, a: Step): Option<Msg>
    requires Enabled(s, a)
  {
    match a
    case CopyByte(l) => if l.Stdin? then Some(Data(l, s.stdin.sent[s.stdin.copied])) else None
    case CopyReturns(l) => if l.Stdin? then Some(Eof) else None
    case CopyBreaks(l) => if l.Stdin? then Some(Eof) else None
    case ForwardClient => Some(Req(s.client.sent[s.client.taken]))
    case ClientReplies(ok, sent) => if sent then Some(Reply(ok)) else None
    case Return => Some(Close)
    case Aborts => Some(Close)
    case _ => None
  }

  function With(t: seq<Msg>, m: Option<Msg>): seq<Msg> { if m.Some? then t + [m.value] else t }

  function Apply(s: State, a: Step): State
    requires Enabled(s, a)
  {
    State(PipeAfter(s.stdin, Stdin, a), PipeAfter(s.stdout, Stdout, a), PipeAfter(s.stderr, Stderr, a),
          ClientAfter(s.client, a), TargetAfter(s.target, a), AwaitAfter(s, a),
          CloserAfter(s.closer, a), s.outDoneSeen || a.SeeOutDone?, ClosedAfter(s.closed, a),
          s.aborted || a.Aborts?,
          With(s.toClient, ForClient(s, a)), With(s.toTarget, ForTarget(s, a)),
          s.lostToClient + (if a.TargetReplies? && !a.sent then 1 else 0),
          s.lostToTarget + (if a.ClientReplies? && !a.sent then 1 else 0))
  }

  /** The bytes of one stream, in the order the receiver gets them. */
  function Bytes(t: seq<Msg>, l: Lane): seq<int> {
    if t == [] then []
    else var m := t[|t| - 1]; Bytes(t[..|t| - 1], l) + if m.Data? && m.lane == l then [m.b] else []
  }

  function Requests(t: seq<Msg>): seq<Request> {
    if t == [] then []
    else var m := t[|t| - 1]; Requests(t[..|t| - 1]) + if m.Req? then [m.r] else []
  }

  function Replies(t: seq<Msg>): nat {
    if t == [] then 0 else Replies(t[..|t| - 1]) + if t[|t| - 1].Reply? then 1 else 0
  }

  /** How many of the first `k` requests want a reply. */
  function Wanting(rs: seq<Request>, k: nat): nat
    requires k <= |rs|
  {
    if k == 0 then 0 else Wanting(rs, k - 1) + if rs[k - 1].wantReply then 1 else 0
  }

  lemma {:induction false} WantingMore(rs: seq<Request>, r: Request, k: nat)
    requires k <= |rs|
    ensures Wanting(rs + [r], k) == Wanting(rs, k)
  {
    if k != 0 { WantingMore(rs, r, k - 1); }
  }

  lemma Snoc(t: seq<Msg>, m: Msg, l: Lane)
    ensures Bytes(t + [m], l) == Bytes(t, l) + if m.Data? && m.lane == l then [m.b] else []
    ensures Requests(t + [m]) == Requests(t) + if m.Req? then [m.r] else []
    ensures Replies(t + [m]) == Replies(t) + if m.Reply? then 1 else 0
  {
    assert (t + [m])[..|t|] == t;
  }

  /** Nothing follows a close, and after an end-of-file come neither data nor a second one. */
  predicate WellOrdered(t: seq<Msg>) {
    forall i, j | 0 <= i < j < |t| :: t[i] != Close && (t[i].Eof? ==> !t[j].Data? && !t[j].Eof?)
  }

  predicate PipeOk(p: Pipe) {
    p.copied <= |p.sent| && (p.broken ==> p.done) && (p.done && !p.broken ==> p.ended && p.copied == |p.sent|)
  }

  predicate QueueOk(q: Queue) { q.taken <= |q.sent| && (!q.open ==> q.ended && q.taken == |q.sent|) }

  predicate FlagsOk(s: State) {
    && PipeOk(s.stdin) && PipeOk(s.stdout) && PipeOk(s.stderr)
    && QueueOk(s.client) && QueueOk(s.target)
    && (!s.closer.Waiting? ==> s.stdout.done && s.stderr.done)
    && (s.outDoneSeen ==> s.closer.DoneClosed?)
    && (s.closed && !s.aborted ==> !s.target.open && s.outDoneSeen)
    && (!s.await.Nobody? && !s.closed ==> Looping(s))
  }

  /** A transcript never holds a close or end-of-file the flags do not know of. */
  predicate Marked(t: seq<Msg>, ended: bool, closed: bool) {
    && WellOrdered(t)
    && (Eof in t <==> ended) && (Close in t <==> closed)
  }

  /** The receiver has, of one stream, what was copied and in that order. */
  predicate Carried(t: seq<Msg>, l: Lane, p: Pipe) { p.copied <= |p.sent| && Bytes(t, l) == p.sent[..p.copied] }

  predicate Relayed(t: seq<Msg>, q: Queue) { q.taken <= |q.sent| && Requests(t) == q.sent[..q.taken] }

  predicate CopiedOk(s: State) {
    && Carried(s.toTarget, Stdin, s.stdin)
    && Carried(s.toClient, Stdout, s.stdout) && Carried(s.toClient, Stderr, s.stderr)
    && Relayed(s.toClient, s.target) && Relayed(s.toTarget, s.client)
  }

  /** Every forwarded request that wants a reply has had one, sent or lost, but for the one being waited for. */
  predicate Answered(t: seq<Msg>, q: Queue, waiting: bool, lost: nat) {
    q.taken <= |q.sent| && Replies(t) + lost + (if waiting then 1 else 0) == Wanting(q.sent, q.taken)
  }

  predicate AnsweredOk(s: State) {
    && Answered(s.toClient, s.client, s.await.Target?, s.lostToClient)
    && Answered(s.toTarget, s.target, s.await.Client?, s.lostToTarget)
  }

  predicate Inv(s: State) {
    && FlagsOk(s) && AnsweredOk(s)
    && Marked(s.toClient, !s.closer.Waiting?, s.closed)
    && Marked(s.toTarget, s.stdin.done, s.closed)
    && CopiedOk(s)
  }

  lemma FlagsKept(s: State, a: Step)
    requires FlagsOk(s) && Enabled(s, a)
    ensures FlagsOk(Apply(s, a))
  {}

  lemma MarkedSnoc(t: seq<Msg>, m: Msg, ended: bool)
    requires Marked(t, ended, false)
    requires (m.Data? || m.Eof?) ==> !ended
    ensures Marked(t + [m], ended || m.Eof?, m.Close?)
  {
    var t' := t + [m];
    forall i, j | 0 <= i < j < |t'| ensures t'[i] != Close && (t'[i].Eof? ==> !t'[j].Data? && !t'[j].Eof?) {
      assert t'[i] == t[i] && t[i] in t;
    }
  }

  lemma ClientMarksKept(s: State, a: Step)
    requires FlagsOk(s) && Marked(s.toClient, !s.closer.Waiting?, s.closed) && Enabled(s, a)
    ensures Marked(With(s.toClient, ForClient(s, a)), !CloserAfter(s.closer, a).Waiting?, ClosedAfter(s.closed, a))
  {
    var m := ForClient(s, a);
    if m.Some? { MarkedSnoc(s.toClient, m.value, !s.closer.Waiting?); }
  }

  lemma TargetMarksKept(s: State, a: Step)
    requires Marked(s.toTarget, s.stdin.done, s.closed) && Enabled(s, a)
    ensures Marked(With(s.toTarget, ForTarget(s, a)), PipeAfter(s.stdin, Stdin, a).done, ClosedAfter(s.closed, a))
  {
    var m := ForTarget(s, a);
    if m.Some? { MarkedSnoc(s.toTarget, m.value, s.stdin.done); }
  }

  lemma CarriedSnoc(t: seq<Msg>, m: Msg, l: Lane, p: Pipe)
    requires Carried(t, l, p)
    ensures m.Data? && m.lane == l && p.copied < |p.sent| && m.b == p.sent[p.copied] ==>
      Carried(t + [m], l, p.(copied := p.copied + 1))
    ensures !(m.Data? && m.lane == l) ==> Carried(t + [m], l, p)
  {
    Snoc(t, m, l);
    if p.copied < |p.sent| { assert p.sent[..p.copied + 1] == p.sent[..p.copied] + [p.sent[p.copied]]; }
  }

  /** Which message goes with which change of a stream. */
  lemma LaneKept(t: seq<Msg>, m: Option<Msg>, l: Lane, p: Pipe, a: Step)
    requires Carried(t, l, p)
    requires if a == CopyByte(l) then p.copied < |p.sent| && m == Some(Data(l, p.sent[p.copied]))
             else m.None? || !(m.value.Data? && m.value.lane == l)
    ensures Carried(With(t, m), l, PipeAfter(p, l, a))
  {
    if m.Some? { CarriedSnoc(t, m.value, l, p); }
    if a.SendsByte? { assert (p.sent + [a.b])[..p.copied] == p.sent[..p.copied]; }
  }

  lemma LanesKept(s: State, a: Step)
    requires Enabled(s, a)
    requires Carried(s.toTarget, Stdin, s.stdin)
    requires Carried(s.toClient, Stdout, s.stdout) && Carried(s.toClient, Stderr, s.stderr)
    ensures Carried(With(s.toTarget, ForTarget(s, a)), Stdin, PipeAfter(s.stdin, Stdin, a))
    ensures Carried(With(s.toClient, ForClient(s, a)), Stdout, PipeAfter(s.stdout, Stdout, a))
    ensures Carried(With(s.toClient, ForClient(s, a)), Stderr, PipeAfter(s.stderr, Stderr, a))
  {
    LaneKept(s.toTarget, ForTarget(s, a), Stdin, s.stdin, a);
    LaneKept(s.toClient, ForClient(s, a), Stdout, s.stdout, a);
    LaneKept(s.toClient, ForClient(s, a), Stderr, s.stderr, a);
  }

  /** What a step may do to the requests of one side. */
  datatype QueueStep = Stays | Gets(r: Request) | Passes

  predicate Moves(q: Queue, q': Queue, k: QueueStep) {
    match k
    case Stays => q'.sent == q.sent && q'.taken == q.taken
    case Gets(r) => q'.sent == q.sent + [r] && q'.taken == q.taken
    case Passes => q'.sent == q.sent && q.taken < |q.sent| && q'.taken == q.taken + 1
  }

  lemma RelayedKept(t: seq<Msg>, m: Option<Msg>, q: Queue, q': Queue, k: QueueStep)
    requires Relayed(t, q) && Moves(q, q', k)
    requires if k.Passes? then m == Some(Req(q.sent[q.taken])) else m.None? || !m.value.Req?
    ensures Relayed(With(t, m), q')
  {
    if m.Some? { Snoc(t, m.value, Stdin); }
    match k
    case Stays =>
    case Gets(r) => assert (q.sent + [r])[..q.taken] == q.sent[..q.taken];
    case Passes => assert q.sent[..q.taken + 1] == q.sent[..q.taken] + [q.sent[q.taken]];
  }

  lemma AnsweredKept(t: seq<Msg>, m: Option<Msg>, q: Queue, q': Queue, k: QueueStep, waiting: bool, waiting': bool,
                     lost: nat, lost': nat)
    requires Answered(t, q, waiting, lost) && Moves(q, q', k)
    requires var replied := (if m.Some? && m.value.Reply? then 1 else 0) + (lost' - lost);
      if k.Passes? then !waiting && waiting' == q.sent[q.taken].wantReply && replied == 0
      else (if waiting then 1 else 0) == (if waiting' then 1 else 0) + replied
    ensures Answered(With(t, m), q', waiting', lost')
  {
    if m.Some? { Snoc(t, m.value, Stdin); }
    if k.Gets? { WantingMore(q.sent, k.r, q.taken); }
  }

  function ClientStep(a: Step): QueueStep {
    match a case ClientAsks(r) => Gets(r) case ForwardClient => Passes case _ => Stays
  }

  function TargetStep(a: Step): QueueStep {
    match a case TargetAsks(r) => Gets(r) case ForwardTarget => Passes case _ => Stays
  }

  lemma ClientQueueKept(s: State, a: Step)
    requires Enabled(s, a) && Relayed(s.toTarget, s.client)
    requires Answered(s.toClient, s.client, s.await.Target?, s.lostToClient)
    ensures Relayed(With(s.toTarget, ForTarget(s, a)), ClientAfter(s.client, a))
    ensures Answered(With(s.toClient, ForClient(s, a)), ClientAfter(s.client, a), AwaitAfter(s, a).Target?,
                     Apply(s, a).lostToClient)
  {
    RelayedKept(s.toTarget, ForTarget(s, a), s.client, ClientAfter(s.client, a), ClientStep(a));
    AnsweredKept(s.toClient, ForClient(s, a), s.client, ClientAfter(s.client, a), ClientStep(a),
                 s.await.Target?, AwaitAfter(s, a).Target?, s.lostToClient, Apply(s, a).lostToClient);
  }

  lemma TargetQueueKept(s: State, a: Step)
    requires Enabled(s, a) && Relayed(s.toClient, s.target)
    requires Answered(s.toTarget, s.target, s.await.Client?, s.lostToTarget)
    ensures Relayed(With(s.toClient, ForClient(s, a)), TargetAfter(s.target, a))
    ensures Answered(With(s.toTarget, ForTarget(s, a)), TargetAfter(s.target, a), AwaitAfter(s, a).Client?,
                     Apply(s, a).lostToTarget)
  {
    RelayedKept(s.toClient, ForClient(s, a), s.target, TargetAfter(s.target, a), TargetStep(a));
    AnsweredKept(s.toTarget, ForTarget(s, a), s.target, TargetAfter(s.target, a), TargetStep(a),
                 s.await.Client?, AwaitAfter(s, a).Client?, s.lostToTarget, Apply(s, a).lostToTarget);
  }

  lemma StepKeepsInv(s: State, a: Step)
    requires Inv(s) && Enabled(s, a)
    ensures Inv(Apply(s, a))
  {
    FlagsKept(s, a);
    ClientMarksKept(s, a);
    TargetMarksKept(s, a);
    LanesKept(s, a);
    ClientQueueKept(s, a);
    TargetQueueKept(s, a);
  }

  predicate IsRun(s: State, steps: seq<Step>)
    decreases |steps|
  {
    steps == [] || (Enabled(s, steps[0]) && IsRun(Apply(s, steps[0]), steps[1..]))
  }

  function Run(s: State, steps: seq<Step>): State
    requires IsRun(s, steps)
    decreases |steps|
  {
    if steps == [] then s else Run(Apply(s, steps[0]), steps[1..])
  }

  lemma {:induction false} RunKeepsInv(s: State, steps: seq<Step>)
    requires Inv(s) && IsRun(s, steps)
    ensures Inv(Run(s, steps))
    decreases |steps|
  {
    if steps != [] {
      StepKeepsInv(s, steps[0]);
      RunKeepsInv(Apply(s, steps[0]), steps[1..]);
    }
  }

  /**
    In every run the client is sent nothing after Close, neither data nor a second end-of-file after an
    end-of-file (section 5.3 of RFC 4254), and what it was sent is, stream by stream and in order, what the target sent.
  */
  lemma NothingLostOrLate(steps: seq<Step>)
    requires IsRun(START, steps)
    ensures var s := Run(START, steps);
      && WellOrdered(s.toClient) && WellOrdered(s.toTarget)
      && Bytes(s.toClient, Stdout) <= s.stdout.sent
      && Bytes(s.toClient, Stderr) <= s.stderr.sent
      && Requests(s.toClient) <= s.target.sent
      && Bytes(s.toTarget, Stdin) <= s.stdin.sent
      && Requests(s.toTarget) <= s.client.sent
  {
    RunKeepsInv(START, steps);
  }

  /**
    By the end-of-file the client has all of each output stream whose copy did not break. By the close, unless the
    session was cancelled or a request failed, it has had the end-of-file and all requests, the exit status among them
    (section 6.10 of RFC 4254), whatever became of the copies. The target likewise has all of the client's input.
  */
  lemma EverythingBeforeClose(steps: seq<Step>)
    requires IsRun(START, steps)
    ensures var s := Run(START, steps);
      && (Eof in s.toClient && !s.stdout.broken ==> s.stdout.ended && Bytes(s.toClient, Stdout) == s.stdout.sent)
      && (Eof in s.toClient && !s.stderr.broken ==> s.stderr.ended && Bytes(s.toClient, Stderr) == s.stderr.sent)
      && (Close in s.toClient && !s.aborted ==>
            Eof in s.toClient && s.target.ended && Requests(s.toClient) == s.target.sent)
      && (Eof in s.toTarget && !s.stdin.broken ==> s.stdin.ended && Bytes(s.toTarget, Stdin) == s.stdin.sent)
  {
    RunKeepsInv(START, steps);
  }

  /** What broke a copy or ended the loop early is among the steps. */
  lemma {:induction false} BrokenBySteps(s: State, steps: seq<Step>, l: Lane)
    requires IsRun(s, steps)
    ensures PipeOf(Run(s, steps), l).broken <==> PipeOf(s, l).broken || CopyBreaks(l) in steps
    ensures Run(s, steps).aborted <==> s.aborted || Aborts in steps
    decreases |steps|
  {
    if steps != [] { BrokenBySteps(Apply(s, steps[0]), steps[1..], l); }
  }

  /**
    In every run, each side's requests that want a reply get one each, but for those the proxy failed to send; only the
    last forwarded one may still lack it.
  */
  lemma OneReplyEach(steps: seq<Step>)
    requires IsRun(START, steps)
    ensures var s := Run(START, steps);
      && s.client.taken <= |s.client.sent| && s.target.taken <= |s.target.sent|
      && Replies(s.toClient) + s.lostToClient + (if s.await.Target? then 1 else 0)
         == Wanting(s.client.sent, s.client.taken)
      && Replies(s.toTarget) + s.lostToTarget + (if s.await.Client? then 1 else 0)
         == Wanting(s.target.sent, s.target.taken)
  {
    RunKeepsInv(START, steps);
  }

  /** What the proxy has left to do once nothing more arrives. */
  function Left(s: State): nat
    requires FlagsOk(s)
  {
    LeftIn(s.stdin) + LeftIn(s.stdout) + LeftIn(s.stderr) + LeftOf(s.client) + LeftOf(s.target)
    + (match s.closer case Waiting => 2 case EofSent => 1 case DoneClosed => 0)
    + (if s.outDoneSeen then 0 else 1) + (if s.closed then 0 else 1)
  }

  function LeftIn(p: Pipe): nat
    requires p.copied <= |p.sent|
  {
    |p.sent| - p.copied + if p.done then 0 else 1
  }

  function LeftOf(q: Queue): nat
    requires QueueOk(q)
  {
    |q.sent| - q.taken + if q.open then 1 else 0
  }

  /** Every step of the proxy brings the close nearer. */
  lemma ProxyProgresses(s: State, a: Step)
    requires FlagsOk(s) && Enabled(s, a) && !Outside(a)
    ensures FlagsOk(Apply(s, a)) && Left(Apply(s, a)) < Left(s)
  {}

  /**
    Once the target is done, the proxy stops short of the close only for a reply it waits for, whatever the client's
    stdin does.
  */
  lemma NeverStuck(s: State) returns (a: Step)
    requires FlagsOk(s) && s.stdout.ended && s.stderr.ended && s.target.ended && !s.closed && s.await.Nobody?
    ensures Enabled(s, a) && !Outside(a)
  {
    if !s.stdout.done {
      a := if s.stdout.copied < |s.stdout.sent| then CopyByte(Stdout) else CopyReturns(Stdout);
    } else if !s.stderr.done {
      a := if s.stderr.copied < |s.stderr.sent| then CopyByte(Stderr) else CopyReturns(Stderr);
    } else if s.closer.Waiting? {
      a := SendEof;
    } else if s.closer.EofSent? {
      a := CloseOutDone;
    } else if !s.outDoneSeen {
      a := SeeOutDone;
    } else if s.target.open {
      a := if s.target.taken < |s.target.sent| then ForwardTarget else TargetDrained;
    } else {
      a := Return;
    }
  }

  /**
    Left to itself the proxy stops within a bounded number of steps; with the target done it stops closed, or for a
    reply.
  */
  lemma {:induction false} SettlesClosed(s: State, steps: seq<Step>)
    requires FlagsOk(s) && IsRun(s, steps) && forall a <- steps :: !Outside(a)
    ensures |steps| <= Left(s)
    ensures FlagsOk(Run(s, steps))
    ensures
      && s.stdout.ended && s.stderr.ended && s.target.ended
      && (forall a: Step :: Enabled(Run(s, steps), a) ==> Outside(a))
      ==> Run(s, steps).closed || !Run(s, steps).await.Nobody?
    decreases |steps|
  {
    if steps == [] {
      if s.stdout.ended && s.stderr.ended && s.target.ended && !s.closed && s.await.Nobody? { var a := NeverStuck(s); }
    } else {
      ProxyProgresses(s, steps[0]);
      SettlesClosed(Apply(s, steps[0]), steps[1..]);
    }
  }
}
