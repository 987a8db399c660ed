/**
  Forwarding guacd's instructions to the websocket in batches, and reporting the
  outcome of the connection once.
*/
module GuacTunnel {
  import opened Common
  import opened GuacInstruction
  import opened GuacStream

  /** The bytes of `4.size,1.0,` */
  const DEFAULT_LAYER_SIZE: Bytes := [52, 46, 115, 105, 122, 101, 44, 49, 46, 48, 44]

  /** The bytes of `5.error,` */
  const ERROR: Bytes := [53, 46, 101, 114, 114, 111, 114, 44]

  /** The bytes of `0.` */
  const INTERNAL_OPCODE: Bytes := [48, 46]

  predicate HasPrefix(s: Bytes, p: Bytes) { |p| <= |s| && s[..|p|] == p }

  datatype Report = Connected | Error(code: int, message: Bytes)

  /** One instruction, whole and nothing behind it: what the stream hands out. */
  predicate Whole(ins: Bytes) { Scan(ins) == Complete(|ins|) }

  lemma HandedOutIsWhole(u: Bytes, n: nat)
    requires Scan(u) == Complete(n)
    ensures n <= |u| && Whole(u[..n])
  {
    ScanExact(u, 0, 0, n);
  }

  /** The parser's slices stay in range on what the stream hands out. */
  lemma WholeNeverPanics(ins: Bytes)
    requires Whole(ins)
    ensures ParseSpec(ins).Parsed? || ParseSpec(ins) == WrongPattern
  {
    ScannedNeverPanics(ins, 0);
  }

  /** Whether an instruction settles how reaching the desktop went: the default layer's size, or the first error. */
  function OutcomeOf(ins: Bytes): Option<Report>
    requires ParseSpec(ins) != Panic
  {
    if HasPrefix(ins, DEFAULT_LAYER_SIZE) then Some(Connected)
    else if !HasPrefix(ins, ERROR) then None
    else
      var p := ParseSpec(ins);
      if !p.Parsed? || |p.ins.args| < 2 then Some(Error(0, []))
      else
        var code := Atoi(p.ins.args[1]);
        Some(Error(if code.Some? then code.value else 0, p.ins.args[0]))
  }

  predicate Internal(ins: Bytes) { HasPrefix(ins, INTERNAL_OPCODE) }

  /** What one ReadSome gave, and whether the stream then still had bytes buffered. */
  datatype Arrival = Arrival(ins: Bytes, available: bool)

  predicate AllWhole(arrivals: seq<Arrival>) { forall a <- arrivals :: Whole(a.ins) }

  function Outcome(arrivals: seq<Arrival>, i: nat): Option<Report>
    requires i < |arrivals| && AllWhole(arrivals)
  {
    WholeNeverPanics(arrivals[i].ins);
    OutcomeOf(arrivals[i].ins)
  }

  function Concat(parts: seq<Bytes>): Bytes {
    if parts == [] then [] else Concat(parts[..|parts| - 1]) + parts[|parts| - 1]
  }

  /** The instructions meant for the client among the first `k`, in order. */
  function Forwarded(arrivals: seq<Arrival>, k: nat): seq<Bytes>
    requires k <= |arrivals|
  {
    if k == 0 then []
    else Forwarded(arrivals, k - 1) + if Internal(arrivals[k - 1].ins) then [] else [arrivals[k - 1].ins]
  }

  /** The outcome of the first settling instruction among the first `k`, if any. */
  function FirstReport(arrivals: seq<Arrival>, k: nat): seq<Report>
    requires k <= |arrivals| && AllWhole(arrivals)
  {
    if k == 0 then []
    else
      var r, o := FirstReport(arrivals, k - 1), Outcome(arrivals, k - 1);
      if r == [] && o.Some? then [o.value] else r
  }

  /** A message: whole instructions, under the limit without its last one. */
  predicate Batch(message: Bytes, parts: seq<Bytes>) {
    && parts != [] && message == Concat(parts)
    && |message| < MAX_GUAC_MESSAGE + |parts[|parts| - 1]|
  }

  function Flatten(groups: seq<seq<Bytes>>): seq<Bytes> {
    if groups == [] then [] else Flatten(groups[..|groups| - 1]) + groups[|groups| - 1]
  }

  lemma ConcatSnoc(parts: seq<Bytes>, x: Bytes)
    ensures Concat(parts + [x]) == Concat(parts) + x
  {
    assert (parts + [x])[..|parts|] == parts;
  }

  lemma FlattenSnoc(groups: seq<seq<Bytes>>, g: seq<Bytes>)
    ensures Flatten(groups + [g]) == Flatten(groups) + g
  {
    assert (groups + [g])[..|groups|] == groups;
  }

  /** Every message is a batch, and with what is pending they make up the instructions in `items`. */
  ghost predicate Delivered(messages: seq<Bytes>, groups: seq<seq<Bytes>>, pending: seq<Bytes>, items: seq<Bytes>) {
    && |groups| == |messages|
    && (forall i :: 0 <= i < |messages| ==> Batch(messages[i], groups[i]))
    && Flatten(groups) + pending == items
  }

  lemma DeliverMessage(messages: seq<Bytes>, groups: seq<seq<Bytes>>, pending: seq<Bytes>, items: seq<Bytes>,
                       message: Bytes)
    requires Delivered(messages, groups, pending, items) && Batch(message, pending)
    ensures Delivered(messages + [message], groups + [pending], [], items)
  {
    FlattenSnoc(groups, pending);
  }

  lemma DeliverLater(messages: seq<Bytes>, groups: seq<seq<Bytes>>, pending: seq<Bytes>, items: seq<Bytes>, x: Bytes)
    requires Delivered(messages, groups, pending, items)
    ensures Delivered(messages, groups, pending + [x], items + [x])
  {
    assert Flatten(groups) + (pending + [x]) == Flatten(groups) + pending + [x];
  }

  lemma {:induction false} ConcatAppend(a: seq<Bytes>, b: seq<Bytes>)
    ensures Concat(a + b) == Concat(a) + Concat(b)
    decreases b
  {
    if b == [] {
      assert a + b == a;
    } else {
      var b', x := b[..|b| - 1], b[|b| - 1];
      assert a + b == (a + b') + [x];
      ConcatSnoc(a + b', x);
      ConcatAppend(a, b');
    }
  }

  lemma {:induction false} MessageBytes(messages: seq<Bytes>, groups: seq<seq<Bytes>>)
    requires |groups| == |messages| && forall i :: 0 <= i < |messages| ==> messages[i] == Concat(groups[i])
    ensures Concat(messages) == Concat(Flatten(groups))
    decreases groups
  {
    if groups != [] {
      var n := |groups| - 1;
      MessageBytes(messages[..n], groups[..n]);
      ConcatAppend(Flatten(groups[..n]), groups[n]);
    }
  }

  /** No byte is lost, added or moved. */
  lemma DeliveredBytes(messages: seq<Bytes>, groups: seq<seq<Bytes>>, pending: seq<Bytes>, items: seq<Bytes>)
    requires Delivered(messages, groups, pending, items)
    ensures Concat(messages) + Concat(pending) == Concat(items)
  {
    assert forall i :: 0 <= i < |messages| ==> Batch(messages[i], groups[i]);
    MessageBytes(messages, groups);
    ConcatAppend(Flatten(groups), pending);
  }

  /**
    Copies instructions until the reader fails (the end of `arrivals`) or write
    number `failAt` does. `groups` names the instructions of each message and
    `pending` those still buffered.
  */
  method GuacdToWs(arrivals: seq<Arrival>, report: bool, failAt: nat)
    returns (messages: seq<Bytes>, buffered: Bytes, reports: seq<Report>, taken: nat,
             ghost groups: seq<seq<Bytes>>, ghost pending: seq<Bytes>)
    requires AllWhole(arrivals)
    ensures taken <= |arrivals| && (taken < |arrivals| ==> |messages| == failAt)
    ensures Delivered(messages, groups, pending, Forwarded(arrivals, taken)) && buffered == Concat(pending)
    ensures Concat(messages) + buffered == Concat(Forwarded(arrivals, taken))
    ensures |messages| <= failAt && (|messages| < failAt ==> |buffered| < MAX_GUAC_MESSAGE)
    ensures reports == if report then FirstReport(arrivals, taken) else []
  {
    messages, buffered, reports, taken, groups, pending := [], [], [], 0, [], [];
    var callback := report;
    while taken < |arrivals|
      invariant taken <= |arrivals|
      invariant Delivered(messages, groups, pending, Forwarded(arrivals, taken)) && buffered == Concat(pending)
      invariant |messages| <= failAt && |buffered| < MAX_GUAC_MESSAGE
      invariant reports == if report then FirstReport(arrivals, taken) else []
      invariant callback == (report && reports == [])
    {
      var a := arrivals[taken];
      if callback {
        WholeNeverPanics(a.ins);
        var o := OutcomeOf(a.ins);
        if o.Some? {
          reports := reports + [o.value];
          callback := false;
        }
      }
      taken := taken + 1;
      if Internal(a.ins) { continue; }
      ConcatSnoc(pending, a.ins);
      DeliverLater(messages, groups, pending, Forwarded(arrivals, taken - 1), a.ins);
      buffered, pending := buffered + a.ins, pending + [a.ins];
      if !a.available || |buffered| >= MAX_GUAC_MESSAGE {
        if |messages| == failAt {
          DeliveredBytes(messages, groups, pending, Forwarded(arrivals, taken));
          return;
        }
        DeliverMessage(messages, groups, pending, Forwarded(arrivals, taken), buffered);
        messages, groups := messages + [buffered], groups + [pending];
        buffered, pending := [], [];
      }
    }
    DeliveredBytes(messages, groups, pending, Forwarded(arrivals, taken));
  }

  /** The first instruction to settle the connection. */
  ghost predicate Settles(arrivals: seq<Arrival>, i: nat)
    requires i < |arrivals| && AllWhole(arrivals)
  {
    Outcome(arrivals, i).Some? && forall j | 0 <= j < i :: Outcome(arrivals, j).None?
  }

  /** The outcome is reported at most once. */
  lemma {:induction false} AtMostOneReport(arrivals: seq<Arrival>, k: nat)
    requires k <= |arrivals| && AllWhole(arrivals)
    ensures |FirstReport(arrivals, k)| <= 1
    ensures FirstReport(arrivals, k) == [] <==> forall i | 0 <= i < k :: Outcome(arrivals, i).None?
    ensures forall i | 0 <= i < k && Settles(arrivals, i) ::
              FirstReport(arrivals, k) == [Outcome(arrivals, i).value]
  {
    if k != 0 { AtMostOneReport(arrivals, k - 1); }
  }
}
