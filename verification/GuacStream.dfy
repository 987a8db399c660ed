/**
  The incremental reader over one fixed buffer: a window of unread bytes slides
  through the array, is moved to the front when room gets short, and hands out one
  whole instruction at a time however the bytes were cut into reads.
*/
module GuacStream {
  import opened Common
  import opened GuacInstruction

  const MAX_GUAC_MESSAGE := 8192

  /** The connection to guacd: the bytes it has still to deliver. */
  class Conn {
    var incoming: Bytes

    constructor (bytes: Bytes)
      ensures incoming == bytes
    {
      incoming := bytes;
    }

    /** Delivers some of the bytes, at least one if there is any and room for it; fails at the end. */
    method Read(buf: array<Byte>, from: nat, to: nat) returns (n: nat, failed: bool)
      requires from <= to <= buf.Length
      modifies this, buf
      ensures n <= to - from && n <= |old(incoming)|
      ensures failed <==> old(incoming) == []
      ensures n == 0 <==> old(incoming) == [] || from == to
      ensures incoming == old(incoming)[n..]
      ensures buf[from..from + n] == old(incoming)[..n]
      ensures forall k :: 0 <= k < buf.Length && !(from <= k < from + n) ==> buf[k] == old(buf[k])
    {
      if incoming == [] { return 0, true; }
      failed := false;
      if from == to { return 0, false; }
      var bytes := incoming;
      n :| 1 <= n <= to - from && n <= |bytes|;
      for k := 0 to n
        invariant forall j :: 0 <= j < k ==> buf[from + j] == bytes[j]
        invariant forall j :: 0 <= j < buf.Length && !(from <= j < from + k) ==> buf[j] == old(buf[j])
      {
        buf[from + k] := bytes[k];
      }
      incoming := bytes[n..];
    }
  }

  /** `Stalled` stands for a call that never returns: it keeps offering the connection an empty slice. */
  datatype Outcome = Slice(start: nat, end: nat) | Closed | Malformed | Stalled

  /** Scanning has got to `i` with `acc` read of a length, in `u` and in every shorter stretch that reaches `i`. */
  ghost predicate Reached(u: Bytes, i: nat, acc: nat) {
    i <= |u| && forall k :: i <= k <= |u| ==> Scan(u[..k]) == ScanFrom(u[..k], i, acc)
  }

  lemma ReachedDigit(u: Bytes, i: nat, acc: nat)
    requires Reached(u, i, acc) && i < |u| && IsDigit(u[i])
    ensures Reached(u, i + 1, acc * 10 + DigitValue(u[i]))
  {
    forall k | i + 1 <= k <= |u| ensures Scan(u[..k]) == ScanFrom(u[..k], i + 1, acc * 10 + DigitValue(u[i])) {
      assert u[..k][i] == u[i];
    }
  }

  lemma ReachedElement(u: Bytes, i: nat, acc: nat)
    requires Reached(u, i, acc) && i + 1 + acc < |u| && u[i] == DOT && u[i + 1 + acc] == COMMA
    ensures Reached(u, i + 2 + acc, 0)
  {
    forall k | i + 2 + acc <= k <= |u| ensures Scan(u[..k]) == ScanFrom(u[..k], i + 2 + acc, 0) {
      assert u[..k][i] == u[i] && u[..k][i + 1 + acc] == u[i + 1 + acc];
    }
  }

  /** The verdict on the next instruction falls within one message length. */
  predicate Short(u: Bytes) { |u| < MAX_GUAC_MESSAGE || Scan(u[..MAX_GUAC_MESSAGE]) != More }

  /**
    How many bytes one instruction can have at most when its first byte is at `lo`: the buffer is moved only near its
    end.
  */
  function Capacity(lo: nat): int {
    if lo <= 2 * MAX_GUAC_MESSAGE then 3 * MAX_GUAC_MESSAGE - lo else 3 * MAX_GUAC_MESSAGE
  }

  /** The bytes that fit do not decide on the next instruction. */
  predicate Overlong(u: Bytes, room: nat) { room <= |u| && Scan(u[..room]) == More }

  /** What more bytes leave undecided, fewer do too. */
  lemma UndecidedBefore(u: Bytes, w: nat, v: nat)
    requires w <= v <= |u| && Scan(u[..v]) == More
    ensures Scan(u[..w]) == More
  {
    assert u[..v] == u[..w] + u[w..v];
    if Scan(u[..w]) != More { ScanStable(u[..w], u[w..v], 0, 0); }
  }

  lemma {:induction false} DigitsDecideNothing(u: Bytes, i: nat, acc: nat)
    requires i <= |u| && forall k :: i <= k < |u| ==> IsDigit(u[k])
    ensures ScanFrom(u, i, acc) == More
    decreases |u| - i
  {
    if i < |u| { DigitsDecideNothing(u, i + 1, acc * 10 + DigitValue(u[i])); }
  }

  /** A buffer full of digits: however many follow, the length of the element is never known. */
  lemma DigitsStall()
    ensures Overlong(seq(3 * MAX_GUAC_MESSAGE, _ => 49 as Byte), Capacity(0))
  {
    var u := seq(3 * MAX_GUAC_MESSAGE, _ => 49 as Byte);
    DigitsDecideNothing(u, 0, 0);
    assert u[..|u|] == u;
  }

  /** An instruction of permitted size fits wherever it starts. */
  lemma ShortFits(u: Bytes, lo: nat)
    requires Short(u)
    ensures MAX_GUAC_MESSAGE <= Capacity(lo) && !Overlong(u, Capacity(lo))
  {
    if Overlong(u, Capacity(lo)) { UndecidedBefore(u, MAX_GUAC_MESSAGE, Capacity(lo)); }
  }

  /** The scan of the bytes in `buf[lo..hi]`, which are the first of `u`, from a known element boundary. */
  method ScanWindow(buf: array<Byte>, lo: nat, hi: nat, parseStart: nat, ghost u: Bytes)
    returns (v: Scanned, resume: nat)
    requires lo <= hi <= buf.Length && hi - lo <= |u| && buf[lo..hi] == u[..hi - lo]
    requires parseStart <= hi - lo && Reached(u, parseStart, 0)
    ensures v == Scan(buf[lo..hi])
    ensures v == More ==> resume <= hi - lo && Reached(u, resume, 0)
  {
    var used := hi - lo;
    var i: nat, elementLength: nat := parseStart, 0;
    resume := parseStart;
    while i < used
      invariant resume <= i <= used
      invariant Reached(u, i, elementLength) && Reached(u, resume, 0)
      decreases used - i
    {
      var c := buf[lo + i];
      assert c == buf[lo..hi][i] == u[..used][i];
      assert Scan(u[..used]) == ScanFrom(u[..used], i, elementLength);
      if IsDigit(c) {
        ReachedDigit(u, i, elementLength);
        elementLength := elementLength * 10 + DigitValue(c);
        i := i + 1;
      } else if c == DOT {
        var end := i + 1 + elementLength;
        if end >= used { return More, resume; }
        var terminator := buf[lo + end];
        assert terminator == buf[lo..hi][end] == u[..used][end];
        resume := end + 1;
        if terminator == SEMICOLON { return Complete(end + 1), resume; }
        if terminator != COMMA { return BadTerminator, resume; }
        ReachedElement(u, i, elementLength);
        i, elementLength := end + 1, 0;
      } else {
        return BadLength, resume;
      }
    }
    assert Scan(u[..used]) == ScanFrom(u[..used], i, elementLength);
    v := More;
  }

  lemma DropFront(b: Bytes, more: Bytes, n: nat)
    requires n <= |b|
    ensures (b + more)[..n] == b[..n] && (b + more)[n..] == b[n..] + more
  {}

  class Stream {
    const conn: Conn
    const reset: array<Byte>
    var lo: nat
    var hi: nat
    var parseStart: nat

    /** The buffer is a window of the one array. */
    ghost predicate Window()
      reads this
    {
      && reset.Length == 3 * MAX_GUAC_MESSAGE
      && lo <= hi <= reset.Length
    }

    ghost function Buffered(): Bytes
      requires lo <= hi <= reset.Length
      reads this, reset
    {
      reset[lo..hi]
    }

    /** Every byte not yet handed out. */
    ghost function Unread(): Bytes
      requires lo <= hi <= reset.Length
      reads this, reset, conn
    {
      Buffered() + conn.incoming
    }

    ghost predicate Valid()
      reads this, reset, conn
    {
      Window() && parseStart <= hi - lo && Reached(Unread(), parseStart, 0)
    }

    constructor (c: Conn)
      ensures Valid() && Unread() == c.incoming && conn == c && fresh(reset)
    {
      conn := c;
      reset := new Byte[3 * MAX_GUAC_MESSAGE](_ => 0);
      lo, hi, parseStart := 0, 0, 0;
      new;
      assert reset[0..0] == [];
    }

    /** Moves the unread bytes to the front, the two stretches overlapping or not. */
    method Flush()
      requires Window()
      modifies this`lo, this`hi, reset
      ensures Window() && lo == 0 && Buffered() == old(Buffered())
    {
      var start, n := lo, hi - lo;
      for k := 0 to n
        invariant forall j :: 0 <= j < k ==> reset[j] == old(reset[start + j])
        invariant forall j :: k <= j < reset.Length ==> reset[j] == old(reset[j])
      {
        reset[k] := reset[start + k];
      }
      lo, hi := 0, n;
    }

    /**
      Scans the buffered bytes from where the last scan left off. A verdict is the
      scan's verdict on the buffered bytes; without one, the next scan resumes at
      an element boundary.
    */
    method ScanBuffered() returns (r: Option<Outcome>)
      requires Valid()
      modifies this`lo, this`parseStart
      ensures Window() && hi == old(hi) && old(lo) <= lo
      ensures match Scan(old(Buffered()))
              case More => r == None && Valid() && lo == old(lo)
              case Complete(n) =>
                && r == Some(Slice(old(lo), lo)) && lo == old(lo) + n && parseStart == 0
                && n <= |old(Unread())| && reset[old(lo)..lo] == old(Unread())[..n] && Unread() == old(Unread())[n..]
              case _ => r == Some(Malformed) && lo == old(lo)
    {
      assert Unread()[..hi - lo] == Buffered();
      var v, resume := ScanWindow(reset, lo, hi, parseStart, Unread());
      match v
      case More =>
        parseStart := resume;
        r := None;
      case Complete(n) =>
        ScanExact(Buffered(), 0, 0, n);
        DropFront(Buffered(), conn.incoming, n);
        r := Some(Slice(lo, lo + n));
        assert Buffered()[..n] == reset[lo..lo + n] && Buffered()[n..] == reset[lo + n..hi];
        lo, parseStart := lo + n, 0;
      case _ =>
        parseStart := resume;
        r := Some(Malformed);
    }

    /**
      The slice offered to the connection afterwards is empty exactly if the window ended the array and began too
      early to be moved.
    */
    method MakeRoom()
      requires Window()
      modifies this`lo, this`hi, reset
      ensures Window() && Buffered() == old(Buffered()) && Capacity(lo) == Capacity(old(lo))
      ensures hi == reset.Length <==> old(hi) == reset.Length && old(lo) <= 2 * MAX_GUAC_MESSAGE
      ensures hi == reset.Length <==> hi - lo == Capacity(lo)
    {
      if reset.Length - lo < MAX_GUAC_MESSAGE { Flush(); }
    }

    method Receive() returns (failed: bool)
      requires Window() && hi < reset.Length
      modifies this`hi, reset, conn
      ensures Window() && hi >= old(hi) && Unread() == old(Unread())
      ensures failed <==> old(conn.incoming) == []
      ensures if failed then conn.incoming == [] else |conn.incoming| < |old(conn.incoming)|
    {
      var n, err := conn.Read(reset, hi, reset.Length);
      assert reset[lo..hi] == old(reset[lo..hi]);
      assert reset[lo..hi + n] == reset[lo..hi] + reset[hi..hi + n];
      hi := hi + n;
      assert Unread() == old(reset[lo..hi]) + (old(conn.incoming)[..n] + old(conn.incoming)[n..]);
      failed := err && n == 0;
    }

    /** Makes room and reads once, unless there is no room; either bytes arrive or the connection has none left. */
    method Fill() returns (full: bool, failed: bool)
      requires Valid()
      modifies this, reset, conn
      ensures Valid() && Unread() == old(Unread()) && Capacity(lo) == Capacity(old(lo))
      ensures full <==> old(hi - lo) == Capacity(lo)
      ensures !full ==> (failed <==> old(conn.incoming) == [])
      ensures !full && failed ==> conn.incoming == [] && hi - lo == old(hi - lo)
      ensures !full && !failed ==> |conn.incoming| < |old(conn.incoming)|
    {
      MakeRoom();
      full, failed := hi == reset.Length, false;
      if !full { failed := Receive(); }
    }

    /**
      The next instruction. The answer depends on the unread bytes and on where the window starts, not on how the
      connection cut them up; it never comes exactly if the instruction does not fit.
    */
    method ReadSome() returns (r: Outcome)
      requires Valid()
      modifies this, reset, conn
      ensures Window()
      ensures r == Stalled <==> Overlong(old(Unread()), Capacity(old(lo)))
      ensures r == Stalled ==> Valid() && Unread() == old(Unread())
      ensures r != Stalled ==>
                match Scan(old(Unread()))
                case More => r == Closed && Valid() && Unread() == old(Unread()) && conn.incoming == []
                case Complete(n) =>
                  && r.Slice? && r.start <= r.end <= reset.Length && n <= |old(Unread())|
                  && reset[r.start..r.end] == old(Unread())[..n]
                  && Valid() && Unread() == old(Unread())[n..]
                case _ => r == Malformed && Unread() == old(Unread())
    {
      ghost var u, room := Unread(), Capacity(lo);
      while true
        invariant Valid() && Unread() == u && Capacity(lo) == room
        decreases |conn.incoming|
      {
        ghost var w := hi - lo;
        assert Buffered() == u[..w];
        var verdict := ScanBuffered();
        if Scan(u[..w]) != More { ScanStable(u[..w], u[w..], 0, 0); assert u[..w] + u[w..] == u; }
        if verdict.Some? {
          if Overlong(u, room) { UndecidedBefore(u, w, room); }
          return verdict.value;
        }
        var full, failed := Fill();
        if full { return Stalled; }
        if failed {
          assert u == Buffered();
          return Closed;
        }
      }
    }
  }

  datatype OneResult = Got(ins: Instruction) | ReadFailed(why: Outcome) | ParseFailed(how: ParseResult)

  /** The wire form of several instructions. */
  function EncodeAll(all: seq<Instruction>): Bytes {
    if all == [] then [] else Encode(all[0]) + EncodeAll(all[1..])
  }

  predicate AllShort(all: seq<Instruction>) { forall ins <- all :: |Encode(ins)| <= MAX_GUAC_MESSAGE }

  lemma EncodedIsShort(ins: Instruction, rest: Bytes)
    requires |Encode(ins)| <= MAX_GUAC_MESSAGE
    ensures Short(Encode(ins) + rest) && Scan(Encode(ins) + rest) == Complete(|Encode(ins)|)
  {
    RoundTrip(ins);
    var u, n := Encode(ins) + rest, |Encode(ins)|;
    if MAX_GUAC_MESSAGE <= |u| {
      assert u[..MAX_GUAC_MESSAGE] == Encode(ins) + rest[..MAX_GUAC_MESSAGE - n];
    }
  }

  /** Reads one instruction and parses it; the parser never runs off what the stream hands out. */
  method ReadOne(stream: Stream) returns (r: OneResult)
    requires stream.Valid()
    modifies stream, stream.reset, stream.conn
    ensures stream.Window()
    ensures r != ParseFailed(Panic) && r != ParseFailed(Incomplete)
    ensures r == ReadFailed(Stalled) <==> Overlong(old(stream.Unread()), Capacity(old(stream.lo)))
    ensures r != ReadFailed(Stalled) ==>
              match Scan(old(stream.Unread()))
              case More => r == ReadFailed(Closed)
              case Complete(n) =>
                && stream.Valid() && n <= |old(stream.Unread())| && stream.Unread() == old(stream.Unread())[n..]
                && var p := ParseSpec(old(stream.Unread())[..n]);
                   r == if p.Parsed? then Got(p.ins) else ParseFailed(p)
              case _ => r == ReadFailed(Malformed)
  {
    var out := stream.ReadSome();
    if !out.Slice? { return ReadFailed(out); }
    var data := stream.reset[out.start..out.end];
    ghost var u := old(stream.Unread());
    ScanExact(u, 0, 0, |data|);
    ScannedNeverPanics(data, 0);
    var p := Parse(data);
    r := if p.Parsed? then Got(p.ins) else ParseFailed(p);
  }

  /** One printed instruction at the head of the stream comes back as it was. */
  method ReadPrinted(stream: Stream, ghost ins: Instruction, ghost rest: Bytes) returns (got: Instruction)
    requires stream.Valid() && stream.Unread() == Encode(ins) + rest && |Encode(ins)| <= MAX_GUAC_MESSAGE
    modifies stream, stream.reset, stream.conn
    ensures stream.Valid() && stream.Unread() == rest
    ensures got == ins
  {
    EncodedIsShort(ins, rest);
    ShortFits(stream.Unread(), stream.lo);
    RoundTrip(ins);
    assert (Encode(ins) + rest)[..|Encode(ins)|] == Encode(ins);
    assert (Encode(ins) + rest)[|Encode(ins)|..] == rest;
    var r := ReadOne(stream);
    got := r.ins;
  }

  /**
    The round trip over the network: whatever instructions were printed and sent,
    and however the connection cuts the bytes into reads, reading as many
    instructions gives back the same ones in order and leaves what follows unread.
  */
  method ReadAll(stream: Stream, count: nat, ghost all: seq<Instruction>, ghost rest: Bytes)
    returns (got: seq<Instruction>)
    requires stream.Valid() && count == |all| && AllShort(all)
    requires stream.Unread() == EncodeAll(all) + rest
    modifies stream, stream.reset, stream.conn
    ensures stream.Valid() && stream.Unread() == rest
    ensures got == all
  {
    got := [];
    assert all[..0] == [] && all[0..] == all;
    for i := 0 to count
      invariant stream.Valid() && stream.Unread() == EncodeAll(all[i..]) + rest
      invariant got == all[..i]
    {
      assert all[i..][1..] == all[i + 1..] && all[i..][0] == all[i];
      assert Encode(all[i]) + EncodeAll(all[i + 1..]) + rest == Encode(all[i]) + (EncodeAll(all[i + 1..]) + rest);
      var ins := ReadPrinted(stream, all[i], EncodeAll(all[i + 1..]) + rest);
      got := got + [ins];
    }
    assert all[|all|..] == [] && all[..|all|] == all;
  }
}
