/**
  Guacamole instructions on the wire: the printer, the boundary scan the stream
  reader performs, and the parser. Strings are byte strings.
*/
module GuacInstruction {
  import opened Common

  newtype Byte = x: int | 0 <= x < 256

  type Bytes = seq<Byte>

  const DOT: Byte := 46
  const COMMA: Byte := 44
  const SEMICOLON: Byte := 59
  const PLUS: Byte := 43
  const MINUS: Byte := 45

  predicate IsDigit(b: Byte) { 48 <= b <= 57 }

  function DigitValue(b: Byte): nat
    requires IsDigit(b)
  {
    b as int - 48
  }

  // ----- Decimal lengths --------------------------------------------------------------

  /** Reads digits one by one onto an accumulated value; anything but a digit fails. */
  function Number(acc: nat, s: Bytes): Option<nat>
    decreases s
  {
    if s == [] then Some(acc) else if IsDigit(s[0]) then Number(acc * 10 + DigitValue(s[0]), s[1..]) else None
  }

  function Digits(n: nat): (s: Bytes)
    ensures s != [] && IsDigit(s[0])
  {
    if n < 10 then [(48 + n) as Byte] else Digits(n / 10) + [(48 + n % 10) as Byte]
  }

  lemma {:induction false} NumberSnoc(acc: nat, s: Bytes, d: Byte)
    requires Number(acc, s).Some? && IsDigit(d)
    ensures Number(acc, s + [d]) == Some(Number(acc, s).value * 10 + DigitValue(d))
    decreases s
  {
    if s == [] {
      assert s + [d] == [d];
    } else {
      assert (s + [d])[1..] == s[1..] + [d];
      NumberSnoc(acc * 10 + DigitValue(s[0]), s[1..], d);
    }
  }

  lemma {:induction false} NumberDigits(n: nat)
    ensures Number(0, Digits(n)) == Some(n)
  {
    if n < 10 {
      assert Number(0, Digits(n)) == Number(n, []);
    } else {
      NumberDigits(n / 10);
      NumberSnoc(0, Digits(n / 10), (48 + n % 10) as Byte);
    }
  }

  // ----- The printer -------------------------------------------------------------------

  datatype Instruction = Instruction(opcode: Bytes, args: seq<Bytes>)

  function FromElements(elements: seq<Bytes>): Instruction
    requires elements != []
  {
    Instruction(elements[0], elements[1..])
  }

  function Element(e: Bytes): Bytes { Digits(|e|) + [DOT] + e }

  /** Elements separated by commas and closed by a semicolon. */
  function Print(elements: seq<Bytes>): Bytes
    requires elements != []
  {
    if |elements| == 1 then Element(elements[0]) + [SEMICOLON]
    else Element(elements[0]) + [COMMA] + Print(elements[1..])
  }

  function Encode(ins: Instruction): Bytes { Print([ins.opcode] + ins.args) }

  // ----- The boundary scan ----------------------------------------------------------------

  datatype Scanned = Complete(length: nat) | More | BadLength | BadTerminator

  /** Scans from `i`, with `acc` the element length read so far. */
  function ScanFrom(u: Bytes, i: nat, acc: nat): Scanned
    decreases |u| - i
  {
    if i >= |u| then More
    else if IsDigit(u[i]) then ScanFrom(u, i + 1, acc * 10 + DigitValue(u[i]))
    else if u[i] != DOT then BadLength
    else
      var end := i + 1 + acc;
      if end >= |u| then More
      else if u[end] == SEMICOLON then Complete(end + 1)
      else if u[end] == COMMA then ScanFrom(u, end + 1, 0)
      else BadTerminator
  }

  function Scan(u: Bytes): Scanned { ScanFrom(u, 0, 0) }

  /** What the first bytes decide, more bytes do not change. */
  lemma {:induction false} ScanStable(u: Bytes, v: Bytes, i: nat, acc: nat)
    requires ScanFrom(u, i, acc) != More
    ensures ScanFrom(u + v, i, acc) == ScanFrom(u, i, acc)
    decreases |u| - i
  {
    assert (u + v)[i] == u[i];
    if IsDigit(u[i]) {
      ScanStable(u, v, i + 1, acc * 10 + DigitValue(u[i]));
    } else if u[i] == DOT {
      var end := i + 1 + acc;
      assert (u + v)[end] == u[end];
      if u[end] == COMMA { ScanStable(u, v, end + 1, 0); }
    }
  }

  /** A complete instruction is complete without what follows it. */
  lemma {:induction false} ScanExact(u: Bytes, i: nat, acc: nat, n: nat)
    requires ScanFrom(u, i, acc) == Complete(n)
    ensures i < n <= |u| && ScanFrom(u[..n], i, acc) == Complete(n)
    decreases |u| - i
  {
    if IsDigit(u[i]) {
      ScanExact(u, i + 1, acc * 10 + DigitValue(u[i]), n);
    } else {
      var end := i + 1 + acc;
      if u[end] == COMMA { ScanExact(u, end + 1, 0, n); }
    }
  }

  /** `p` stands in `u` at position `i`. */
  predicate Sits(u: Bytes, i: nat, p: Bytes)
    decreases p
  {
    if p == [] then i <= |u| else i < |u| && u[i] == p[0] && Sits(u, i + 1, p[1..])
  }

  lemma {:induction false} SitsSlice(u: Bytes, i: nat, p: Bytes)
    ensures Sits(u, i, p) <==> i + |p| <= |u| && u[i..i + |p|] == p
    decreases p
  {
    if p != [] {
      SitsSlice(u, i + 1, p[1..]);
      if i + |p| <= |u| {
        assert u[i..i + |p|] == [u[i]] + u[i + 1..i + |p|];
        assert p == [p[0]] + p[1..];
      }
    }
  }

  lemma {:induction false} SitsSplit(u: Bytes, i: nat, a: Bytes, b: Bytes)
    requires Sits(u, i, a + b)
    ensures Sits(u, i, a) && Sits(u, i + |a|, b)
    decreases a
  {
    if a == [] {
      assert a + b == b;
      SitsSlice(u, i, b);
    } else {
      assert (a + b)[1..] == a[1..] + b;
      SitsSplit(u, i + 1, a[1..], b);
    }
  }

  lemma {:induction false} ScanDigits(u: Bytes, i: nat, acc: nat, ds: Bytes)
    requires Number(acc, ds).Some? && Sits(u, i, ds)
    ensures ScanFrom(u, i, acc) == ScanFrom(u, i + |ds|, Number(acc, ds).value)
    decreases ds
  {
    if ds != [] { ScanDigits(u, i + 1, acc * 10 + DigitValue(u[i]), ds[1..]); }
  }

  /** An element in place takes the scan to its terminator. */
  lemma ScanElement(u: Bytes, i: nat, e: Bytes)
    requires Sits(u, i, Element(e)) && i + |Element(e)| < |u|
    ensures var end := i + |Element(e)|;
      ScanFrom(u, i, 0) == if u[end] == SEMICOLON then Complete(end + 1)
                           else if u[end] == COMMA then ScanFrom(u, end + 1, 0) else BadTerminator
  {
    var ds := Digits(|e|);
    SitsSplit(u, i, ds + [DOT], e);
    SitsSplit(u, i, ds, [DOT]);
    NumberDigits(|e|);
    ScanDigits(u, i, 0, ds);
    assert Sits(u, i + |ds|, [DOT]);
  }

  lemma SitsTerminated(u: Bytes, i: nat, x: Bytes, t: Byte, rest: Bytes)
    requires Sits(u, i, x + [t] + rest)
    ensures Sits(u, i, x) && i + |x| < |u| && u[i + |x|] == t && Sits(u, i + |x| + 1, rest)
  {
    SitsSplit(u, i, x + [t], rest);
    SitsSplit(u, i, x, [t]);
  }

  /** Where the printed elements stand, each one with its terminator does. */
  lemma SitsPrinted(elements: seq<Bytes>, data: Bytes, i: nat)
    requires elements != [] && Sits(data, i, Print(elements))
    ensures var end := i + |Element(elements[0])|;
      && Sits(data, i, Element(elements[0])) && end < |data|
      && (|elements| == 1 ==> data[end] == SEMICOLON && end + 1 == i + |Print(elements)|)
      && (|elements| > 1 ==> data[end] == COMMA && Sits(data, end + 1, Print(elements[1..]))
                             && end + 1 + |Print(elements[1..])| == i + |Print(elements)|)
  {
    var x := Element(elements[0]);
    if |elements| == 1 {
      SitsSplit(data, i, x, [SEMICOLON]);
    } else {
      SitsTerminated(data, i, x, COMMA, Print(elements[1..]));
    }
  }

  /** Printed elements are found again, whatever surrounds them and whatever bytes they hold. */
  lemma {:induction false} ScanPrinted(elements: seq<Bytes>, u: Bytes, i: nat)
    requires elements != [] && Sits(u, i, Print(elements))
    ensures ScanFrom(u, i, 0) == Complete(i + |Print(elements)|)
    decreases elements
  {
    SitsPrinted(elements, u, i);
    ScanElement(u, i, elements[0]);
    if |elements| > 1 { ScanPrinted(elements[1..], u, i + |Element(elements[0])| + 1); }
  }

  // ----- The parser -----------------------------------------------------------------------

  datatype ParseResult = Parsed(ins: Instruction) | Incomplete | WrongPattern | Panic

  /** strconv.Atoi without overflow: an optional sign and at least one digit. */
  function Atoi(s: Bytes): Option<int> {
    var signed := s != [] && (s[0] == PLUS || s[0] == MINUS);
    var digits := if signed then s[1..] else s;
    if digits == [] || Number(0, digits).None? then None
    else
      var n: int := Number(0, digits).value;
      Some(if signed && s[0] == MINUS then -n else n)
  }

  /** The first dot at or after `i`, or the end. */
  function FindDot(data: Bytes, i: nat): (d: nat)
    requires i <= |data|
    ensures i <= d <= |data| && (d < |data| ==> data[d] == DOT) && forall k :: i <= k < d ==> data[k] != DOT
    decreases |data| - i
  {
    if i == |data| || data[i] == DOT then i else FindDot(data, i + 1)
  }

  /** One element read at `i`, and the position of its terminator. */
  datatype Read = Found(element: Bytes, end: nat) | Failed(why: ParseResult)

  /** A slice or an index out of range is a panic. */
  function ElementAt(data: Bytes, i: nat): (r: Read)
    requires i < |data|
    ensures r.Found? ==> i < r.end < |data|
    ensures r.Failed? ==> !r.why.Parsed?
  {
    var dot := FindDot(data, i);
    if dot == |data| then Failed(Incomplete)
    else
      match Atoi(data[i..dot])
      case None => Failed(WrongPattern)
      case Some(n) =>
        if n < 0 || dot + 1 + n >= |data| then Failed(Panic) else Found(data[dot + 1..dot + 1 + n], dot + 1 + n)
  }

  /** The elements from `i` up to the one that closes the instruction, or the first failure. */
  datatype Elements = All(list: seq<Bytes>) | Bad(why: ParseResult)

  function Prepend(a: seq<Bytes>, b: Elements): Elements { if b.All? then All(a + b.list) else b }

  function ElementsFrom(data: Bytes, i: nat): Elements
    requires i <= |data|
    decreases |data| - i
  {
    if i == |data| then All([])
    else
      match ElementAt(data, i)
      case Failed(why) => Bad(why)
      case Found(e, end) => if data[end] == SEMICOLON then All([e]) else Prepend([e], ElementsFrom(data, end + 1))
  }

  function ParseResultOf(found: Elements): ParseResult {
    match found
    case Bad(why) => why
    case All(list) => if list == [] then Panic else Parsed(FromElements(list))
  }

  function ParseSpec(data: Bytes): ParseResult { ParseResultOf(ElementsFrom(data, 0)) }

  method NextElement(data: Bytes, elementStart: nat) returns (r: Read)
    requires elementStart < |data|
    ensures r == ElementAt(data, elementStart)
  {
    var lengthEnd := elementStart;
    while lengthEnd < |data| && data[lengthEnd] != DOT
      invariant elementStart <= lengthEnd <= |data|
      invariant FindDot(data, elementStart) == FindDot(data, lengthEnd)
    {
      lengthEnd := lengthEnd + 1;
    }
    if lengthEnd == |data| { return Failed(Incomplete); }

    var length := Atoi(data[elementStart..lengthEnd]);
    if length.None? { return Failed(WrongPattern); }

    var start := lengthEnd + 1;
    if length.value < 0 || start + length.value >= |data| { return Failed(Panic); }
    r := Found(data[start..start + length.value], start + length.value);
  }

  method Parse(data: Bytes) returns (r: ParseResult)
    ensures r == ParseSpec(data)
  {
    var elementStart := 0;
    var elements: seq<Bytes> := [];
    while elementStart < |data|
      invariant 0 <= elementStart <= |data|
      invariant ElementsFrom(data, 0) == Prepend(elements, ElementsFrom(data, elementStart))
      decreases |data| - elementStart
    {
      var next := NextElement(data, elementStart);
      if next.Failed? { return next.why; }
      PrependTwice(elements, [next.element], ElementsFrom(data, next.end + 1));
      elements := elements + [next.element];
      elementStart := next.end + 1;
      if data[next.end] == SEMICOLON { return Parsed(FromElements(elements)); }
    }
    if elements == [] { return Panic; }
    r := Parsed(FromElements(elements));
  }

  lemma PrependTwice(a: seq<Bytes>, b: seq<Bytes>, c: Elements)
    ensures Prepend(a, Prepend(b, c)) == Prepend(a + b, c)
  {
    if c.All? { assert a + (b + c.list) == a + b + c.list; }
  }

  lemma {:induction false} FindDotAfterDigits(data: Bytes, i: nat, acc: nat, ds: Bytes)
    requires Number(acc, ds).Some? && Sits(data, i, ds) && Sits(data, i + |ds|, [DOT])
    ensures i <= |data| && FindDot(data, i) == i + |ds|
    decreases ds
  {
    if ds != [] { FindDotAfterDigits(data, i + 1, acc * 10 + DigitValue(ds[0]), ds[1..]); }
  }

  lemma AtoiDigits(n: nat)
    ensures Atoi(Digits(n)) == Some(n)
  {
    NumberDigits(n);
  }

  lemma ElementAtPrinted(data: Bytes, i: nat, e: Bytes)
    requires Sits(data, i, Element(e)) && i + |Element(e)| < |data|
    ensures ElementAt(data, i) == Found(e, i + |Element(e)|)
  {
    var ds := Digits(|e|);
    SitsSplit(data, i, ds + [DOT], e);
    SitsSplit(data, i, ds, [DOT]);
    NumberDigits(|e|);
    FindDotAfterDigits(data, i, 0, ds);
    AtoiDigits(|e|);
    SitsSlice(data, i, ds);
    SitsSlice(data, i + |ds| + 1, e);
  }

  /** The parser's element reader meets exactly these elements from `i` on. */
  predicate Tokens(data: Bytes, i: nat, elements: seq<Bytes>)
    decreases elements
  {
    && elements != [] && i < |data|
    && ElementAt(data, i).Found? && ElementAt(data, i).element == elements[0]
    && var end := ElementAt(data, i).end;
       if |elements| == 1 then data[end] == SEMICOLON
       else data[end] == COMMA && Tokens(data, end + 1, elements[1..])
  }

  lemma FirstToken(elements: seq<Bytes>, data: Bytes, i: nat)
    requires elements != [] && Sits(data, i, Print(elements))
    ensures i < |data| && ElementAt(data, i).Found? && ElementAt(data, i).element == elements[0]
    ensures var end := ElementAt(data, i).end;
      if |elements| == 1 then data[end] == SEMICOLON
      else data[end] == COMMA && Sits(data, end + 1, Print(elements[1..]))
  {
    SitsPrinted(elements, data, i);
    ElementAtPrinted(data, i, elements[0]);
  }

  lemma {:induction false} PrintedTokens(elements: seq<Bytes>, data: Bytes, i: nat)
    requires elements != [] && Sits(data, i, Print(elements))
    ensures Tokens(data, i, elements)
    decreases elements
  {
    FirstToken(elements, data, i);
    if |elements| > 1 { PrintedTokens(elements[1..], data, ElementAt(data, i).end + 1); }
  }

  lemma {:induction false} ParseTokens(elements: seq<Bytes>, data: Bytes, i: nat)
    requires Tokens(data, i, elements)
    ensures ElementsFrom(data, i) == All(elements)
    decreases elements
  {
    if |elements| > 1 { ParseTokens(elements[1..], data, ElementAt(data, i).end + 1); }
    assert elements == [elements[0]] + elements[1..];
  }

  /** Where the scan takes an element with a non-empty length, so does the parser. */
  lemma {:induction false} ScanFindsDot(data: Bytes, i: nat, acc: nat) returns (dot: nat)
    requires ScanFrom(data, i, acc).Complete?
    ensures i <= dot < |data| && dot == FindDot(data, i) && Number(acc, data[i..dot]).Some?
    ensures ScanFrom(data, i, acc) == ScanFrom(data, dot, Number(acc, data[i..dot]).value)
    decreases |data| - i
  {
    if IsDigit(data[i]) {
      dot := ScanFindsDot(data, i + 1, acc * 10 + DigitValue(data[i]));
      assert data[i..dot] == [data[i]] + data[i + 1..dot];
      assert data[i..dot][1..] == data[i + 1..dot];
    } else {
      dot := i;
    }
  }

  lemma ScannedElement(data: Bytes, i: nat)
    requires ScanFrom(data, i, 0).Complete?
    ensures ElementAt(data, i) == Failed(WrongPattern) || (ElementAt(data, i).Found? &&
              var end := ElementAt(data, i).end;
              data[end] != SEMICOLON ==> ScanFrom(data, end + 1, 0).Complete?)
  {
    var dot := ScanFindsDot(data, i, 0);
    var ds := data[i..dot];
    if ds != [] { assert IsDigit(ds[0]); }
  }

  /** On what the stream hands out, the parser never indexes out of range: at worst it reports an empty length. */
  lemma {:induction false} ScannedNeverPanics(data: Bytes, i: nat)
    requires ScanFrom(data, i, 0).Complete?
    ensures i < |data|
    ensures var found := ElementsFrom(data, i);
      found == Bad(WrongPattern) || (found.All? && found.list != [])
    decreases |data| - i
  {
    ScannedElement(data, i);
    var r := ElementAt(data, i);
    if r.Found? && data[r.end] != SEMICOLON { ScannedNeverPanics(data, r.end + 1); }
  }

  /** Printing an instruction and parsing the bytes gives the instruction back. */
  lemma RoundTrip(ins: Instruction)
    ensures ParseSpec(Encode(ins)) == Parsed(ins)
    ensures forall rest: Bytes :: Scan(Encode(ins) + rest) == Complete(|Encode(ins)|)
  {
    var elements := [ins.opcode] + ins.args;
    SitsSlice(Encode(ins), 0, Encode(ins));
    PrintedTokens(elements, Encode(ins), 0);
    ParseTokens(elements, Encode(ins), 0);
    forall rest: Bytes ensures Scan(Encode(ins) + rest) == Complete(|Encode(ins)|) {
      SitsSlice(Encode(ins) + rest, 0, Encode(ins));
      ScanPrinted(elements, Encode(ins) + rest, 0);
    }
  }

  // ----- The instruction object --------------------------------------------------------------

  /** Elements separated by commas, built from the left as the printer does. */
  function Joined(elements: seq<Bytes>): Bytes
    requires elements != []
  {
    var n := |elements| - 1;
    if n == 0 then Element(elements[0]) else Joined(elements[..n]) + [COMMA] + Element(elements[n])
  }

  lemma {:induction false} JoinedCons(e: Bytes, rest: seq<Bytes>)
    requires rest != []
    ensures Joined([e] + rest) == Element(e) + [COMMA] + Joined(rest)
    decreases rest
  {
    var n := |rest| - 1;
    assert ([e] + rest)[..|rest|] == [e] + rest[..n];
    if n > 0 { JoinedCons(e, rest[..n]); } else { assert [e] + rest[..n] == [e]; }
  }

  lemma {:induction false} PrintJoined(elements: seq<Bytes>)
    requires elements != []
    ensures Print(elements) == Joined(elements) + [SEMICOLON]
    decreases elements
  {
    if |elements| > 1 {
      assert elements == [elements[0]] + elements[1..];
      JoinedCons(elements[0], elements[1..]);
      PrintJoined(elements[1..]);
    }
  }

  class InstructionObject {
    const ins: Instruction
    var cache: Bytes

    ghost predicate Valid()
      reads this
    {
      cache == [] || cache == Encode(ins)
    }

    constructor (ins: Instruction)
      ensures Valid() && this.ins == ins && cache == []
    {
      this.ins := ins;
      cache := [];
    }

    /** The wire form, printed once and remembered. */
    method String() returns (s: Bytes)
      requires Valid()
      modifies this
      ensures Valid() && s == cache == Encode(ins)
    {
      if cache != [] { return cache; }
      ghost var elements := [ins.opcode] + ins.args;
      var text := Element(ins.opcode);
      for i := 0 to |ins.args|
        invariant text == Joined(elements[..i + 1])
      {
        text := text + [COMMA] + Element(ins.args[i]);
        assert elements[..i + 2][..i + 1] == elements[..i + 1];
      }
      assert elements[..|ins.args| + 1] == elements;
      PrintJoined(elements);
      cache := text + [SEMICOLON];
      s := cache;
    }
  }
}
