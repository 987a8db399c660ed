/** Shortening the operation ids of an OpenAPI document to their stems, in place, where a stem is unique. */
module OperationIds {
  import opened Common

  /** The keys of a path item: the five verbs that are normalised, and any other. */
  datatype Verb = GET | POST | PUT | DELETE | PATCH | Other(name: string)

  /** One operation object; its id is absent when it is missing or not a string. */
  datatype Op = Op(verb: Verb, id: Option<string>)

  const MARK := "_api_v4"

  predicate MarkAt(s: string, i: nat) { i + |MARK| <= |s| && s[i..i + |MARK|] == MARK }

  function FindMark(s: string, i: nat): (j: nat)
    requires i <= |s|
    ensures i <= j <= |s|
    ensures forall k :: i <= k < j ==> !MarkAt(s, k)
    ensures j < |s| ==> MarkAt(s, j)
    decreases |s| - i
  {
    if i == |s| || MarkAt(s, i) then i else FindMark(s, i + 1)
  }

  /** What comes before the first mark, or all of it. */
  function Stem(s: string): string { s[..FindMark(s, 0)] }

  lemma StemOfStem(s: string)
    ensures Stem(Stem(s)) == Stem(s)
  {
    var t := Stem(s);
    var j := FindMark(t, 0);
    if j < |t| {
      assert t[j..j + |MARK|] == s[j..j + |MARK|];
      assert MarkAt(s, j);
      assert false;
    }
  }

  predicate Collected(op: Op) { !op.verb.Other? && op.id.Some? && op.id.value != "" }

  /** How many of the first `k` operations claim a stem. */
  function Claims(ops: seq<Op>, stem: string, k: nat): nat
    requires k <= |ops|
  {
    if k == 0 then 0
    else Claims(ops, stem, k - 1) + if Collected(ops[k - 1]) && Stem(ops[k - 1].id.value) == stem then 1 else 0
  }

  predicate Shortens(ops: seq<Op>, op: Op) {
    && Collected(op)
    && var stem := Stem(op.id.value); stem != "" && Claims(ops, stem, |ops|) == 1 && stem != op.id.value
  }

  function NewOp(ops: seq<Op>, op: Op): Op {
    if Shortens(ops, op) then op.(id := Some(Stem(op.id.value))) else op
  }

  function Normalized(ops: seq<Op>): seq<Op> { seq(|ops|, i requires 0 <= i < |ops| => NewOp(ops, ops[i])) }

  // The in-place program.

  function Gathered(ops: seq<Op>, k: nat): (list: seq<(nat, string)>)
    requires k <= |ops|
    ensures forall i | 0 <= i < |list| :: list[i].0 < k
  {
    if k == 0 then []
    else if Collected(ops[k - 1]) then Gathered(ops, k - 1) + [(k - 1, ops[k - 1].id.value)]
    else Gathered(ops, k - 1)
  }

  function Count(list: seq<(nat, string)>, stem: string, k: nat): nat
    requires k <= |list|
  {
    if k == 0 then 0 else Count(list, stem, k - 1) + if Stem(list[k - 1].1) == stem then 1 else 0
  }

  lemma {:induction false} CountSnoc(list: seq<(nat, string)>, x: (nat, string), stem: string, k: nat)
    requires k <= |list|
    ensures Count(list + [x], stem, k) == Count(list, stem, k)
  {
    if k != 0 { CountSnoc(list, x, stem, k - 1); }
  }

  lemma {:induction false} CountIsClaims(ops: seq<Op>, stem: string, k: nat)
    requires k <= |ops|
    ensures Count(Gathered(ops, k), stem, |Gathered(ops, k)|) == Claims(ops, stem, k)
  {
    if k != 0 {
      CountIsClaims(ops, stem, k - 1);
      var before := Gathered(ops, k - 1);
      if Collected(ops[k - 1]) {
        var x := (k - 1, ops[k - 1].id.value);
        assert Gathered(ops, k) == before + [x];
        CountSnoc(before, x, stem, |before|);
        assert Count(before + [x], stem, |before| + 1)
            == Count(before, stem, |before|) + if Stem(x.1) == stem then 1 else 0;
      }
    }
  }

  method Gather(a: array<Op>) returns (list: seq<(nat, string)>)
    ensures list == Gathered(a[..], a.Length)
  {
    list := [];
    for i := 0 to a.Length
      invariant list == Gathered(a[..], i)
    {
      if Collected(a[i]) { list := list + [(i, a[i].id.value)]; }
    }
  }

  function Get(claims: map<string, nat>, stem: string): nat { if stem in claims then claims[stem] else 0 }

  method CountClaims(list: seq<(nat, string)>) returns (claims: map<string, nat>)
    ensures forall stem :: Get(claims, stem) == Count(list, stem, |list|)
  {
    claims := map[];
    for i := 0 to |list|
      invariant forall stem :: Get(claims, stem) == Count(list, stem, i)
    {
      var stem := Stem(list[i].1);
      claims := claims[stem := Get(claims, stem) + 1];
    }
  }

  function ShortenedBy(claims: map<string, nat>, op: Op, oid: string): Op {
    var stem := Stem(oid);
    if stem != "" && Get(claims, stem) == 1 && stem != oid then op.(id := Some(stem)) else op
  }

  function By(claims: map<string, nat>): (Op, string) -> Op { (op, oid) => ShortenedBy(claims, op, oid) }

  /** The operations after the first `j` of the list were visited. */
  function Rewritten(ops: seq<Op>, list: seq<(nat, string)>, f: (Op, string) -> Op, j: nat): (r: seq<Op>)
    requires j <= |list| && forall i | 0 <= i < |list| :: list[i].0 < |ops|
    ensures |r| == |ops|
  {
    if j == 0 then ops
    else var r, x := Rewritten(ops, list, f, j - 1), list[j - 1]; r[x.0 := f(r[x.0], x.1)]
  }

  lemma {:induction false} RewrittenSnoc(ops: seq<Op>, list: seq<(nat, string)>, x: (nat, string),
                                         f: (Op, string) -> Op, j: nat)
    requires j <= |list| && x.0 < |ops| && forall i | 0 <= i < |list| :: list[i].0 < |ops|
    ensures Rewritten(ops, list + [x], f, j) == Rewritten(ops, list, f, j)
  {
    if j != 0 { RewrittenSnoc(ops, list, x, f, j - 1); }
  }

  /** Visiting the gathered list changes each collected operation once and no other. */
  lemma {:induction false} RewrittenPrefix(ops: seq<Op>, f: (Op, string) -> Op, k: nat, i: nat)
    requires k <= |ops| && i < |ops|
    ensures Rewritten(ops, Gathered(ops, k), f, |Gathered(ops, k)|)[i]
      == if i < k && Collected(ops[i]) then f(ops[i], ops[i].id.value) else ops[i]
  {
    if k != 0 {
      RewrittenPrefix(ops, f, k - 1, i);
      if Collected(ops[k - 1]) {
        var before, x := Gathered(ops, k - 1), (k - 1, ops[k - 1].id.value);
        RewrittenSnoc(ops, before, x, f, |before|);
      }
    }
  }

  method Rewrite(a: array<Op>, list: seq<(nat, string)>, claims: map<string, nat>)
    requires forall i | 0 <= i < |list| :: list[i].0 < a.Length
    modifies a
    ensures a[..] == Rewritten(old(a[..]), list, By(claims), |list|)
  {
    for j := 0 to |list|
      invariant a[..] == Rewritten(old(a[..]), list, By(claims), j)
    {
      ghost var before := a[..];
      var (i, oid) := list[j];
      var stem := Stem(oid);
      if stem != "" && Get(claims, stem) == 1 && stem != oid {
        a[i] := a[i].(id := Some(stem));
      }
      assert a[..] == before[i := By(claims)(before[i], oid)];
    }
  }

  method NormalizeOperationIds(a: array<Op>)
    modifies a
    ensures a[..] == Normalized(old(a[..]))
  {
    ghost var ops := a[..];
    var list := Gather(a);
    var claims := CountClaims(list);
    forall stem ensures Get(claims, stem) == Claims(ops, stem, |ops|) { CountIsClaims(ops, stem, |ops|); }
    Rewrite(a, list, claims);
    forall i | 0 <= i < |ops| ensures a[i] == NewOp(ops, ops[i]) { RewrittenPrefix(ops, By(claims), |ops|, i); }
  }

  // What it promises.

  lemma {:induction false} ClaimsAtLeast(ops: seq<Op>, i: nat, k: nat)
    requires i < k <= |ops| && Collected(ops[i])
    ensures Claims(ops, Stem(ops[i].id.value), k) >= 1
  {
    if i < k - 1 { ClaimsAtLeast(ops, i, k - 1); }
  }

  lemma {:induction false} TwoClaims(ops: seq<Op>, i: nat, j: nat, k: nat)
    requires i < j < k <= |ops| && Collected(ops[i]) && Collected(ops[j])
    requires Stem(ops[i].id.value) == Stem(ops[j].id.value)
    ensures Claims(ops, Stem(ops[i].id.value), k) >= 2
  {
    if j == k - 1 { ClaimsAtLeast(ops, i, j); } else { TwoClaims(ops, i, j, k - 1); }
  }

  /** No two operations that have an id have the same. */
  predicate Distinct(ops: seq<Op>) {
    forall i, j | 0 <= i < j < |ops| :: ops[i].id.Some? && ops[j].id.Some? ==> ops[i].id != ops[j].id
  }

  /** Normalising moves no operation's stem. */
  lemma StemKept(ops: seq<Op>, op: Op)
    ensures Collected(NewOp(ops, op)) == Collected(op)
    ensures Collected(op) ==> Stem(NewOp(ops, op).id.value) == Stem(op.id.value)
  {
    if Collected(op) { StemOfStem(op.id.value); }
  }

  /** A shortened id is met by no other collected operation, shortened or not. */
  lemma ShortenedIsUnique(ops: seq<Op>, i: nat, j: nat)
    requires i < |ops| && j < |ops| && i != j && Shortens(ops, ops[i]) && Collected(ops[j])
    ensures NewOp(ops, ops[i]).id != NewOp(ops, ops[j]).id
  {
    StemKept(ops, ops[i]);
    StemKept(ops, ops[j]);
    if NewOp(ops, ops[i]).id == NewOp(ops, ops[j]).id {
      TwoClaims(ops, if i < j then i else j, if i < j then j else i, |ops|);
    }
  }

  lemma {:induction false} ClaimsKept(ops: seq<Op>, stem: string, k: nat)
    requires k <= |ops|
    ensures Claims(Normalized(ops), stem, k) == Claims(ops, stem, k)
  {
    if k != 0 {
      ClaimsKept(ops, stem, k - 1);
      StemKept(ops, ops[k - 1]);
    }
  }

  /** Normalising twice is normalising once, for every document. */
  lemma Idempotent(ops: seq<Op>)
    ensures Normalized(Normalized(ops)) == Normalized(ops)
  {
    var once := Normalized(ops);
    forall i | 0 <= i < |ops| ensures NewOp(once, once[i]) == once[i] {
      StemKept(ops, ops[i]);
      if Collected(ops[i]) { ClaimsKept(ops, Stem(ops[i].id.value), |ops|); }
    }
  }

  /** An operation left alone has the very id another is shortened to. */
  predicate Clash(ops: seq<Op>, i: nat, k: nat)
    requires i < |ops| && k < |ops|
  {
    Shortens(ops, ops[i]) && !Collected(ops[k]) && ops[k].id == Some(Stem(ops[i].id.value))
  }

  /** Distinct ids stay distinct if and only if no operation of another verb already has one of the short ids. */
  lemma DistinctIffNoClash(ops: seq<Op>)
    requires Distinct(ops)
    ensures Distinct(Normalized(ops)) <==> forall i, k | 0 <= i < |ops| && 0 <= k < |ops| :: !Clash(ops, i, k)
  {
    var after := Normalized(ops);
    if i, k :| 0 <= i < |ops| && 0 <= k < |ops| && Clash(ops, i, k) {
      assert after[i].id == after[k].id && after[i].id.Some?;
    } else {
      forall i, j | 0 <= i < j < |ops| && after[i].id.Some? && after[j].id.Some? ensures after[i].id != after[j].id {
        NewIdsDiffer(ops, i, j);
      }
    }
  }

  lemma NewIdsDiffer(ops: seq<Op>, i: nat, j: nat)
    requires Distinct(ops) && i < j < |ops| && ops[i].id.Some? && ops[j].id.Some?
    requires !Clash(ops, i, j) && !Clash(ops, j, i)
    ensures NewOp(ops, ops[i]).id != NewOp(ops, ops[j]).id
  {
    if Shortens(ops, ops[i]) && Collected(ops[j]) {
      ShortenedIsUnique(ops, i, j);
    } else if Shortens(ops, ops[j]) && Collected(ops[i]) {
      ShortenedIsUnique(ops, j, i);
    }
  }

  /** When every operation with an id is one of the five verbs with a non-empty id, distinctness is always kept. */
  lemma CollectedStayDistinct(ops: seq<Op>)
    requires Distinct(ops) && forall op <- ops :: op.id.Some? ==> Collected(op)
    ensures Distinct(Normalized(ops))
  {
    forall i, k | 0 <= i < |ops| && 0 <= k < |ops| ensures !Clash(ops, i, k) { assert ops[k] in ops; }
    DistinctIffNoClash(ops);
  }

  /** A HEAD operation called like the stem of a GET one: two distinct ids become one. */
  lemma HeadClashes()
    ensures var ops := [Op(Other("head"), Some("ping")), Op(GET, Some("ping_api_v4"))];
      Distinct(ops) && !Distinct(Normalized(ops))
  {
    var ops := [Op(Other("head"), Some("ping")), Op(GET, Some("ping_api_v4"))];
    var id := "ping_api_v4";
    assert MarkAt(id, 4);
    assert id[0] == 'p' && id[1] == 'i' && id[2] == 'n' && id[3] == 'g';
    assert !MarkAt(id, 0) by { assert id[0..7][0] != MARK[0]; }
    assert !MarkAt(id, 1) by { assert id[1..8][0] != MARK[0]; }
    assert !MarkAt(id, 2) by { assert id[2..9][0] != MARK[0]; }
    assert !MarkAt(id, 3) by { assert id[3..10][0] != MARK[0]; }
    assert FindMark(id, 0) == FindMark(id, 1) == FindMark(id, 2) == FindMark(id, 3) == 4;
    assert Stem(id) == "ping";
    assert Claims(ops, "ping", 1) == 0 && Claims(ops, "ping", 2) == 1;
    assert Clash(ops, 1, 0);
    DistinctIffNoClash(ops);
  }
}
