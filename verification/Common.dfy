/** What several models share. */
module Common {

  datatype Option<+T> = None | Some(value: T)

  /** Each member of the set once, in some order. */
  ghost predicate Covers(order: seq<string>, names: set<string>) {
    && (forall c: string :: c in order <==> c in names)
    && (forall i, j :: 0 <= i < j < |order| ==> order[i] != order[j])
  }

  /** The unspecified order of ranging over a map. */
  method AnyOrder(names: set<string>) returns (order: seq<string>)
    ensures Covers(order, names)
  {
    order := [];
    var todo := names;
    while todo != {}
      invariant todo <= names && Covers(order, names - todo)
      decreases |todo|
    {
      var c :| c in todo;
      assert c !in order;
      todo, order := todo - {c}, order + [c];
    }
  }

  lemma {:induction false} SomeOrder(names: set<string>) returns (order: seq<string>)
    ensures Covers(order, names)
  {
    if names == {} {
      order := [];
    } else {
      var c :| c in names;
      var rest := SomeOrder(names - {c});
      order := rest + [c];
    }
  }
}
