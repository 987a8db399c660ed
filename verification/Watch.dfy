/** A watcher that polls a configuration value and emits its transitions. */
module Watch {

  datatype Load<T> = Loaded(value: T) | Failed

  datatype Change<T> = Change(before: T, after: T)

  /** The value the first `k` loads leave: the last one that succeeded. */
  function Latest<T>(first: T, loads: seq<Load<T>>, k: nat): T
    requires k <= |loads|
  {
    if k == 0 then first else if loads[k - 1].Loaded? then loads[k - 1].value else Latest(first, loads, k - 1)
  }

  /** The load after which the value is another one than before. */
  predicate Moves<T(==)>(first: T, loads: seq<Load<T>>, k: nat)
    requires k < |loads|
  {
    Latest(first, loads, k + 1) != Latest(first, loads, k)
  }

  /** One change for each of the first `k` loads that moves the value. */
  function Changes<T(==)>(first: T, loads: seq<Load<T>>, k: nat): seq<Change<T>>
    requires k <= |loads|
  {
    if k == 0 then []
    else if Moves(first, loads, k - 1) then
      Changes(first, loads, k - 1) + [Change(Latest(first, loads, k - 1), Latest(first, loads, k))]
    else Changes(first, loads, k - 1)
  }

  predicate Follows<T(==)>(first: T, cs: seq<Change<T>>, i: nat)
    requires i < |cs|
  {
    cs[i].before == (if i == 0 then first else cs[i - 1].after) && cs[i].before != cs[i].after
  }

  /** Each change starts where the one before ended and goes somewhere else. */
  predicate Telescopes<T(==)>(first: T, cs: seq<Change<T>>) { forall i | 0 <= i < |cs| :: Follows(first, cs, i) }

  function End<T>(first: T, cs: seq<Change<T>>): T { if cs == [] then first else cs[|cs| - 1].after }

  lemma {:induction false} ChangesTelescope<T>(first: T, loads: seq<Load<T>>, k: nat)
    requires k <= |loads|
    ensures Telescopes(first, Changes(first, loads, k))
    ensures End(first, Changes(first, loads, k)) == Latest(first, loads, k)
  {
    if k != 0 {
      ChangesTelescope(first, loads, k - 1);
      var cs, cs' := Changes(first, loads, k - 1), Changes(first, loads, k);
      forall i | 0 <= i < |cs'| ensures Follows(first, cs', i) {
        assert i < |cs| ==> Follows(first, cs, i);
      }
    }
  }

  class Watcher<T(==)> {
    const zero: T
    const emits: bool
    var current: T
    var changes: seq<Change<T>>

    constructor (zero: T, buffer: nat)
      ensures this.zero == zero && emits == (buffer > 0) && current == zero && changes == []
    {
      this.zero, emits, current, changes := zero, buffer > 0, zero, [];
    }

    method Start(load: Load<T>) returns (ok: bool)
      modifies this
      ensures ok == load.Loaded?
      ensures ok ==> current == load.value
      ensures changes == old(changes) + if ok && emits then [Change(zero, load.value)] else []
      ensures !ok ==> current == old(current)
    {
      if load.Failed? { return false; }
      current := load.value;
      if emits { changes := changes + [Change(zero, load.value)]; }
      ok := true;
    }

    /**
      The loop, with what each tick loads until the cancellation; `cut` when the cancellation comes while the
      last change waits for room in the channel, which has been recorded as current and is then never emitted.
    */
    method Follow(loads: seq<Load<T>>, cut: bool)
      modifies this
      ensures current == Latest(old(current), loads, |loads|)
      ensures !emits ==> changes == old(changes)
      ensures emits ==>
        changes == old(changes) + Changes(old(current), loads, if cut && loads != [] then |loads| - 1 else |loads|)
    {
      for i := 0 to |loads|
        invariant current == Latest(old(current), loads, i)
        invariant !emits ==> changes == old(changes)
        invariant emits ==>
          changes == old(changes) + Changes(old(current), loads, if cut && 0 < i == |loads| then i - 1 else i)
      {
        if loads[i].Loaded? {
          var next, previous := loads[i].value, current;
          if previous != next {
            current := next;
            if emits {
              if cut && i == |loads| - 1 { return; }
              changes := changes + [Change(previous, next)];
            }
          }
        }
      }
    }

    /** From the start to the cancellation, whatever loads fail: the first change is from the zero value. */
    method Watch(first: Load<T>, loads: seq<Load<T>>, cut: bool) returns (ok: bool)
      requires changes == []
      modifies this
      ensures ok == first.Loaded?
      ensures !emits || !ok ==> changes == []
      ensures emits && ok ==>
        changes != [] && changes[0] == Change(zero, first.value) && Telescopes(first.value, changes[1..])
      ensures emits && ok && !cut ==> current == changes[|changes| - 1].after
      ensures emits && ok && cut && loads != [] && Moves(first.value, loads, |loads| - 1) ==>
        current != changes[|changes| - 1].after
      ensures ok ==> current == Latest(first.value, loads, |loads|)
    {
      ok := Start(first);
      if !ok { return; }
      var start := current;
      Follow(loads, cut);
      ghost var k := if cut && loads != [] then |loads| - 1 else |loads|;
      ghost var rest := Changes(start, loads, k);
      ChangesTelescope(start, loads, k);
      if emits { assert changes == [Change(zero, start)] + rest && changes[1..] == rest; }
    }
  }
}
