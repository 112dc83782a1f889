/** Option values (a Java reference that may be null, or an operation that may throw)
    and the all-or-nothing map over a sequence. */
module Optional {

  datatype Option<+T> = None | Some(value: T) {

    predicate IsFailure() {
      None?
    }

    function PropagateFailure<U>(): Option<U>
      requires None?
    {
      None
    }

    function Extract(): T
      requires Some?
    {
      value
    }
  }

  /** Applies f to every element, left to right; the whole call fails as soon as one
      application fails, and no partial sequence is returned. */
  function MapAll<A, B>(xs: seq<A>, f: A -> Option<B>): (r: Option<seq<B>>)
    ensures r.Some? <==> forall i | 0 <= i < |xs| :: f(xs[i]).Some?
    ensures r.Some? ==> |r.value| == |xs|
    ensures r.Some? ==> forall i | 0 <= i < |xs| :: r.value[i] == f(xs[i]).value
  {
    if xs == [] then Some([])
    else
      var init :- MapAll(xs[..|xs| - 1], f);
      var last :- f(xs[|xs| - 1]);
      Some(init + [last])
  }

  /** Processing a batch in two parts gives the concatenation of the parts' results. */
  lemma {:induction false} MapAllAppend<A, B>(xs: seq<A>, ys: seq<A>, f: A -> Option<B>)
    ensures MapAll(xs + ys, f).Some? <==> MapAll(xs, f).Some? && MapAll(ys, f).Some?
    ensures MapAll(xs + ys, f).Some? ==> MapAll(xs + ys, f).value == MapAll(xs, f).value + MapAll(ys, f).value
  {
    var zs := xs + ys;
    forall i | 0 <= i < |zs|
      ensures f(zs[i]) == if i < |xs| then f(xs[i]) else f(ys[i - |xs|])
    {
    }
    if MapAll(zs, f).Some? {
      assert forall i | 0 <= i < |xs| :: f(xs[i]).Some? by {
        forall i | 0 <= i < |xs| ensures f(xs[i]).Some? {
          assert f(zs[i]).Some?;
        }
      }
      assert forall i | 0 <= i < |ys| :: f(ys[i]).Some? by {
        forall i | 0 <= i < |ys| ensures f(ys[i]).Some? {
          assert f(zs[|xs| + i]).Some?;
        }
      }
    }
    if MapAll(xs, f).Some? && MapAll(ys, f).Some? {
      assert forall i | 0 <= i < |zs| :: f(zs[i]).Some?;
    }
  }
}
