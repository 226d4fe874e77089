/** Shared datatypes and sequence facts. */
module Prelude {

  datatype Option<+T> = None | Some(value: T)

  /** A call that either returns or raises; what an exception says is not modelled. */
  datatype Result<+T> = Ok(value: T) | Raise

  /** A step of a process that may be killed, or stopped by an exception nobody catches. */
  datatype Step<+T> = Done(value: T) | Interrupted {
    predicate IsFailure() {
      Interrupted?
    }

    function PropagateFailure<U>(): Step<U>
      requires Interrupted?
    {
      Interrupted
    }

    function Extract(): T
      requires Done?
    {
      value
    }
  }

  ghost predicate Distinct<T>(s: seq<T>) {
    forall i, j :: 0 <= i < j < |s| ==> s[i] != s[j]
  }

  /** `dict.fromkeys` read back as a tuple: the first occurrence of every element, in order. */
  function Dedupe<T(==,!new)>(s: seq<T>): (r: seq<T>)
    ensures Distinct(r)
    ensures forall x :: x in r <==> x in s
  {
    if s == [] then []
    else
      var front := Dedupe(s[..|s| - 1]);
      var last := s[|s| - 1];
      assert forall x :: x in s <==> x in s[..|s| - 1] || x == last;
      if last in front then front else front + [last]
  }

  lemma {:induction false} LeastExists(s: set<int>)
    requires exists x :: x in s
    ensures exists k :: k in s && forall j :: j in s ==> k <= j
    decreases |s|
  {
    var x :| x in s;
    if exists y :: y in s - {x} {
      LeastExists(s - {x});
      var y :| y in s - {x} && forall j :: j in s - {x} ==> y <= j;
      var k := if x < y then x else y;
      forall j | j in s ensures k <= j {
        assert j == x || j in s - {x};
      }
      assert k in s;
    } else {
      forall j | j in s ensures x <= j {
        assert j == x || j in s - {x};
      }
    }
  }
}
