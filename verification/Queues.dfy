/** ngx_queue_t seen as the sequence of its elements, head first. */
module Queues {

  predicate NoDup<T(==)>(q: seq<T>) {
    forall i, j :: 0 <= i < j < |q| ==> q[i] != q[j]
  }

  /** ngx_queue_insert_head. */
  function InsertHead<T>(q: seq<T>, x: T): seq<T> {
    [x] + q
  }

  /** ngx_queue_last followed by ngx_queue_remove. */
  function ButLast<T>(q: seq<T>): seq<T>
    requires q != []
  {
    q[..|q| - 1]
  }

  function Last<T>(q: seq<T>): T
    requires q != []
  {
    q[|q| - 1]
  }

  /** ngx_queue_remove of an element that is known to be linked somewhere in the queue. */
  function Remove<T(==)>(q: seq<T>, x: T): (r: seq<T>)
    ensures x in q ==> |r| == |q| - 1
    ensures x !in q ==> r == q
    ensures forall y :: y in r ==> y in q
    ensures forall y :: y in q && y != x ==> y in r
  {
    if q == [] then []
    else if q[0] == x then
      assert q == [q[0]] + q[1..];
      q[1..]
    else
      assert q == [q[0]] + q[1..];
      [q[0]] + Remove(q[1..], x)
  }

  function Reverse<T(==)>(q: seq<T>): (r: seq<T>)
    ensures |r| == |q|
    ensures forall y :: y in r ==> y in q
    ensures forall y :: y in q ==> y in r
  {
    if q == [] then [] else
      assert q == [q[0]] + q[1..];
      Reverse(q[1..]) + [q[0]]
  }

  /** A queue from its end to its head. */
  lemma {:induction false} ReverseAt<T>(q: seq<T>, i: nat)
    requires i < |q|
    ensures Reverse(q)[i] == q[|q| - 1 - i]
  {
    if i < |q| - 1 {
      ReverseAt(q[1..], i);
    }
  }

  /** Removal takes one element out of the queue and leaves the others in order. */
  lemma {:induction false} RemoveTakesOne<T>(q: seq<T>, x: T) returns (k: nat)
    requires x in q
    ensures k < |q| && q[k] == x && Remove(q, x) == q[..k] + q[k + 1..]
  {
    if q[0] == x {
      k := 0;
    } else {
      var j := RemoveTakesOne(q[1..], x);
      k := j + 1;
      assert q[..k] == [q[0]] + q[1..][..j] && q[k + 1..] == q[1..][j + 1..];
    }
  }

  lemma {:induction false} RemoveNoDup<T>(q: seq<T>, x: T)
    requires NoDup(q)
    ensures NoDup(Remove(q, x)) && x !in Remove(q, x)
  {
    if q == [] {
    } else if q[0] == x {
      assert forall i :: 0 < i < |q| ==> q[i] != q[0];
    } else {
      RemoveNoDup(q[1..], x);
      assert forall i :: 0 < i < |q| ==> q[i] != q[0];
      assert q[0] !in q[1..];
    }
  }

  lemma {:induction false} ReverseNoDup<T>(q: seq<T>)
    requires NoDup(q)
    ensures NoDup(Reverse(q))
  {
    if q != [] {
      ReverseNoDup(q[1..]);
      assert q[0] !in q[1..];
    }
  }

  lemma AppendNoDup<T>(a: seq<T>, b: seq<T>)
    requires NoDup(a) && NoDup(b)
    requires forall x :: x in a ==> x !in b
    ensures NoDup(a + b)
  {
    forall i, j | 0 <= i < j < |a + b|
      ensures (a + b)[i] != (a + b)[j]
    {
      if i < |a| && |a| <= j {
        assert (a + b)[i] in a && (a + b)[j] in b;
      }
    }
  }

  lemma LastNoDup<T>(q: seq<T>)
    requires q != [] && NoDup(q)
    ensures NoDup(ButLast(q)) && Last(q) !in ButLast(q)
    ensures forall y :: y in q ==> y in ButLast(q) || y == Last(q)
    ensures forall y :: y in ButLast(q) ==> y in q
    ensures Last(q) in q
  {
    assert q == ButLast(q) + [Last(q)];
  }

  lemma HeadNoDup<T>(q: seq<T>, x: T)
    requires NoDup(q) && x !in q
    ensures NoDup(InsertHead(q, x))
  {
  }

  lemma MemberOrEmpty<T(!new)>(q: seq<T>)
    ensures q == [] || exists x :: x in q
  {
    assert q == [] || q[0] in q;
  }
}
