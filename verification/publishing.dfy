/** Publishing a list of messages while a context may be cancelled and single messages may be skipped. */
module Publishing {
  import opened Domain

  /**
   What decides about notification number n of a batch: the context is cancelled, if at all, before
   the delay of number cancelAt ends, and ready says whether the channel and the queue can be had.
   */
  datatype Context = Context(cancelAt: Option<nat>, ready: nat -> bool)
  {
    predicate Live(n: nat) {
      cancelAt.None? || n < cancelAt.value
    }
  }

  ghost predicate AllGood(x: Context, from: nat, to: nat) {
    forall n: nat :: from <= n < to ==> x.Live(n) && x.ready(n)
  }

  /** What is published of the notifications due, the first of which has number n. */
  function Published<T>(due: seq<T>, n: nat, x: Context): seq<T> {
    if due == [] then []
    else
      var m := |due| - 1;
      Published(due[..m], n, x) + if x.Live(n + m) && x.ready(n + m) then [due[m]] else []
  }

  /** Sent in the order due, possibly with gaps; idx names the ones sent. */
  predicate Picks<T(==)>(sent: seq<T>, due: seq<T>, idx: seq<nat>) {
    |idx| == |sent| && (forall i :: 0 <= i < |idx| ==> idx[i] < |due| && due[idx[i]] == sent[i]) &&
    forall i, j :: 0 <= i < j < |idx| ==> idx[i] < idx[j]
  }

  ghost predicate IsSubsequence<T>(sent: seq<T>, due: seq<T>) {
    exists idx: seq<nat> :: Picks(sent, due, idx)
  }

  lemma PicksMore<T>(sent: seq<T>, due: seq<T>, idx: seq<nat>, x: T)
    requires Picks(sent, due, idx)
    ensures Picks(sent, due + [x], idx) && Picks(sent + [x], due + [x], idx + [|due|])
  {
  }

  lemma PublishedPlus<T>(due: seq<T>, e: T, n: nat, x: Context)
    ensures Published(due + [e], n, x) ==
            Published(due, n, x) + if x.Live(n + |due|) && x.ready(n + |due|) then [e] else []
  {
    assert (due + [e])[..|due|] == due;
  }

  /** What is published are exactly those whose delay the context outlives and whose queue can be had, in order. */
  lemma {:induction false} PublishedExactly<T>(due: seq<T>, n: nat, x: Context) returns (idx: seq<nat>)
    ensures Picks(Published(due, n, x), due, idx)
    ensures forall i: nat :: i in idx <==>
              i < |due| && (x.cancelAt.None? || n + i < x.cancelAt.value) && x.ready(n + i)
  {
    if due == [] {
      idx := [];
    } else {
      var m := |due| - 1;
      var first := PublishedExactly(due[..m], n, x);
      assert due[..m] + [due[m]] == due;
      PublishedPlus(due[..m], due[m], n, x);
      PicksMore(Published(due[..m], n, x), due[..m], first, due[m]);
      idx := if x.Live(n + m) && x.ready(n + m) then first + [m] else first;
      assert Published(due[..m], n, x) + [] == Published(due[..m], n, x);
    }
  }

  lemma PublishedIsSubsequence<T>(due: seq<T>, n: nat, x: Context)
    ensures IsSubsequence(Published(due, n, x), due)
  {
    var idx := PublishedExactly(due, n, x);
  }

  lemma AllGoodPlus(x: Context, from: nat, to: nat)
    requires from <= to
    ensures AllGood(x, from, to + 1) <==> AllGood(x, from, to) && x.Live(to) && x.ready(to)
  {
  }

  lemma AllGoodJoin(x: Context, from: nat, mid: nat, to: nat)
    requires from <= mid <= to
    ensures AllGood(x, from, to) <==> AllGood(x, from, mid) && AllGood(x, mid, to)
  {
  }

  lemma AppendAgrees<T>(a: seq<T>, b: seq<T>, e: T)
    ensures a + [e] == b + [e] <==> a == b
  {
    if a + [e] == b + [e] {
      assert a == (a + [e])[..|a|] && b == (b + [e])[..|b|];
    }
  }

  /** `before` of the first messages was published; so much of all of them is, with one more. */
  lemma PlusAgrees<T>(before: seq<T>, first: seq<T>, e: T, published: bool)
    requires |before| <= |first|
    ensures (before + if published then [e] else []) == first + [e] <==> before == first && published
  {
    if published {
      AppendAgrees(before, first, e);
    } else {
      assert before + [] == before;
    }
  }

  /** All of a list is published exactly when nothing goes wrong for any of it. */
  lemma {:induction false} PublishedAllExactly<T>(due: seq<T>, n: nat, x: Context)
    ensures |Published(due, n, x)| <= |due|
    ensures Published(due, n, x) == due <==> AllGood(x, n, n + |due|)
  {
    if due != [] {
      var first, e := due[..|due| - 1], due[|due| - 1];
      PublishedAllExactly(first, n, x);
      AllGoodPlus(x, n, n + |first|);
      PlusAgrees(Published(first, n, x), first, e, x.Live(n + |first|) && x.ready(n + |first|));
      assert due == first + [e];
    }
  }

  /** Nothing of a list is published once the context is cancelled. */
  lemma {:induction false} PublishedNone<T>(due: seq<T>, n: nat, x: Context)
    requires !x.Live(n)
    ensures Published(due, n, x) == []
  {
    if due != [] { PublishedNone(due[..|due| - 1], n, x); }
  }

  lemma {:induction false} PublishedStops<T>(due: seq<T>, n: nat, x: Context, i: nat)
    requires i <= |due| && !x.Live(n + i)
    ensures Published(due, n, x) == Published(due[..i], n, x)
  {
    if |due| == i {
      assert due[..i] == due;
    } else {
      PublishedStops(due[..|due| - 1], n, x, i);
      assert due[..|due| - 1][..i] == due[..i];
    }
  }

  lemma PublishedFromStart<T>(a: seq<T>, b: seq<T>, x: Context)
    ensures Published(a + b, 0, x) == Published(a, 0, x) + Published(b, |a|, x)
  {
    PublishedConcat(a, b, 0, x);
  }

  /** Lists published one after the other are published as one. */
  lemma {:induction false} PublishedConcat<T>(a: seq<T>, b: seq<T>, n: nat, x: Context)
    ensures Published(a + b, n, x) == Published(a, n, x) + Published(b, n + |a|, x)
  {
    if b == [] {
      assert a + b == a;
    } else {
      var m := |b| - 1;
      assert (a + b)[..|a + b| - 1] == a + b[..m];
      PublishedConcat(a, b[..m], n, x);
    }
  }
}
