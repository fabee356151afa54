/** How the counts, histories and sums of the protocol change when one element does. */
module Counting {
  import opened Settings
  import opened Tables
  import opened Protocol

  lemma {:induction false} CountHoldingUpdate(c: Config, ds: seq<Phase>, i: nat, p: Phase, k: Claimed)
    requires i < |ds|
    ensures CountHolding(c, ds[i := p], k) ==
            CountHolding(c, ds, k) - (if Holds(c, ds[i], k) then 1 else 0) + (if Holds(c, p, k) then 1 else 0)
  {
    var es := ds[i := p];
    if i == 0 {
      assert es[1..] == ds[1..];
    } else {
      assert es[1..] == ds[1..][i - 1 := p];
      CountHoldingUpdate(c, ds[1..], i - 1, p, k);
    }
  }

  lemma {:induction false} CountHoldingBelow(c: Config, ds: seq<Phase>, i: nat, k: Claimed)
    requires i < |ds| && !Holds(c, ds[i], k)
    ensures CountHolding(c, ds, k) < |ds|
  {
    if i > 0 {
      CountHoldingBelow(c, ds[1..], i - 1, k);
    }
  }

  lemma {:induction false} CountHoldingNone(c: Config, ds: seq<Phase>, k: Claimed)
    requires forall p :: p in ds ==> !Holds(c, p, k)
    ensures CountHolding(c, ds, k) == 0
  {
    if ds != [] {
      CountHoldingNone(c, ds[1..], k);
    }
  }

  lemma CountRowsAppend(c: Config, rows: seq<OutboxRow>, r: OutboxRow, k: RowKey)
    ensures CountRows(c, rows + [r], k) == CountRows(c, rows, k) + if IsRowFor(c, r, k) then 1 else 0
  {
    assert (rows + [r])[..|rows|] == rows;
  }

  /** No count depends on whether a row was processed. */
  lemma {:induction false} CountRowsMarked(c: Config, a: seq<OutboxRow>, b: seq<OutboxRow>, k: RowKey)
    requires OnlyMarked(a, b)
    ensures CountRows(c, a, k) == CountRows(c, b, k)
  {
    if a != [] {
      var n := |a| - 1;
      CountRowsMarked(c, a[..n], b[..n], k);
    }
  }

  lemma {:induction false} CountedRows(c: Config, rows: seq<OutboxRow>, k: RowKey)
    ensures CountRows(c, rows, k) == 0 <==> forall i :: 0 <= i < |rows| ==> !IsRowFor(c, rows[i], k)
  {
    if rows != [] {
      var n := |rows| - 1;
      CountedRows(c, rows[..n], k);
      assert forall i :: 0 <= i < n ==> rows[..n][i] == rows[i];
    }
  }

  lemma CountRowsAppendAll(c: Config, rows: seq<OutboxRow>, r: OutboxRow)
    ensures forall k :: CountRows(c, rows + [r], k) == CountRows(c, rows, k) + if IsRowFor(c, r, k) then 1 else 0
  {
    forall k ensures CountRows(c, rows + [r], k) == CountRows(c, rows, k) + if IsRowFor(c, r, k) then 1 else 0 {
      CountRowsAppend(c, rows, r, k);
    }
  }

  lemma HistoryAppend(log: seq<Event>, e: Event, k: Topic)
    ensures History(log + [e], k) == History(log, k) + if About(e, k) then [e] else []
  {
    assert (log + [e])[..|log|] == log;
  }

  lemma {:induction false} TotalRemove<K(!new)>(m: map<K, nat>, k: K)
    requires k in m
    ensures Total(m) == m[k] + Total(m - {k})
    decreases |m|
  {
    var j :| j in m && Total(m) == m[j] + Total(m - {j});
    if j != k {
      TotalRemove(m - {j}, k);
      TotalRemove(m - {k}, j);
      assert (m - {j}) - {k} == (m - {k}) - {j};
    }
  }

  lemma TotalUpdate<K(!new)>(m: map<K, nat>, k: K, v: nat)
    ensures Total(m[k := v]) == Total(m) - (if k in m then m[k] else 0) + v
  {
    TotalRemove(m[k := v], k);
    if k in m {
      TotalRemove(m, k);
      assert m[k := v] - {k} == m - {k};
    } else {
      assert m[k := v] - {k} == m;
    }
  }

  lemma TimesStep(n: int, b: int)
    ensures n * b == (n - 1) * b + b
  {
  }

  lemma {:induction false} TotalBounded<K(!new)>(m: map<K, nat>, bound: nat)
    requires forall k :: k in m ==> m[k] <= bound
    ensures Total(m) <= |m| * bound
    decreases |m|
  {
    if m != map[] {
      var k :| k in m && Total(m) == m[k] + Total(m - {k});
      assert (m - {k}).Keys == m.Keys - {k};
      var rest := m - {k};
      assert |rest| == |m| - 1;
      TotalBounded(rest, bound);
      TimesStep(|m|, bound);
    }
  }

  lemma {:induction false} TotalOfZeros<K(!new)>(m: map<K, nat>)
    requires forall k :: k in m ==> m[k] == 0
    ensures Total(m) == 0
    decreases |m|
  {
    if m != map[] {
      var k :| k in m && Total(m) == m[k] + Total(m - {k});
      TotalOfZeros(m - {k});
    }
  }
}
