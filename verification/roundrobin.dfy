/** The doser's rotation over a tenant's accounts. */
module RoundRobin {
  import opened Domain

  datatype Request = Request(tenant: Uuid, accounts: seq<Uuid>, preferred: Option<Uuid>)

  /** Served by its preferred account, without touching the rotation. */
  predicate PrefersListed(r: Request) {
    r.preferred.Some? && r.preferred.value in r.accounts
  }

  function CursorOf(cursors: map<Uuid, nat>, tenant: Uuid): nat {
    if tenant in cursors then cursors[tenant] else 0
  }

  function Picked(cursors: map<Uuid, nat>, r: Request): Option<Uuid> {
    if r.accounts == [] then None
    else if PrefersListed(r) then r.preferred
    else Some(r.accounts[CursorOf(cursors, r.tenant) % |r.accounts|])
  }

  function CursorsAfter(cursors: map<Uuid, nat>, r: Request): map<Uuid, nat> {
    if r.accounts == [] || PrefersListed(r) then cursors
    else cursors[r.tenant := CursorOf(cursors, r.tenant) + 1]
  }

  // ---------------------------------------------------------------- sequences of picks

  /** A pick that advances the tenant's rotation. */
  predicate Rotates(r: Request, tenant: Uuid) {
    r.tenant == tenant && r.accounts != [] && !PrefersListed(r)
  }

  function CountRotations(requests: seq<Request>, tenant: Uuid): nat {
    if requests == [] then 0
    else CountRotations(requests[1..], tenant) + if Rotates(requests[0], tenant) then 1 else 0
  }

  /** How often the tenant's rotation chose the account. */
  function CountChosen(cursors: map<Uuid, nat>, requests: seq<Request>, tenant: Uuid, account: Uuid): nat
    decreases |requests|
  {
    if requests == [] then 0
    else
      CountChosen(CursorsAfter(cursors, requests[0]), requests[1..], tenant, account) +
      if Rotates(requests[0], tenant) && Picked(cursors, requests[0]) == Some(account) then 1 else 0
  }

  /** The tenant is always offered the same accounts, however many other requests come between. */
  predicate SameAccounts(requests: seq<Request>, tenant: Uuid, accounts: seq<Uuid>) {
    forall r :: r in requests && r.tenant == tenant ==> r.accounts == accounts
  }

  predicate Distinct(accounts: seq<Uuid>) {
    forall i, j :: 0 <= i < j < |accounts| ==> accounts[i] != accounts[j]
  }

  // ---------------------------------------------------------------- arithmetic of the cursor

  /** How many cursors below m fall on position idx of n. */
  function Visits(m: nat, n: nat, idx: nat): int
    requires idx < n
  {
    (m + n - 1 - idx) / n
  }

  lemma DivIs(a: int, n: nat, q: int)
    requires n > 0 && q * n <= a < q * n + n
    ensures a / n == q
  {
    var d := a / n - q;
    assert a == (a / n) * n + a % n;
    assert d * n == (a / n) * n - q * n;
    assert d >= 1 ==> d * n >= n;
    assert d <= -1 ==> d * n + n <= 0;
  }

  /** Moving the cursor by one visits exactly its own position. */
  lemma VisitsStep(m: nat, n: nat, idx: nat)
    requires idx < n
    ensures Visits(m + 1, n, idx) == Visits(m, n, idx) + if m % n == idx then 1 else 0
  {
    var q, r := m / n, m % n;
    assert m == q * n + r;
    assert (q + 1) * n == q * n + n;
    assert (q + 2) * n == q * n + n + n;
    if r > idx {
      DivIs(m + n - 1 - idx, n, q + 1);
      DivIs(m + n - idx, n, q + 1);
    } else if r == idx {
      DivIs(m + n - 1 - idx, n, q);
      DivIs(m + n - idx, n, q + 1);
    } else {
      DivIs(m + n - 1 - idx, n, q);
      DivIs(m + n - idx, n, q);
    }
  }

  lemma SumDiv(x: nat, k: nat, n: nat)
    requires n > 0
    ensures (x + k) / n - x / n == k / n + if x % n + k % n < n then 0 else 1
  {
    var q, r, p, s := x / n, x % n, k / n, k % n;
    assert x == q * n + r && k == p * n + s;
    assert (q + p) * n == q * n + p * n;
    assert (q + p + 1) * n == (q + p) * n + n;
    if r + s < n { DivIs(x + k, n, q + p); } else { DivIs(x + k, n, q + p + 1); }
  }

  lemma CeilDiv(k: nat, n: nat)
    requires n > 0
    ensures (k + n - 1) / n == k / n + if k % n == 0 then 0 else 1
  {
    var p, s := k / n, k % n;
    assert k == p * n + s;
    assert (p + 1) * n == p * n + n;
    if s == 0 { DivIs(k + n - 1, n, p); } else { DivIs(k + n - 1, n, p + 1); }
  }

  /** Over k consecutive cursors every position is visited floor(k/n) or ceil(k/n) times. */
  lemma VisitsBetween(m: nat, k: nat, n: nat, idx: nat)
    requires idx < n
    ensures k / n <= Visits(m + k, n, idx) - Visits(m, n, idx) <= (k + n - 1) / n
  {
    var x := m + n - 1 - idx;
    SumDiv(x, k, n);
    CeilDiv(k, n);
    assert m + k + n - 1 - idx == x + k;
  }

  // ---------------------------------------------------------------- fairness

  lemma {:induction false} ChosenIsVisits(cursors: map<Uuid, nat>, requests: seq<Request>, tenant: Uuid,
                                          accounts: seq<Uuid>, idx: nat)
    requires SameAccounts(requests, tenant, accounts) && Distinct(accounts) && idx < |accounts|
    ensures var m := CursorOf(cursors, tenant);
            CountChosen(cursors, requests, tenant, accounts[idx]) ==
            Visits(m + CountRotations(requests, tenant), |accounts|, idx) - Visits(m, |accounts|, idx)
    decreases |requests|
  {
    if requests != [] {
      var r := requests[0];
      assert r in requests && forall x :: x in requests[1..] ==> x in requests;
      ChosenIsVisits(CursorsAfter(cursors, r), requests[1..], tenant, accounts, idx);
      if Rotates(r, tenant) {
        VisitsStep(CursorOf(cursors, tenant), |accounts|, idx);
      }
    }
  }

  /**
   Fairness: while a tenant is offered a fixed list of n accounts, its k rotating picks choose each
   account floor(k/n) or ceil(k/n) times, from any cursor, whatever preferred hits and picks of
   other tenants happen in between.
   */
  lemma RotationIsFair(cursors: map<Uuid, nat>, requests: seq<Request>, tenant: Uuid, accounts: seq<Uuid>,
                       account: Uuid)
    requires SameAccounts(requests, tenant, accounts) && Distinct(accounts) && account in accounts
    ensures var k := CountRotations(requests, tenant);
            k / |accounts| <= CountChosen(cursors, requests, tenant, account) <= (k + |accounts| - 1) / |accounts|
  {
    var idx :| 0 <= idx < |accounts| && accounts[idx] == account;
    ChosenIsVisits(cursors, requests, tenant, accounts, idx);
    VisitsBetween(CursorOf(cursors, tenant), CountRotations(requests, tenant), |accounts|, idx);
  }
}
