/** The copy-on-write blocklist cache and how it relates to the persisted blocks. */
module Blocklist {
  import opened Domain

  function Key(tenant: Uuid, phone: Phone): string {
    UuidText(tenant) + "|" + phone.digits
  }

  /** The string key stands for exactly one tenant and phone. */
  lemma KeyInjective(t1: Uuid, p1: Phone, t2: Uuid, p2: Phone)
    ensures Key(t1, p1) == Key(t2, p2) <==> t1 == t2 && p1 == p2
  {
    if Key(t1, p1) == Key(t2, p2) {
      assert Key(t1, p1)[..36] == UuidText(t1) && Key(t2, p2)[..36] == UuidText(t2);
      assert Key(t1, p1)[37..] == p1.digits && Key(t2, p2)[37..] == p2.digits;
      UuidTextInjective(t1, t2);
    }
  }

  function Keys(pairs: set<(Uuid, Phone)>): set<string> {
    set b | b in pairs :: Key(b.0, b.1)
  }

  function SetOf(rows: seq<(Uuid, Phone)>): set<(Uuid, Phone)> {
    set b | b in rows
  }

  lemma KeysMember(pairs: set<(Uuid, Phone)>, tenant: Uuid, phone: Phone)
    ensures Key(tenant, phone) in Keys(pairs) <==> (tenant, phone) in pairs
  {
    if Key(tenant, phone) in Keys(pairs) {
      var b :| b in pairs && Key(b.0, b.1) == Key(tenant, phone);
      KeyInjective(b.0, b.1, tenant, phone);
    }
  }

  // ---------------------------------------------------------------- the cache object

  class Cache {
    var data: set<string>

    constructor ()
      ensures data == {}
    {
      data := {};
    }

    /** The set of pairs the cache answers for. */
    ghost predicate Represents(pairs: set<(Uuid, Phone)>)
      reads this
    {
      data == Keys(pairs)
    }

    /** Answers membership of the pair, not merely of some text that looks like it. */
    method IsBlocked(tenant: Uuid, phone: Phone, ghost pairs: set<(Uuid, Phone)>) returns (blocked: bool)
      requires Represents(pairs)
      ensures blocked <==> (tenant, phone) in pairs
    {
      KeysMember(pairs, tenant, phone);
      return Key(tenant, phone) in data;
    }

    method Add(tenant: Uuid, phone: Phone, ghost pairs: set<(Uuid, Phone)>)
      requires Represents(pairs)
      modifies this
      ensures Represents(pairs + {(tenant, phone)})
    {
      var prev := data;
      var next: set<string> := {};
      var rest := prev;
      while rest != {}
        invariant rest <= prev && next + rest == prev
        decreases rest
      {
        var k :| k in rest;
        rest, next := rest - {k}, next + {k};
      }
      next := next + {Key(tenant, phone)};
      data := next;
    }

    /** A failed listing (None) leaves the cache alone; a successful one replaces it. */
    method Refresh(items: Option<seq<(Uuid, Phone)>>, ghost pairs: set<(Uuid, Phone)>) returns (ok: bool)
      requires Represents(pairs)
      modifies this
      ensures ok <==> items.Some?
      ensures Represents(if items.Some? then SetOf(items.value) else pairs)
    {
      if items.None? {
        return false;
      }
      var rows := items.value;
      var next: set<string> := {};
      for i := 0 to |rows|
        invariant next == Keys(SetOf(rows[..i]))
      {
        assert rows[..i + 1] == rows[..i] + [rows[i]];
        assert SetOf(rows[..i + 1]) == SetOf(rows[..i]) + {rows[i]};
        next := next + {Key(rows[i].0, rows[i].1)};
      }
      assert rows[..|rows|] == rows;
      data := next;
      return true;
    }
  }

  // ---------------------------------------------------------------- interleaved adders and refreshers

  /** A writer between its load and its store. */
  datatype Writer =
    | Resting
    | Adding(prev: set<string>, tenant: Uuid, phone: Phone)
    | Refreshing(items: set<(Uuid, Phone)>)

  datatype Shared = Shared(table: set<(Uuid, Phone)>, cache: set<string>, writers: seq<Writer>)

  datatype Action =
    | Persist(tenant: Uuid, phone: Phone)
    | LoadForAdd(i: nat, tenant: Uuid, phone: Phone)
    | LoadForRefresh(i: nat)
    | Store(i: nat)

  /** A block is added to the cache only after the reply that caused it was registered. */
  predicate CanAct(s: Shared, a: Action) {
    match a
    case Persist(_, _) => true
    case LoadForAdd(i, tenant, phone) => i < |s.writers| && s.writers[i].Resting? && (tenant, phone) in s.table
    case LoadForRefresh(i) => i < |s.writers| && s.writers[i].Resting?
    case Store(i) => i < |s.writers| && !s.writers[i].Resting?
  }

  function Act(s: Shared, a: Action): Shared
    requires CanAct(s, a)
  {
    match a
    case Persist(tenant, phone) => s.(table := s.table + {(tenant, phone)})
    case LoadForAdd(i, tenant, phone) => s.(writers := s.writers[i := Adding(s.cache, tenant, phone)])
    case LoadForRefresh(i) => s.(writers := s.writers[i := Refreshing(s.table)])
    case Store(i) =>
      s.(writers := s.writers[i := Resting],
         cache := match s.writers[i]
                  case Adding(prev, tenant, phone) => prev + {Key(tenant, phone)}
                  case Refreshing(items) => Keys(items)
                  case Resting => s.cache)
  }

  predicate Acts(s: Shared, actions: seq<Action>)
    decreases |actions|
  {
    actions == [] || (CanAct(s, actions[0]) && Acts(Act(s, actions[0]), actions[1..]))
  }

  function Play(s: Shared, actions: seq<Action>): Shared
    requires Acts(s, actions)
    decreases |actions|
  {
    if actions == [] then s else Play(Act(s, actions[0]), actions[1..])
  }

  /** The given actions in order; those not possible when their turn comes are skipped. */
  function Attempted(s: Shared, actions: seq<Action>): Shared
    decreases |actions|
  {
    if actions == [] then s
    else Attempted(if CanAct(s, actions[0]) then Act(s, actions[0]) else s, actions[1..])
  }

  predicate Backed(w: Writer, table: set<(Uuid, Phone)>) {
    match w
    case Resting => true
    case Adding(prev, tenant, phone) => prev <= Keys(table) && (tenant, phone) in table
    case Refreshing(items) => items <= table
  }

  /** Nothing is cached, or about to be, that is not persisted. */
  predicate CacheBacked(s: Shared) {
    s.cache <= Keys(s.table) && forall i :: 0 <= i < |s.writers| ==> Backed(s.writers[i], s.table)
  }

  lemma KeysMonotone(a: set<(Uuid, Phone)>, b: set<(Uuid, Phone)>)
    requires a <= b
    ensures Keys(a) <= Keys(b)
  {
  }

  lemma ActKeepsBacked(s: Shared, a: Action)
    requires CanAct(s, a) && CacheBacked(s)
    ensures CacheBacked(Act(s, a)) && s.table <= Act(s, a).table
  {
    match a
    case Persist(tenant, phone) => KeysMonotone(s.table, s.table + {(tenant, phone)});
    case Store(i) =>
      if s.writers[i].Refreshing? { KeysMonotone(s.writers[i].items, s.table); }
    case _ =>
  }

  lemma {:induction false} BackedAlong(s: Shared, actions: seq<Action>)
    requires Acts(s, actions) && CacheBacked(s)
    ensures CacheBacked(Play(s, actions)) && s.table <= Play(s, actions).table
    decreases |actions|
  {
    if actions != [] {
      ActKeepsBacked(s, actions[0]);
      BackedAlong(Act(s, actions[0]), actions[1..]);
    }
  }

  lemma {:induction false} AttemptedBacked(s: Shared, actions: seq<Action>)
    requires CacheBacked(s)
    ensures CacheBacked(Attempted(s, actions)) && s.table <= Attempted(s, actions).table
    decreases |actions|
  {
    if actions != [] {
      if CanAct(s, actions[0]) { ActKeepsBacked(s, actions[0]); }
      AttemptedBacked(if CanAct(s, actions[0]) then Act(s, actions[0]) else s, actions[1..]);
    }
  }

  /**
   Under any interleaving of adders and refreshers, whoever the cache calls blocked is persisted
   as blocked, and stays so: the cache never invents a block.
   */
  lemma CacheNeverInvents(s: Shared, actions: seq<Action>, tenant: Uuid, phone: Phone)
    requires s.cache == {} && (forall w :: w in s.writers ==> w.Resting?) && Acts(s, actions)
    requires Key(tenant, phone) in Play(s, actions).cache
    ensures (tenant, phone) in Play(s, actions).table
  {
    BackedAlong(s, actions);
    KeysMember(Play(s, actions).table, tenant, phone);
  }

  /** Actions of other writers and of the table between a refresh's load and its store. */
  predicate LeavesWriter(actions: seq<Action>, i: nat) {
    forall a :: a in actions ==> (a.LoadForAdd? || a.LoadForRefresh? || a.Store? ==> a.i != i)
  }

  lemma {:induction false} WriterUntouched(s: Shared, actions: seq<Action>, i: nat)
    requires Acts(s, actions) && LeavesWriter(actions, i) && i < |s.writers|
    ensures i < |Play(s, actions).writers| && Play(s, actions).writers[i] == s.writers[i]
    decreases |actions|
  {
    if actions != [] {
      WriterUntouched(Act(s, actions[0]), actions[1..], i);
    }
  }

  /**
   When a refresh stores, the cache is exactly the table it loaded, whatever happened in between:
   equal to the present table when nothing was persisted meanwhile, and otherwise losing exactly
   the blocks persisted after the load, even those another writer had already cached.
   */
  lemma RefreshStoresWhatItLoaded(s: Shared, i: nat, between: seq<Action>)
    requires CanAct(s, LoadForRefresh(i)) && Acts(Act(s, LoadForRefresh(i)), between) && LeavesWriter(between, i)
    ensures var mid := Play(Act(s, LoadForRefresh(i)), between);
            CanAct(mid, Store(i)) &&
            var end := Act(mid, Store(i));
            end.cache == Keys(s.table) &&
            (forall tenant: Uuid, phone: Phone :: Key(tenant, phone) in end.cache <==> (tenant, phone) in s.table)
  {
    WriterUntouched(Act(s, LoadForRefresh(i)), between, i);
    forall tenant: Uuid, phone: Phone ensures Key(tenant, phone) in Keys(s.table) <==> (tenant, phone) in s.table {
      KeysMember(s.table, tenant, phone);
    }
  }
}
