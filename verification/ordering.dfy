/** Statuses reported out of order: the highest rank wins. */
module StatusOrder {
  import opened Domain
  import opened Settings
  import opened Tables

  /** The stored status after a report; the database rejects a status it does not know. */
  function StoredAfter(stored: TaskStatus, status: TaskStatus): TaskStatus {
    var write := StatusToWrite(stored, status);
    if write.Other? then stored else write
  }

  /** That is the status column's new value for every target, reported or not. */
  lemma StoredAfterIsUpdate(db: Db, target: Uuid, status: TaskStatus, err: Option<string>, sentAt: Option<Time>,
                            now: Time)
    requires target in db.targets && db.targets[target].campaign in db.campaigns
    ensures UpdateTargetStatus(db, target, status, err, sentAt, now).targets[target].status ==
            StoredAfter(db.targets[target].status, status)
  {
  }

  function Fold(stored: TaskStatus, reports: seq<TaskStatus>): TaskStatus
    decreases |reports|
  {
    if reports == [] then stored else Fold(StoredAfter(stored, reports[0]), reports[1..])
  }

  predicate NoErrors(reports: seq<TaskStatus>) {
    forall s :: s in reports ==> !s.IsErrorStatus()
  }

  /** m is the greatest rank among the stored status and the reports. */
  predicate IsTopRank(m: nat, stored: TaskStatus, reports: seq<TaskStatus>) {
    stored.Rank() <= m && (forall s :: s in reports ==> s.Rank() <= m) &&
    (stored.Rank() == m || exists s :: s in reports && s.Rank() == m)
  }

  /** Folding any non-error reports ends at the greatest rank seen, whatever their order. */
  lemma {:induction false} FoldReachesTopRank(stored: TaskStatus, reports: seq<TaskStatus>)
    requires NoErrors(reports)
    ensures IsTopRank(Fold(stored, reports).Rank(), stored, reports)
    decreases |reports|
  {
    if reports != [] {
      var next := StoredAfter(stored, reports[0]);
      FoldReachesTopRank(next, reports[1..]);
      assert next.Rank() == if stored.Rank() > reports[0].Rank() then stored.Rank() else reports[0].Rank();
      assert reports[0] in reports && forall s :: s in reports[1..] ==> s in reports;
      assert forall s :: s in reports ==> s == reports[0] || s in reports[1..];
    }
  }

  /** Report number i is f, none ranks higher and every later one ranks strictly lower. */
  predicate IsLastTop(f: TaskStatus, reports: seq<TaskStatus>, i: nat) {
    i < |reports| && f == reports[i] &&
    (forall j :: 0 <= j < i ==> reports[j].Rank() <= f.Rank()) &&
    (forall j :: i < j < |reports| ==> reports[j].Rank() < f.Rank())
  }

  predicate AllBelow(f: TaskStatus, reports: seq<TaskStatus>) {
    forall j :: 0 <= j < |reports| ==> reports[j].Rank() < f.Rank()
  }

  lemma LastTopShifts(f: TaskStatus, reports: seq<TaskStatus>, i: nat)
    requires reports != [] && IsLastTop(f, reports[1..], i) && reports[0].Rank() <= f.Rank()
    ensures IsLastTop(f, reports, i + 1)
  {
    forall j | 0 <= j < |reports| ensures j > 0 ==> reports[j] == reports[1..][j - 1] {}
  }

  lemma BelowShifts(f: TaskStatus, reports: seq<TaskStatus>)
    requires reports != [] && AllBelow(f, reports[1..])
    ensures forall j :: 0 < j < |reports| ==> reports[j].Rank() < f.Rank()
  {
    forall j | 0 < j < |reports| ensures reports[j].Rank() < f.Rank() { assert reports[j] == reports[1..][j - 1]; }
  }

  /**
   The final status itself: the stored one when every report ranks strictly lower, otherwise the
   last report of the greatest rank. (Reports the database knows, whose rank is at least 1.)
   */
  lemma {:induction false} FoldIsLastOfTopRank(stored: TaskStatus, reports: seq<TaskStatus>)
    requires forall j :: 0 <= j < |reports| ==> !reports[j].IsErrorStatus() && !reports[j].Other?
    ensures var f := Fold(stored, reports);
            stored.Rank() <= f.Rank() &&
            ((f == stored && AllBelow(f, reports)) || exists i: nat :: IsLastTop(f, reports, i))
    decreases |reports|
  {
    if reports != [] {
      var rest, next := reports[1..], StoredAfter(stored, reports[0]);
      var f := Fold(next, rest);
      FoldIsLastOfTopRank(next, rest);
      if f == next && AllBelow(f, rest) {
        BelowShifts(f, reports);
        if next == reports[0] && stored.Rank() <= next.Rank() {
          assert IsLastTop(f, reports, 0);
        }
      } else {
        var i: nat :| IsLastTop(f, rest, i);
        LastTopShifts(f, reports, i);
      }
    }
  }

  /**
   Every permutation of non-error reports ends at the same rank, and at the same status
   whenever that rank is one of viewed or replied.
   */
  lemma OrderDoesNotMatter(stored: TaskStatus, a: seq<TaskStatus>, b: seq<TaskStatus>)
    requires NoErrors(a) && multiset(a) == multiset(b)
    ensures Fold(stored, a).Rank() == Fold(stored, b).Rank()
    ensures Fold(stored, a).Rank() >= 3 ==> Fold(stored, a) == Fold(stored, b)
  {
    assert forall s :: s in a <==> s in multiset(a);
    assert forall s :: s in b <==> s in multiset(b);
    FoldReachesTopRank(stored, a);
    FoldReachesTopRank(stored, b);
  }

  /** Below viewed the order does show: sent and delivered share a rank and the last one stays. */
  lemma OrderOfSentAndDelivered()
    ensures Fold(Pending, [Sent, Delivered]) == Delivered && Fold(Pending, [Delivered, Sent]) == Sent
  {
    assert [Sent, Delivered][1..] == [Delivered] && [Delivered, Sent][1..] == [Sent];
    assert Fold(Delivered, [Sent]) == Fold(Sent, []) && Fold(Sent, [Delivered]) == Fold(Delivered, []);
  }
}
