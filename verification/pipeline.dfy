/**
 Dosing and publication together: the protocol, the outbox worker and the blocklist's writers on the
 same tables, message by message. Each attempt is followed from its row to its delivery.
 */
module Pipeline {
  import opened Domain
  import opened Settings
  import opened Tables
  import opened Protocol
  import opened Frames
  import opened Runs
  import Conservation
  import Blocklist
  import Outbox

  /** The outbox worker between two of its calls: the rows fetched and not yet tried, and those to be marked. */
  datatype Worker = AtRest | Sending(left: seq<nat>, done: seq<nat>)

  /** The blocklist's table is that of the database. */
  datatype Line = Line(w: World, shared: Blocklist.Shared, sent: seq<Outbox.Delivery>, worker: Worker)

  datatype LineStep =
    | Move(s: Step)
    | Write(a: Blocklist.Action)
    | Fetch(ids: seq<nat>)
    | SendNext(resultSent: bool, queueReady: bool, publish: Outbox.Publish)
    | Mark(ok: bool)
    | Crash

  predicate CanGo(c: Config, l: Line, s: LineStep) {
    match s
    case Move(p) => Enabled(c, l.w, p) && !(p.Elsewhere? && p.o.MarkRows?)
    case Write(a) => !a.Persist? && Blocklist.CanAct(l.shared, a)
    case Fetch(ids) => l.worker.AtRest? && IsBatch(l.w.db.outbox, l.w.now, 100, ids)
    case SendNext(_, _, _) => l.worker.Sending? && l.worker.left != [] && l.worker.left[0] < |l.w.db.outbox|
    case Mark(_) => l.worker.Sending? && l.worker.left == []
    case Crash => true
  }

  function Tried(c: Config, l: Line, s: LineStep): Option<Outbox.Delivery>
    requires s.SendNext? && CanGo(c, l, s)
  {
    var id := l.worker.left[0];
    Outbox.Attempt(c, id, l.w.db.outbox[id], Outbox.Broker([], l.w.now, s.resultSent, s.queueReady, s.publish),
                   l.shared.cache)
  }

  function Moved(l: Line, w: World): Line {
    l.(w := w, shared := l.shared.(table := w.db.blocked))
  }

  function Sent(l: Line, d: Option<Outbox.Delivery>): Line
    requires l.worker.Sending? && l.worker.left != []
  {
    var left, done := l.worker.left, l.worker.done;
    if d.None? then l.(worker := Sending(left[1..], done))
    else
      l.(sent := l.sent + [d.value],
         worker := Sending(left[1..], if Outbox.Successful(d.value) then done + [left[0]] else done))
  }

  function Go(c: Config, l: Line, s: LineStep): Line
    requires CanGo(c, l, s)
  {
    match s
    case Move(p) => Moved(l, Next(c, l.w, p))
    case Write(a) => l.(shared := Blocklist.Act(l.shared, a))
    case Fetch(ids) => l.(worker := Sending(ids, []))
    case SendNext(_, _, _) => Sent(l, Tried(c, l, s))
    case Mark(ok) => (if ok then Moved(l, OtherNext(c, l.w, MarkRows(l.worker.done))) else l).(worker := AtRest)
    case Crash => l.(worker := AtRest)
  }

  predicate Lawful(c: Config, l: Line, steps: seq<LineStep>)
    decreases |steps|
  {
    steps == [] || (CanGo(c, l, steps[0]) && Lawful(c, Go(c, l, steps[0]), steps[1..]))
  }

  function Finish(c: Config, l: Line, steps: seq<LineStep>): Line
    requires Lawful(c, l, steps)
    decreases |steps|
  {
    if steps == [] then l else Finish(c, Go(c, l, steps[0]), steps[1..])
  }

  // ---------------------------------------------------------------- a pipeline run is a protocol run

  function TakenBy(l: Line, s: LineStep): seq<Step> {
    match s
    case Move(p) => [p]
    case Mark(ok) => if ok && l.worker.Sending? then [Elsewhere(MarkRows(l.worker.done))] else []
    case _ => []
  }

  function Taken(c: Config, l: Line, steps: seq<LineStep>): seq<Step>
    requires Lawful(c, l, steps)
    decreases |steps|
  {
    if steps == [] then [] else TakenBy(l, steps[0]) + Taken(c, Go(c, l, steps[0]), steps[1..])
  }

  lemma {:induction false} PipelineIsRun(c: Config, l: Line, steps: seq<LineStep>)
    requires Lawful(c, l, steps)
    ensures Legal(c, l.w, Taken(c, l, steps)) && Run(c, l.w, Taken(c, l, steps)) == Finish(c, l, steps).w
    decreases |steps|
  {
    if steps != [] {
      var next, first := Go(c, l, steps[0]), TakenBy(l, steps[0]);
      PipelineIsRun(c, next, steps[1..]);
      if first != [] {
        OneStep(c, l.w, first[0]);
        assert first == [first[0]];
      }
      RunConcat(c, l.w, first, Taken(c, next, steps[1..]));
    }
  }

  // ---------------------------------------------------------------- what the pipeline keeps

  function MailboxOf(l: Line): Outbox.Mailbox {
    Outbox.Mailbox(l.w.db.outbox, l.shared, l.sent)
  }

  predicate WasSent(sent: seq<Outbox.Delivery>, id: nat) {
    exists d :: d in sent && d.row == id && Outbox.Successful(d)
  }

  predicate WorkerSane(l: Line) {
    l.worker.Sending? ==>
      (forall i :: 0 <= i < |l.worker.left| ==> l.worker.left[i] < |l.w.db.outbox|) &&
      forall i :: 0 <= i < |l.worker.done| ==> WasSent(l.sent, l.worker.done[i])
  }

  predicate LineInv(c: Config, l: Line) {
    Outbox.MailboxInv(c, MailboxOf(l)) && l.shared.table == l.w.db.blocked && WorkerSane(l)
  }

  lemma BackedByMore(s: Blocklist.Shared, table: set<(Uuid, Phone)>)
    requires Blocklist.CacheBacked(s) && s.table <= table
    ensures Blocklist.CacheBacked(s.(table := table))
  {
    Blocklist.KeysMonotone(s.table, table);
  }

  /** Rows appended or marked after their delivery, and more blocks, leave all deliveries accounted for. */
  lemma MailboxGrows(c: Config, m: Outbox.Mailbox, after: Outbox.Mailbox)
    requires Outbox.MailboxInv(c, m) && after.sent == m.sent && after.shared == m.shared.(table := after.shared.table)
    requires Outbox.SameButMarks(m.rows, after.rows) && m.shared.table <= after.shared.table
    requires forall id :: 0 <= id < |after.rows| && after.rows[id].processed ==>
               (id < |m.rows| && m.rows[id].processed) || WasSent(m.sent, id)
    ensures Outbox.MailboxInv(c, after)
  {
    BackedByMore(m.shared, after.shared.table);
    forall id | 0 <= id < |after.rows| ensures Outbox.Accounted(after, id) {
      if id < |m.rows| { assert Outbox.Accounted(m, id); }
    }
    forall d | d in after.sent ensures Outbox.Faithful(c, after, d) {
      Outbox.FaithfulStays(c, m, after, d);
    }
  }

  lemma MoveKeeps(c: Config, l: Line, s: LineStep)
    requires s.Move? && CanGo(c, l, s) && LineInv(c, l)
    ensures LineInv(c, Go(c, l, s))
  {
    var next := Next(c, l.w, s.s);
    BlockedGrows(c, l.w, s.s);
    RowsOnlyAppended(c, l.w, s.s);
    var a, b := l.w.db.outbox, next.db.outbox;
    assert forall i :: 0 <= i < |a| ==> b[i] == b[..|a|][i];
    MailboxGrows(c, MailboxOf(l), MailboxOf(Go(c, l, s)));
  }

  lemma MarkKeeps(c: Config, l: Line, s: LineStep)
    requires s.Mark? && CanGo(c, l, s) && LineInv(c, l)
    ensures LineInv(c, Go(c, l, s))
  {
    if s.ok {
      MailboxGrows(c, MailboxOf(l), MailboxOf(Go(c, l, s)));
    }
  }

  lemma WriteKeeps(c: Config, l: Line, s: LineStep)
    requires s.Write? && CanGo(c, l, s) && LineInv(c, l)
    ensures LineInv(c, Go(c, l, s))
  {
    Blocklist.ActKeepsBacked(l.shared, s.a);
    var m, after := MailboxOf(l), MailboxOf(Go(c, l, s));
    forall id | 0 <= id < |after.rows| ensures Outbox.Accounted(after, id) { assert Outbox.Accounted(m, id); }
    forall d | d in after.sent ensures Outbox.Faithful(c, after, d) { Outbox.FaithfulStays(c, m, after, d); }
  }

  lemma SendKeeps(c: Config, l: Line, s: LineStep)
    requires s.SendNext? && CanGo(c, l, s) && LineInv(c, l)
    ensures LineInv(c, Go(c, l, s))
  {
    var d, m, after := Tried(c, l, s), MailboxOf(l), MailboxOf(Go(c, l, s));
    var id := l.worker.left[0];
    Outbox.AttemptFaithful(c, m, id, Outbox.Broker([], l.w.now, s.resultSent, s.queueReady, s.publish), l.shared);
    forall i | 0 <= i < |after.rows| ensures Outbox.Accounted(after, i) { assert Outbox.Accounted(m, i); }
    forall e | e in after.sent ensures Outbox.Faithful(c, after, e) {
      Outbox.FaithfulStays(c, m, after, e);
    }
    forall i | 0 <= i < |Go(c, l, s).worker.done| ensures WasSent(after.sent, Go(c, l, s).worker.done[i]) {
      if i < |l.worker.done| { assert WasSent(l.sent, l.worker.done[i]); } else { assert d.value in after.sent; }
    }
  }

  lemma StepKeepsLine(c: Config, l: Line, s: LineStep)
    requires CanGo(c, l, s) && LineInv(c, l)
    ensures LineInv(c, Go(c, l, s))
  {
    match s
    case Move(_) => MoveKeeps(c, l, s);
    case Write(_) => WriteKeeps(c, l, s);
    case SendNext(_, _, _) => SendKeeps(c, l, s);
    case Mark(_) => MarkKeeps(c, l, s);
    case _ =>
  }

  lemma {:induction false} LineAlong(c: Config, l: Line, steps: seq<LineStep>)
    requires Lawful(c, l, steps) && LineInv(c, l)
    ensures LineInv(c, Finish(c, l, steps))
    decreases |steps|
  {
    if steps != [] {
      StepKeepsLine(c, l, steps[0]);
      LineAlong(c, Go(c, l, steps[0]), steps[1..]);
    }
  }

  // ---------------------------------------------------------------- from attempts to deliveries

  /** The places of a target's rows. */
  function RowsOf(rows: seq<OutboxRow>, target: Uuid): set<nat> {
    set i: nat | i < |rows| && rows[i].task.taskId == target
  }

  lemma {:induction false} RowsAreCounted(c: Config, rows: seq<OutboxRow>, target: Uuid)
    ensures |RowsOf(rows, target)| == CountRows(c, rows, ForTarget(target))
  {
    if rows != [] {
      var n := |rows| - 1;
      RowsAreCounted(c, rows[..n], target);
      if rows[n].task.taskId == target {
        assert RowsOf(rows, target) == RowsOf(rows[..n], target) + {n};
      } else {
        assert RowsOf(rows, target) == RowsOf(rows[..n], target);
      }
    }
  }

  predicate FreshLine(c: Config, l: Line) {
    Initial(c, l.w) && l.shared.table == l.w.db.blocked && l.shared.cache == {} &&
    (forall w :: w in l.shared.writers ==> w.Resting?) && l.sent == [] && l.worker.AtRest?
  }

  /**
   Each attempt of a target is a row of its own, which is still pending or was successfully delivered,
   whatever dosers, results, publish errors, failed markings, crashes and writers of the blocklist
   come between; and what was delivered was filtered and routed as its row says.
   */
  lemma AttemptsAreDelivered(c: Config, l: Line, steps: seq<LineStep>, target: Uuid)
    requires FreshLine(c, l) && Lawful(c, l, steps) && target in l.w.db.targets
    ensures var end := Finish(c, l, steps);
            target in end.w.db.targets &&
            end.w.db.targets[target].attempts == |RowsOf(end.w.db.outbox, target)| &&
            (forall id :: id in RowsOf(end.w.db.outbox, target) ==>
               !end.w.db.outbox[id].processed || WasSent(end.sent, id)) &&
            (forall d :: d in end.sent ==> Outbox.Faithful(c, MailboxOf(end), d)) &&
            (forall d :: d in end.sent && d.BlockedResult? ==> (d.task.tenantId, d.task.phone) in end.w.db.blocked)
  {
    var end := Finish(c, l, steps);
    LineAlong(c, l, steps);
    PipelineIsRun(c, l, steps);
    Conservation.TripleEntry(c, l.w, Taken(c, l, steps));
    RunKeepsHomes(c, l.w, Taken(c, l, steps));
    RowsAreCounted(c, end.w.db.outbox, target);
    forall id | id in RowsOf(end.w.db.outbox, target) ensures !end.w.db.outbox[id].processed || WasSent(end.sent, id) {
      assert Outbox.Accounted(MailboxOf(end), id);
    }
  }
}
