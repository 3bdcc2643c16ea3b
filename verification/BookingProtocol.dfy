/** Booking requests of many clients, interleaved one database statement at a time.

    Every request runs in its own READ COMMITTED transaction: it reads committed rows, its writes
    stay private and lock their rows until it ends, and its outbox events become visible with its
    rows. A step that has to wait for another transaction leaves the state as it is, so a run is
    any sequence of actions at all. A request that is rolled back issues no further statement here;
    `BookingDisconnects` follows those that do. */
module BookingProtocol {
  import opened Wrappers
  import opened BookingDomain

  datatype Slot = Slot(startsAt: int, endsAt: int)

  datatype Request =
      /** confirm, complete, cancel, noShow */
    | Change(id: int, version: nat, to: Status)
    | Move(id: int, version: nat, slot: Slot)
      /** one booking (`series` None, conflicts not skipped) or the occurrences of a series */
    | Book(staff: int, service: int, customer: int, price: nat, slots: seq<Slot>, series: Option<int>, skip: bool)
    | CancelSeries(recurrence: int, now: int)

  datatype Phase =
    | Start
    | Checked             // the read and the guard of a change or a move are done
    | Inserting(next: nat)
    | Sweeping(left: set<int>)  // rows that the series cancellation has still to visit
    | Applied
    | Failed              // an error was raised; only a rollback is left

  /** `owed` lists the rows that were written and whose event is not recorded yet. */
  datatype Tx = Tx(tenant: int, req: Request, phase: Phase, writes: Rows, events: seq<Event>, owed: seq<int>)

  datatype State = State(rows: Rows, events: seq<Event>, txs: map<int, Tx>, shown: set<(int, nat)>)

  datatype Action =
    | Show(id: int)                                // a client is shown a committed row
    | Begin(tid: int, tenant: int, req: Request)   // with a version the client has been shown
    | Guess(tid: int, tenant: int, req: Request)   // with any version at all
    | Check(tid: int)
    | Update(tid: int)
    | Insert(tid: int, id: int)
    | SweepStart(tid: int)
    | Sweep(tid: int, id: int)
    | Emit(tid: int)
    | Commit(tid: int)
    | Rollback(tid: int)

  const EMPTY := State(map[], [], map[], {})

  // ----- what the database does -----

  function View(s: State, t: Tx): Rows {
    s.rows + t.writes
  }

  predicate LockedByOther(s: State, tid: int, id: int) {
    exists u :: u in s.txs && u != tid && id in s.txs[u].writes
  }

  /** A conflicting row that no other transaction is about to change: the statement raises 23P01. */
  predicate SettledConflict(s: State, tid: int, id: int, b: Booking)
    requires tid in s.txs
  {
    var view := View(s, s.txs[tid]);
    exists j :: j in view && j != id && Conflict(b, view[j]) && !LockedByOther(s, tid, j)
  }

  /** A conflict with a row as another transaction wrote it, or as it was before that write: the
      statement waits for that transaction to end. */
  predicate PendingConflict(s: State, tid: int, id: int, b: Booking) {
    exists u, j :: u in s.txs && u != tid && j in s.txs[u].writes && j != id &&
      (Conflict(b, s.txs[u].writes[j]) || (j in s.rows && Conflict(b, s.rows[j])))
  }

  function SetTx(s: State, tid: int, t: Tx): State {
    s.(txs := s.txs[tid := t])
  }

  /** One row written by one statement, under row locks and the exclusion constraint. */
  function Write(s: State, tid: int, id: int, b: Booking, next: Phase, onConflict: Phase): State
    requires tid in s.txs
  {
    var t := s.txs[tid];
    if SettledConflict(s, tid, id, b) then SetTx(s, tid, t.(phase := onConflict))
    else if PendingConflict(s, tid, id, b) then s
    else SetTx(s, tid, t.(phase := next, writes := t.writes[id := b], owed := t.owed + [id]))
  }

  // ----- the statements of a request -----

  predicate Presented(s: State, req: Request) {
    match req
    case Change(id, version, _) => (id, version) in s.shown
    case Move(id, version, _) => (id, version) in s.shown
    case _ => true
  }

  predicate Visible(rows: Rows, tenant: int, id: int) {
    id in rows && rows[id].tenant == tenant
  }

  function DoBegin(s: State, tid: int, tenant: int, req: Request): State {
    if tid in s.txs then s
    else SetTx(s, tid, Tx(tenant, req, if req.Book? then Inserting(0) else Start, map[], [], []))
  }

  /** `getOrThrow` and the status guard. */
  function DoCheck(s: State, tid: int): State
    requires tid in s.txs
  {
    var t := s.txs[tid];
    if t.phase != Start then s
    else match t.req
      case Change(id, _, to) =>
        SetTx(s, tid, t.(phase :=
          if Visible(s.rows, t.tenant, id) && CanTransition(s.rows[id].status, to) then Checked else Failed))
      case Move(id, _, _) =>
        SetTx(s, tid, t.(phase :=
          if Visible(s.rows, t.tenant, id) && Active(s.rows[id].status) then Checked else Failed))
      case _ => s
  }

  function Updated(req: Request, b: Booking): Booking
    requires req.Change? || req.Move?
  {
    if req.Change? then WithStatus(b, req.to) else WithRange(b, req.slot.startsAt, req.slot.endsAt)
  }

  /** `UPDATE … WHERE id AND tenant AND version`: a row that fails the test is not waited for; one
      that passes is locked first, and the test is repeated on its newest committed form. */
  function DoUpdate(s: State, tid: int): State
    requires tid in s.txs
  {
    var t := s.txs[tid];
    if t.phase != Checked || !(t.req.Change? || t.req.Move?) then s
    else if !Visible(s.rows, t.tenant, t.req.id) || s.rows[t.req.id].version != t.req.version then
      SetTx(s, tid, t.(phase := Failed))
    else if LockedByOther(s, tid, t.req.id) then s
    else
      Write(s, tid, t.req.id, Updated(t.req, s.rows[t.req.id]), Applied, Failed)
  }

  function Fresh(t: Tx, slot: Slot): Booking
    requires t.req.Book?
  {
    Booking(t.tenant, t.req.staff, t.req.service, t.req.customer, t.req.price,
            slot.startsAt, slot.endsAt, Pending, t.req.series, 1)
  }

  predicate KnownId(s: State, id: int) {
    id in s.rows || exists u :: u in s.txs && id in s.txs[u].writes
  }

  /** One insert under a new id; a skipped conflict rolls back to its savepoint and goes on. */
  function DoInsert(s: State, tid: int, id: int): State
    requires tid in s.txs
  {
    var t := s.txs[tid];
    if !t.req.Book? || !t.phase.Inserting? || t.phase.next >= |t.req.slots| || t.owed != [] || KnownId(s, id) then s
    else
      var next := Inserting(t.phase.next + 1);
      Write(s, tid, id, Fresh(t, t.req.slots[t.phase.next]), next, if t.req.skip then next else Failed)
  }

  function DoSweepStart(s: State, tid: int): State
    requires tid in s.txs
  {
    var t := s.txs[tid];
    if t.phase != Start || !t.req.CancelSeries? then s
    else SetTx(s, tid, t.(phase := Sweeping(set id | id in s.rows && InSeries(s.rows[id], t.tenant, t.req.recurrence, t.req.now))))
  }

  /** The bulk update reaches one row of its snapshot: it waits for the lock and tests it again. */
  function DoSweep(s: State, tid: int, id: int): State
    requires tid in s.txs
  {
    var t := s.txs[tid];
    if !t.phase.Sweeping? || !t.req.CancelSeries? || id !in t.phase.left || LockedByOther(s, tid, id) then s
    else
      var next := Sweeping(t.phase.left - {id});
      if id in s.rows && InSeries(s.rows[id], t.tenant, t.req.recurrence, t.req.now) then
        Write(s, tid, id, WithStatus(s.rows[id], Cancelled), next, Failed)
      else
        SetTx(s, tid, t.(phase := next))
  }

  function KindOf(req: Request): EventKind {
    match req
    case Change(_, _, to) => ChangedTo(to)
    case Move(_, _, _) => Rescheduled
    case Book(_, _, _, _, _, _, _) => Created
    case CancelSeries(_, _) => ChangedTo(Cancelled)
  }

  predicate BodyDone(t: Tx) {
    match t.phase
    case Applied => true
    case Inserting(next) => t.req.Book? && next >= |t.req.slots|
    case Sweeping(left) => left == {}
    case _ => false
  }

  /** Rows have been written and the first event for them comes next. */
  predicate Owes(t: Tx) {
    !t.phase.Failed? && !(t.phase.Sweeping? && t.phase.left != {}) && t.owed != [] && t.owed[0] in t.writes
  }

  function NextEvent(t: Tx): Event
    requires Owes(t)
  {
    Emitted(t.owed[0], t.writes[t.owed[0]], KindOf(t.req))
  }

  /** The row is read back (it is locked, so it is the transaction's own) and its event recorded.
      An insert is followed by its event at once, a series cancellation emits after the bulk update. */
  function DoEmit(s: State, tid: int): State
    requires tid in s.txs
  {
    var t := s.txs[tid];
    if !Owes(t) then s else SetTx(s, tid, t.(events := t.events + [NextEvent(t)], owed := t.owed[1..]))
  }

  function DoCommit(s: State, tid: int): State
    requires tid in s.txs
  {
    var t := s.txs[tid];
    if !BodyDone(t) || t.owed != [] then s
    else s.(rows := s.rows + t.writes, events := s.events + t.events, txs := s.txs - {tid})
  }

  function Step(s: State, a: Action): State {
    match a
    case Show(id) => if id in s.rows then s.(shown := s.shown + {(id, s.rows[id].version)}) else s
    case Begin(tid, tenant, req) => if Presented(s, req) then DoBegin(s, tid, tenant, req) else s
    case Guess(tid, tenant, req) => DoBegin(s, tid, tenant, req)
    case Check(tid) => if tid in s.txs then DoCheck(s, tid) else s
    case Update(tid) => if tid in s.txs then DoUpdate(s, tid) else s
    case Insert(tid, id) => if tid in s.txs then DoInsert(s, tid, id) else s
    case SweepStart(tid) => if tid in s.txs then DoSweepStart(s, tid) else s
    case Sweep(tid, id) => if tid in s.txs then DoSweep(s, tid, id) else s
    case Emit(tid) => if tid in s.txs then DoEmit(s, tid) else s
    case Commit(tid) => if tid in s.txs then DoCommit(s, tid) else s
    case Rollback(tid) => s.(txs := s.txs - {tid})
  }

  function Run(s: State, actions: seq<Action>): State {
    if actions == [] then s
    else Step(Run(s, actions[..|actions| - 1]), actions[|actions| - 1])
  }

  lemma RunAppend(s: State, xs: seq<Action>, a: Action)
    ensures Run(s, xs + [a]) == Step(Run(s, xs), a)
  {
    assert (xs + [a])[..|xs + [a]| - 1] == xs;
  }

  lemma {:induction false} RunJoin(s: State, a: seq<Action>, b: seq<Action>)
    ensures Run(s, a + b) == Run(Run(s, a), b)
  {
    if b == [] {
      assert a + b == a;
    } else {
      var n := |b| - 1;
      assert a + b == (a + b[..n]) + [b[n]];
      RunAppend(s, a + b[..n], b[n]);
      RunJoin(s, a, b[..n]);
    }
  }
}
