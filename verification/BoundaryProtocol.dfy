/** What may happen to one node's continuity operations, told as a log.

    The log lists every durable row write, every helper call with its true
    effect, and every answer that reached the runtime. `Lawful` says of each
    entry what evidence must already be in the log when it is made; the theorems
    hold of every lawful log, hence of every crash, because what a crash leaves
    is a shorter lawful log. That the coordinator's code makes only lawful
    entries is proved in module ContinuityCoordinator. */
module BoundaryProtocol {
  import opened Options

  type Id = string

  /** `authority` stands for everything a replay compares besides the ID: the
      identity, binding, scope revision, action, boundary kind and request digest. */
  datatype Operation = Operation(id: Id, sandbox: string, authority: string)

  datatype FailureCode =
    | SourceUnavailable
    | RegistrationProvisionFailed
    | InvalidRequest
    | HelperRefusal(code: string)
    | TargetChanged
    | CaptureFailed
    | CheckpointFailed

  datatype UnknownCode = BoundaryOutcomeUnknown | BoundaryReleaseUnknown | RecoveredWithoutResult

  datatype Status = Applying | Accepted | Failed(code: FailureCode) | OutcomeUnknown(why: UnknownCode) {
    predicate Terminal() {
      !Applying?
    }
  }

  datatype Report = Report(operation: Operation, status: Status)

  /** The stored helper request, and whether the acquire receipt is stored too. */
  datatype Barrier = Barrier(operation: Operation, instance: string, receipt: bool)

  datatype Fact = Acknowledged | Refused | Released | Missing

  datatype Event =
    | BarrierPut(op: Id, barrier: Barrier)
    | BarrierDeleted(op: Id)
    | ReportPut(op: Id, report: Report)
    | Retired(op: Id)
    | AcquireSent(op: Id, took: bool)
    | ReleaseSent(op: Id, took: bool)
    | Answer(op: Id, fact: Fact)
    | CaptureSucceeded(op: Id)
    | CheckpointSucceeded(op: Id)

  /** The durable rows and the boundaries the helper really holds. */
  datatype State = State(reports: map<Id, Report>, barriers: map<Id, Barrier>, tombstones: map<Id, Report>, held: set<Id>) {
    predicate Known(op: Id) {
      op in reports || op in tombstones
    }

    predicate Has(op: Id, status: Status) {
      op in reports && reports[op].status == status
    }
  }

  const EMPTY := State(map[], map[], map[], {})

  function Apply(s: State, e: Event): State {
    match e
    case BarrierPut(op, barrier) => s.(barriers := s.barriers[op := barrier])
    case BarrierDeleted(op) => s.(barriers := s.barriers - {op})
    case ReportPut(op, report) => s.(reports := s.reports[op := report])
    case Retired(op) =>
      if op in s.reports then
        s.(reports := s.reports - {op}, tombstones := s.tombstones[op := s.reports[op]])
      else s
    case AcquireSent(op, took) => if took then s.(held := s.held + {op}) else s
    case ReleaseSent(op, took) => if took then s.(held := s.held - {op}) else s
    case Answer(_, _) => s
    case CaptureSucceeded(_) => s
    case CheckpointSucceeded(_) => s
  }

  function Replay(log: seq<Event>): State {
    if log == [] then EMPTY else Apply(Replay(log[..|log| - 1]), log[|log| - 1])
  }

  /** Some answer since the last acquire says that no boundary is held. */
  predicate Cleared(log: seq<Event>, op: Id) {
    log != [] &&
    var e := log[|log| - 1];
    if e.AcquireSent? && e.op == op then false
    else (e.Answer? && e.op == op && e.fact != Acknowledged) || Cleared(log[..|log| - 1], op)
  }

  /** Why an outcome is unknown: the last call got no answer, or a recovery released the boundary. */
  predicate Unsettled(log: seq<Event>, op: Id, why: UnknownCode) {
    match why
    case BoundaryOutcomeUnknown => log != [] && log[|log| - 1].AcquireSent? && log[|log| - 1].op == op
    case BoundaryReleaseUnknown => log != [] && log[|log| - 1].ReleaseSent? && log[|log| - 1].op == op
    case RecoveredWithoutResult => Cleared(log, op) && Answer(op, Released) in log
  }

  /** The evidence each entry needs. For answers it is the truth of the answer. */
  predicate Allowed(log: seq<Event>, e: Event) {
    var s := Replay(log);
    match e
    case BarrierPut(op, barrier) =>
      if barrier.receipt then s.Has(op, Applying) && op in s.barriers && log != [] && log[|log| - 1] == Answer(op, Acknowledged)
      else !s.Known(op)
    case BarrierDeleted(op) => Cleared(log, op)
    case ReportPut(op, report) =>
      report.operation.id == op &&
      (match report.status
       case Applying => !s.Known(op) && op in s.barriers
       case Accepted =>
         && s.Has(op, Applying) && s.reports[op].operation == report.operation
         && Cleared(log, op) && op !in s.barriers
         && CaptureSucceeded(op) in log && CheckpointSucceeded(op) in log
       case Failed(code) =>
         if code in {SourceUnavailable, RegistrationProvisionFailed, InvalidRequest} then !s.Known(op)
         else
           && s.Has(op, Applying) && s.reports[op].operation == report.operation && Cleared(log, op)
           && Answer(op, if code.HelperRefusal? then Refused else Released) in log
           && (code == CheckpointFailed ==> op !in s.barriers && CaptureSucceeded(op) in log)
       case OutcomeUnknown(why) => s.Has(op, Applying) && s.reports[op].operation == report.operation && Unsettled(log, op, why))
    case Retired(op) => op in s.reports && s.reports[op].status.Terminal() && op !in s.barriers
    case AcquireSent(op, _) => log != [] && log[|log| - 1].ReportPut? && log[|log| - 1].op == op && log[|log| - 1].report.status == Applying
    case ReleaseSent(op, _) => op in s.barriers
    case Answer(op, fact) => fact == Acknowledged <==> op in s.held
    case CaptureSucceeded(op) => op in s.barriers && op in s.held
    case CheckpointSucceeded(op) => op in s.barriers && CaptureSucceeded(op) in log
  }

  predicate Lawful(log: seq<Event>) {
    log == [] || (Lawful(log[..|log| - 1]) && Allowed(log[..|log| - 1], log[|log| - 1]))
  }

  lemma Extend(log: seq<Event>, e: Event)
    requires Lawful(log) && Allowed(log, e)
    ensures Lawful(log + [e]) && Replay(log + [e]) == Apply(Replay(log), e)
    ensures forall op :: Cleared(log + [e], op) <==>
              !(e.AcquireSent? && e.op == op) && ((e.Answer? && e.op == op && e.fact != Acknowledged) || Cleared(log, op))
  {
    assert (log + [e])[..|log|] == log;
  }

  /** Every earlier point of a lawful log, every point at which a crash may stop,
      is the end of a lawful log. */
  lemma {:induction false} LawfulPrefix(log: seq<Event>, n: nat)
    requires Lawful(log) && n <= |log|
    ensures Lawful(log[..n])
    ensures n < |log| ==> Allowed(log[..n], log[n]) && Replay(log[..n + 1]) == Apply(Replay(log[..n]), log[n])
    decreases |log| - n
  {
    if n == |log| {
      assert log[..n] == log;
    } else {
      LawfulPrefix(log, n + 1);
      assert log[..n + 1][..n] == log[..n];
    }
  }

  /** `now` continues `before` with entries about `op` alone. */
  predicate Concerns(before: seq<Event>, now: seq<Event>, op: Id) {
    before <= now && forall i :: |before| <= i < |now| ==> now[i].op == op
  }

  /** `now` continues `before` without dispatching an acquire. */
  predicate NoAcquire(before: seq<Event>, now: seq<Event>) {
    before <= now && forall i :: |before| <= i < |now| ==> !now[i].AcquireSent?
  }

  lemma StillThere(before: seq<Event>, now: seq<Event>, e: Event)
    requires before <= now && e in before
    ensures e in now
  {
    var i :| 0 <= i < |before| && before[i] == e;
    assert now[i] == e;
  }

  lemma ConcernsChain(a: seq<Event>, b: seq<Event>, c: seq<Event>, op: Id)
    requires Concerns(a, b, op) && Concerns(b, c, op)
    ensures Concerns(a, c, op)
    ensures NoAcquire(a, b) && NoAcquire(b, c) ==> NoAcquire(a, c)
  {
  }

  /** What entries about `op` leave alone: every row, tombstone and boundary of
      every other operation. */
  lemma {:induction false} ConcernsOnly(before: seq<Event>, now: seq<Event>, op: Id, other: Id)
    requires Concerns(before, now, op) && other != op
    ensures var s, t := Replay(before), Replay(now);
            && (other in s.reports <==> other in t.reports) && (other in s.reports ==> s.reports[other] == t.reports[other])
            && (other in s.barriers <==> other in t.barriers) && (other in s.barriers ==> s.barriers[other] == t.barriers[other])
            && (other in s.tombstones <==> other in t.tombstones)
            && (other in s.held <==> other in t.held)
    decreases |now|
  {
    if now != before {
      var front := now[..|now| - 1];
      assert Concerns(before, front, op);
      ConcernsOnly(before, front, op, other);
      assert now[|now| - 1].op == op;
      hide Concerns;
    }
  }

  // ----- The helper's boundary is always backed by a durable row -----------------

  /** Everything the induction needs about one operation. */
  ghost predicate Sound(log: seq<Event>, op: Id) {
    var s := Replay(log);
    && (op in s.held ==> op in s.barriers && s.Known(op) && !Cleared(log, op))
    && (Cleared(log, op) ==> op !in s.held)
    && !(op in s.reports && op in s.tombstones)
    && (op in s.reports ==> s.reports[op].operation.id == op)
    && (s.Known(op) && StatusOf(s, op).value.Accepted? ==>
          op !in s.barriers && op !in s.held && CaptureSucceeded(op) in log && CheckpointSucceeded(op) in log)
    && (s.Known(op) && StatusOf(s, op).value.Failed? ==> op !in s.held)
    && (op in s.tombstones ==> s.tombstones[op].status.Terminal() && op !in s.barriers && op !in s.held)
  }

  /** The status the control plane can see or has acknowledged. */
  function StatusOf(s: State, op: Id): Option<Status> {
    if op in s.reports then Some(s.reports[op].status)
    else if op in s.tombstones then Some(s.tombstones[op].status)
    else None
  }

  lemma {:induction false} AlwaysSound(log: seq<Event>, op: Id)
    requires Lawful(log)
    ensures Sound(log, op)
  {
    if log != [] {
      var before, e := log[..|log| - 1], log[|log| - 1];
      AlwaysSound(before, op);
      assert log == before + [e];
      if e.AcquireSent? && e.op == op {
        JustBegun(before, op);
      }
    }
  }

  /** After the durable intent and nothing else, the operation is known, has a
      barrier row, and has no terminal status. */
  lemma JustBegun(log: seq<Event>, op: Id)
    requires Lawful(log) && Allowed(log, AcquireSent(op, true))
    ensures op in Replay(log).barriers && Replay(log).Has(op, Applying) && op !in Replay(log).tombstones
  {
    assert Allowed(log[..|log| - 1], log[|log| - 1]);
  }

  /** Held implies durable: at every point of every run, a boundary the helper
      holds has a barrier row, and no operation reported accepted or failed, or
      retired, still holds one. */
  lemma HeldImpliesDurable(log: seq<Event>, n: nat, op: Id)
    requires Lawful(log) && n <= |log|
    ensures var s := Replay(log[..n]);
            && (op in s.held ==> op in s.barriers)
            && (op in s.held ==> StatusOf(s, op).Some? && !StatusOf(s, op).value.Accepted? && !StatusOf(s, op).value.Failed?)
            && (op in s.tombstones ==> op !in s.held && op !in s.barriers && s.tombstones[op].status.Terminal())
  {
    LawfulPrefix(log, n);
    AlwaysSound(log[..n], op);
  }

  /** Every deletion of a barrier row follows an answer, later than the last
      acquire, that the boundary was refused, released or missing. */
  lemma {:induction false} ClearedMeans(log: seq<Event>, op: Id) returns (k: nat)
    requires Cleared(log, op)
    ensures k < |log| && log[k].Answer? && log[k].op == op && log[k].fact in {Refused, Released, Missing}
    ensures forall j :: k < j < |log| ==> !(log[j].AcquireSent? && log[j].op == op)
  {
    var e := log[|log| - 1];
    if e.Answer? && e.op == op && e.fact != Acknowledged {
      k := |log| - 1;
    } else {
      k := ClearedMeans(log[..|log| - 1], op);
    }
  }

  lemma DeletionJustified(log: seq<Event>, i: nat)
    returns (k: nat)
    requires Lawful(log) && i < |log| && log[i].BarrierDeleted?
    ensures k < i && log[k].Answer? && log[k].op == log[i].op && log[k].fact in {Refused, Released, Missing}
    ensures forall j :: k < j < i ==> !(log[j].AcquireSent? && log[j].op == log[i].op)
    ensures log[i].op !in Replay(log[..i]).held
  {
    LawfulPrefix(log, i);
    AlwaysSound(log[..i], log[i].op);
    k := ClearedMeans(log[..i], log[i].op);
    assert forall j :: 0 <= j < i ==> log[..i][j] == log[j];
  }

  // ----- At most one acquire per operation, ever ------------------------------------

  lemma {:induction false} KnownForever(log: seq<Event>, n: nat, m: nat, op: Id)
    requires Lawful(log) && n <= m <= |log| && Replay(log[..n]).Known(op)
    ensures Replay(log[..m]).Known(op)
    decreases m - n
  {
    if n < m {
      LawfulPrefix(log, n);
      KnownForever(log, n + 1, m, op);
    }
  }

  /** The whole life of an operation, over any number of applies, recoveries,
      retirements and crashes, contains at most one dispatched acquire. */
  lemma AtMostOneAcquire(log: seq<Event>, i: nat, j: nat)
    requires Lawful(log) && i < |log| && j < |log|
    requires log[i].AcquireSent? && log[j].AcquireSent? && log[i].op == log[j].op
    ensures i == j
  {
    if i != j {
      var a, b := if i < j then i else j, if i < j then j else i;
      var op := log[a].op;
      IntentBefore(log, a);
      IntentBefore(log, b);
      hide *;
      assert b - 1 != a;
      KnownForever(log, a, b - 1, op);
    }
  }

  lemma IntentBefore(log: seq<Event>, i: nat)
    requires Lawful(log) && i < |log| && log[i].AcquireSent?
    ensures i > 0 && log[i - 1].ReportPut? && log[i - 1].op == log[i].op && log[i - 1].report.status == Applying
    ensures !Replay(log[..i - 1]).Known(log[i].op) && Replay(log[..i]).Known(log[i].op)
    ensures log[i].op in Replay(log[..i]).barriers
  {
    LawfulPrefix(log, i);
    LawfulPrefix(log, i - 1);
    assert log[..i][|log[..i]| - 1] == log[i - 1];
  }

  // ----- The status only moves forward ------------------------------------------------

  predicate Later(a: Option<Status>, b: Option<Status>) {
    a == b || a.None? || (a == Some(Applying) && b.Some?)
  }

  /** none, then applying, then one terminal status that never changes again and
      that retirement keeps; or none, then failed. */
  lemma {:induction false} StatusMoves(log: seq<Event>, n: nat, m: nat, op: Id)
    requires Lawful(log) && n <= m <= |log|
    ensures Later(StatusOf(Replay(log[..n]), op), StatusOf(Replay(log[..m]), op))
    decreases m - n
  {
    if n < m {
      StatusMoves(log, n + 1, m, op);
      LawfulPrefix(log, n);
      AlwaysSound(log[..n], op);
    }
  }

  /** The first status of an operation is applying, or a failure that needed no helper. */
  lemma FirstStatus(log: seq<Event>, n: nat, op: Id)
    requires Lawful(log) && n < |log|
    requires StatusOf(Replay(log[..n]), op) == None && StatusOf(Replay(log[..n + 1]), op).Some?
    ensures StatusOf(Replay(log[..n + 1]), op).value in
              {Applying, Failed(SourceUnavailable), Failed(RegistrationProvisionFailed), Failed(InvalidRequest)}
  {
    LawfulPrefix(log, n);
    AlwaysSound(log[..n], op);
  }

  /** Accepted means: captured, checkpointed, released, and the barrier row gone,
      then and at every later point. */
  lemma AcceptedMeans(log: seq<Event>, n: nat, op: Id)
    requires Lawful(log) && n <= |log| && StatusOf(Replay(log[..n]), op) == Some(Accepted)
    ensures CaptureSucceeded(op) in log && CheckpointSucceeded(op) in log
    ensures op !in Replay(log).barriers && op !in Replay(log).held
    ensures StatusOf(Replay(log), op) == Some(Accepted)
  {
    StatusMoves(log, n, |log|, op);
    assert log[..|log|] == log;
    AlwaysSound(log, op);
  }

  ghost predicate Explained(log: seq<Event>, op: Id, status: Option<Status>) {
    match status
    case Some(Failed(HelperRefusal(_))) => Answer(op, Refused) in log
    case Some(Failed(TargetChanged)) => Answer(op, Released) in log
    case Some(Failed(CaptureFailed)) => Answer(op, Released) in log
    case Some(Failed(CheckpointFailed)) => Answer(op, Released) in log && CaptureSucceeded(op) in log
    case Some(OutcomeUnknown(RecoveredWithoutResult)) => Answer(op, Released) in log
    case Some(OutcomeUnknown(why)) => Consecutive(log, op, why)
    case _ => true
  }

  /** What a failure and an unknown outcome mean, at the report and ever after: no boundary was acquired, or it was
      released again; the acquire or the release was the last call and had no answer, or a recovery released it. */
  lemma {:induction false} FailureMeans(log: seq<Event>, op: Id)
    requires Lawful(log)
    ensures Explained(log, op, StatusOf(Replay(log), op))
  {
    if log != [] {
      var before, e := log[..|log| - 1], log[|log| - 1];
      FailureMeans(before, op);
      assert log == before + [e];
      if e.ReportPut? && e.op == op {
        ReportExplained(before, op, e.report);
        hide Explained, Allowed;
      } else {
        ExplainedMore(before, e, op, StatusOf(Replay(before), op));
        AlwaysSound(before, op);
        hide Explained, Cleared;
      }
    }
  }

  lemma ExplainedMore(before: seq<Event>, e: Event, op: Id, status: Option<Status>)
    requires Explained(before, op, status)
    ensures Explained(before + [e], op, status)
  {
    forall why | Consecutive(before, op, why) ensures Consecutive(before + [e], op, why) {
      var i :| Told(before, op, why, i);
      assert Told(before + [e], op, why, i);
    }
    hide Consecutive;
  }

  lemma ReportExplained(before: seq<Event>, op: Id, report: Report)
    requires Allowed(before, ReportPut(op, report))
    ensures Explained(before + [ReportPut(op, report)], op, Some(report.status))
  {
    hide Replay, Cleared, Consecutive;
    var log := before + [ReportPut(op, report)];
    if before != [] {
      assert log[|before| - 1] == before[|before| - 1];
      if report.status.OutcomeUnknown? && !report.status.why.RecoveredWithoutResult? {
        assert Told(log, op, report.status.why, |before|);
        ToldOnce(log, op, report.status.why, |before|);
      }
    }
  }

  lemma ToldOnce(log: seq<Event>, op: Id, why: UnknownCode, i: int)
    requires Told(log, op, why, i)
    ensures Consecutive(log, op, why)
  {
  }

  predicate Told(log: seq<Event>, op: Id, why: UnknownCode, i: int) {
    0 < i < |log| && log[i].ReportPut? && log[i].op == op && log[i].report.status == OutcomeUnknown(why)
    && log[i - 1].op == op && (if why.BoundaryOutcomeUnknown? then log[i - 1].AcquireSent? else log[i - 1].ReleaseSent?)
  }

  /** The report of the unknown outcome comes right after the call that it is about. */
  ghost predicate Consecutive(log: seq<Event>, op: Id, why: UnknownCode) {
    exists i :: Told(log, op, why, i)
  }

  /** What a crash right after the dispatch leaves, when the acquire did not reach the helper. */
  function CutAtDispatch(operation: Operation): seq<Event> {
    [BarrierPut(operation.id, Barrier(operation, "i", false)), ReportPut(operation.id, Report(operation, Applying)),
     AcquireSent(operation.id, false)]
  }

  lemma CutIsLawful(operation: Operation)
    ensures Lawful(CutAtDispatch(operation))
    ensures Replay(CutAtDispatch(operation)).Has(operation.id, Applying)
    ensures Replay(CutAtDispatch(operation)).barriers.Keys == {operation.id} && Replay(CutAtDispatch(operation)).held == {}
  {
    var run := CutAtDispatch(operation);
    Extend([], run[0]);
    assert [] + [run[0]] == [run[0]];
    Extend([run[0]], run[1]);
    assert [run[0]] + [run[1]] == [run[0], run[1]];
    Extend([run[0], run[1]], run[2]);
    assert [run[0], run[1]] + [run[2]] == run;
  }

  /** A released or refused operation can be left reported as applying for good: a
      crash right after the dispatch, then a recovery that is told the boundary is
      missing and deletes the row. */
  function StrandingRun(operation: Operation): seq<Event> {
    CutAtDispatch(operation) + [Answer(operation.id, Missing), BarrierDeleted(operation.id)]
  }

  lemma StrandingIsLawful(operation: Operation)
    ensures Lawful(StrandingRun(operation))
    ensures Replay(StrandingRun(operation)).Has(operation.id, Applying)
    ensures Replay(StrandingRun(operation)).barriers == map[]
  {
    var cut, run := CutAtDispatch(operation), StrandingRun(operation);
    CutIsLawful(operation);
    Extend(cut, run[3]);
    Extend(cut + [run[3]], run[4]);
    assert cut + [run[3]] + [run[4]] == run;
  }
}
