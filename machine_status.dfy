/**
 * The server's machine status record and the handlers that change it
 * (backend/src/websocket.py). The record is a single module-level dictionary
 * in the server; here it is the state of one MachineStatusTracker object.
 *
 * Step and Emits say, for one handler call, what the record becomes and what
 * is emitted; Run folds Step over a sequence of calls. The class's methods
 * update the record field by field, as the server does, and are proved to
 * agree with Step and Emits. The lemmas state what holds over every sequence.
 */
module MachineStatus {
  import opened Optional

  datatype Status = Available | Busy

  /** The value stored under 'status': "available" or "busy". */
  function StatusName(s: Status): (r: string)
    ensures r == "available" <==> s == Available
    ensures r == "busy" <==> s == Busy
  {
    match s
    case Available => "available"
    case Busy => "busy"
  }

  /** The record's four fields; `currentOperation` and `startTime` hold Python's None as Option.None. */
  datatype Snapshot = Snapshot(
    status: Status,
    currentOperation: Option<string>,
    startTime: Option<string>,
    connectedClients: int)

  /** The record as the server starts. */
  const Initial := Snapshot(Available, None, None, 0)

  /** Something the server emits. `StatusUpdate` goes to the connecting client, the others to every client. */
  datatype Emitted =
    | StatusUpdate(snapshot: Snapshot)
    | OperationStarted(status: string, operation: Option<string>, message: string)
    | OperationCompleted(status: string, operation: Option<string>, message: string)
    | OperationFailed(status: string, operation: Option<string>, error: string, message: string)

  /** A call of one of the handlers; an operation name may be None, as in the server. */
  datatype Handler =
    | Connect
    | Disconnect
    | Started(name: Option<string>)
    | Completed(name: Option<string>)
    | Failed(name: Option<string>, error: string)

  /** How an f-string renders a name that may be None. */
  function Show(name: Option<string>): (r: string)
    ensures name.Some? ==> r == name.value
    ensures r == "None" <==> name.None? || name == Some("None")
  {
    if name.Some? then name.value else "None"
  }

  /** The record after one handler call. */
  function Step(m: Snapshot, h: Handler): (r: Snapshot)
    ensures r.startTime == m.startTime
    ensures (h.Connect? || h.Disconnect?) ==> r.status == m.status && r.currentOperation == m.currentOperation
    ensures !(h.Connect? || h.Disconnect?) ==> r.connectedClients == m.connectedClients
    ensures (h.Completed? || h.Failed?) ==> r.status == Available && r.currentOperation.None?
  {
    match h
    case Connect => m.(connectedClients := m.connectedClients + 1)
    case Disconnect => m.(connectedClients := m.connectedClients - 1)
    case Started(name) => m.(status := Busy, currentOperation := name)
    case Completed(_) => m.(status := Available, currentOperation := None)
    case Failed(_, _) => m.(status := Available, currentOperation := None)
  }

  /** What one handler call emits, given the record before the call. */
  function Emits(m: Snapshot, h: Handler): (r: seq<Emitted>)
    ensures |r| == if h.Disconnect? then 0 else 1
    ensures h.Connect? ==> r[0].StatusUpdate? && r[0].snapshot.connectedClients == m.connectedClients + 1
  {
    match h
    case Connect => [StatusUpdate(Step(m, h))]
    case Disconnect => []
    case Started(name) =>
      [OperationStarted("busy", name, "Machine is busy preparing: " + Show(name))]
    case Completed(name) =>
      [OperationCompleted("available", name, "Machine has finished preparing: " + Show(name))]
    case Failed(name, error) =>
      [OperationFailed("available", name, error, "Failed to prepare " + Show(name) + ": " + error)]
  }

  /** The record after a sequence of handler calls, in order. */
  function Run(m: Snapshot, hs: seq<Handler>): (r: Snapshot)
    ensures (forall i :: 0 <= i < |hs| ==> hs[i].Connect? || hs[i].Disconnect?) ==>
              r.status == m.status && r.currentOperation == m.currentOperation
    decreases |hs|
  {
    if hs == [] then m else Run(Step(m, hs[0]), hs[1..])
  }

  /** A connect adds one client and a disconnect removes one; nothing else in the record changes. */
  lemma ConnectDisconnectTouchOnlyTheCount(m: Snapshot)
    ensures Step(m, Connect).connectedClients == m.connectedClients + 1
    ensures Step(m, Disconnect).connectedClients == m.connectedClients - 1
    ensures Step(m, Connect).(connectedClients := m.connectedClients) == m
    ensures Step(m, Disconnect).(connectedClients := m.connectedClients) == m
  {
  }

  /** There is no lower bound: a disconnect on a fresh server leaves the count at -1. */
  lemma CountCanGoNegative()
    ensures Step(Initial, Disconnect).connectedClients == -1
  {
  }

  /** How many of the calls are connects, minus how many are disconnects. */
  function NetConnections(hs: seq<Handler>): int
    decreases |hs|
  {
    if hs == [] then 0
    else (match hs[0] case Connect => 1 case Disconnect => -1 case _ => 0) + NetConnections(hs[1..])
  }

  /** The client count is the starting count plus connects minus disconnects. */
  lemma {:induction false} ClientCountIsNetConnections(m: Snapshot, hs: seq<Handler>)
    ensures Run(m, hs).connectedClients == m.connectedClients + NetConnections(hs)
    decreases |hs|
  {
    if hs != [] {
      ClientCountIsNetConnections(Step(m, hs[0]), hs[1..]);
    }
  }

  /** Starting an operation marks the machine busy with that operation and leaves the other fields alone. */
  lemma StartedEffect(m: Snapshot, name: Option<string>)
    ensures var r := Step(m, Started(name));
            r.status == Busy && r.currentOperation == name
            && r.startTime == m.startTime && r.connectedClients == m.connectedClients
  {
  }

  /** Completing and failing have the same effect on the record: available, no current operation. */
  lemma CompletedAndFailedAgree(m: Snapshot, name: Option<string>, error: string)
    ensures Step(m, Completed(name)) == Step(m, Failed(name, error))
    ensures Step(m, Completed(name)).status == Available && Step(m, Completed(name)).currentOperation.None?
    ensures Step(m, Completed(name)).startTime == m.startTime
    ensures Step(m, Completed(name)).connectedClients == m.connectedClients
  {
  }

  /** No handler ever writes `start_time`. */
  lemma {:induction false} StartTimeNeverAssigned(m: Snapshot, hs: seq<Handler>)
    ensures Run(m, hs).startTime == m.startTime
    decreases |hs|
  {
    if hs != [] {
      StartTimeNeverAssigned(Step(m, hs[0]), hs[1..]);
    }
  }

  /** So from the initial record, `start_time` is None in every reachable state, even while busy. */
  lemma StartTimeAlwaysNone(hs: seq<Handler>)
    ensures Run(Initial, hs).startTime.None?
  {
    StartTimeNeverAssigned(Initial, hs);
  }

  /** The record's invariant: busy exactly when there is a current operation. */
  predicate Consistent(m: Snapshot) {
    m.status == Busy <==> m.currentOperation.Some?
  }

  /** Every start in the sequence names its operation. */
  predicate NamedStarts(hs: seq<Handler>) {
    forall i :: 0 <= i < |hs| ==> hs[i].Started? ==> hs[i].name.Some?
  }

  /** The invariant holds after any sequence of handler calls whose starts are named. */
  lemma {:induction false} RunKeepsConsistent(m: Snapshot, hs: seq<Handler>)
    requires Consistent(m) && NamedStarts(hs)
    ensures Consistent(Run(m, hs))
    decreases |hs|
  {
    if hs != [] {
      assert hs[0].Started? ==> hs[0].name.Some?;
      assert NamedStarts(hs[1..]) by {
        forall i | 0 <= i < |hs[1..]| ensures hs[1..][i].Started? ==> hs[1..][i].name.Some? {
          assert hs[1..][i] == hs[i + 1];
        }
      }
      RunKeepsConsistent(Step(m, hs[0]), hs[1..]);
    }
  }

  lemma InitialConsistent()
    ensures Consistent(Initial)
  {
  }

  /** The proviso matters: starting an operation whose name is None gives a busy machine with no current operation. */
  lemma UnnamedStartBreaksInvariant()
    ensures !Consistent(Step(Initial, Started(None)))
  {
  }

  /** Start then complete returns the machine to available with no current operation. */
  lemma StartThenCompleteIsAvailable(m: Snapshot, name: Option<string>, done: Option<string>)
    ensures var r := Run(m, [Started(name), Completed(done)]);
            r.status == Available && r.currentOperation.None? && r.connectedClients == m.connectedClients
  {
    var hs := [Started(name), Completed(done)];
    assert hs[1..] == [Completed(done)];
    assert Run(m, hs) == Run(Step(m, Started(name)), [Completed(done)]);
  }

  /**
   * Each operation notice carries as `status` the record's new status and as
   * `operation` the name passed in.
   */
  lemma NoticesCarryNewStatus(m: Snapshot, h: Handler)
    requires h.Started? || h.Completed? || h.Failed?
    ensures |Emits(m, h)| == 1
    ensures var e := Emits(m, h)[0];
            && !e.StatusUpdate?
            && e.status == StatusName(Step(m, h).status)
            && e.operation == h.name
  {
  }

  /** A connecting client is sent the whole record, already counting itself. */
  lemma ConnectSendsUpdatedRecord(m: Snapshot)
    ensures Emits(m, Connect) == [StatusUpdate(Step(m, Connect))]
    ensures Emits(m, Connect)[0].snapshot.connectedClients == m.connectedClients + 1
  {
  }

  /**
   * The module-level record of the server, with the log of what its handlers
   * emit (`emitted`).
   */
  class MachineStatusTracker {
    var status: Status
    var currentOperation: Option<string>
    var startTime: Option<string>
    var connectedClients: int
    var emitted: seq<Emitted>

    /** The record as a value. */
    function Record(): Snapshot
      reads this
    {
      Snapshot(status, currentOperation, startTime, connectedClients)
    }

    constructor ()
      ensures Record() == Initial && emitted == []
    {
      status := Available;
      currentOperation := None;
      startTime := None;
      connectedClients := 0;
      emitted := [];
    }

    /** `get_machine_status()`. */
    method GetMachineStatus() returns (r: Snapshot)
      ensures r.status == status && r.currentOperation == currentOperation
      ensures r.startTime == startTime && r.connectedClients == connectedClients
    {
      r := Record();
    }

    /** `handle_connect()`: count the client, then send it the record. */
    method HandleConnect()
      modifies this
      ensures Record() == Step(old(Record()), Connect)
      ensures emitted == old(emitted) + Emits(old(Record()), Connect)
    {
      connectedClients := connectedClients + 1;
      emitted := emitted + [StatusUpdate(Record())];
    }

    /** `handle_disconnect()`: uncount the client; nothing is emitted. */
    method HandleDisconnect()
      modifies this
      ensures Record() == Step(old(Record()), Disconnect)
      ensures emitted == old(emitted)
    {
      connectedClients := connectedClients - 1;
    }

    /** `notify_operation_started(name)`. */
    method NotifyOperationStarted(name: Option<string>)
      modifies this
      ensures Record() == Step(old(Record()), Started(name))
      ensures emitted == old(emitted) + Emits(old(Record()), Started(name))
    {
      status := Busy;
      currentOperation := name;
      emitted := emitted + [OperationStarted("busy", name, "Machine is busy preparing: " + Show(name))];
    }

    /** `notify_operation_completed(name)`. */
    method NotifyOperationCompleted(name: Option<string>)
      modifies this
      ensures Record() == Step(old(Record()), Completed(name))
      ensures emitted == old(emitted) + Emits(old(Record()), Completed(name))
    {
      status := Available;
      currentOperation := None;
      emitted := emitted + [OperationCompleted("available", name, "Machine has finished preparing: " + Show(name))];
    }

    /** `notify_operation_failed(name, error)`. */
    method NotifyOperationFailed(name: Option<string>, error: string)
      modifies this
      ensures Record() == Step(old(Record()), Failed(name, error))
      ensures emitted == old(emitted) + Emits(old(Record()), Failed(name, error))
    {
      status := Available;
      currentOperation := None;
      emitted := emitted + [OperationFailed("available", name, error, "Failed to prepare " + Show(name) + ": " + error)];
    }
  }
}
