/**
 * The drink-preparation endpoint `POST /prepCocktail/<drink_id>`
 * (backend/src/app.py, `prepare_drink`). It looks the drink up, announces the
 * start of the operation, runs the dispenser, and announces completion or
 * failure. The database lookup and the dispenser call (`gpio.spill_drink`) are
 * inputs: what they return, or that they raise.
 */
module DrinkRoute {
  import opened Optional
  import opened MachineStatus

  /** A row of the drink lookup. The route reads only the `name` column, which may be NULL. */
  datatype Row = Row(name: Option<string>)

  /** The outcome of `get_single_drink_data`: it raised, or it returned rows. */
  datatype Lookup = LookupRaised | Rows(rows: seq<Row>)

  /** The outcome of `gpio.spill_drink`: a (code, message) pair, or an exception with its text. */
  datatype Spill = Returned(code: int, message: string) | SpillRaised(error: string)

  /** The JSON body of the response. */
  datatype Body =
    | InternalError                                     // {"error": "Internal server error"}
    | PrepareFailed(message: string)                    // {"status": "error", "message": ...}
    | Prepared(message: string, drink: Option<string>)  // {"status": "success", "message": ..., "drink": ...}

  datatype Response = Response(httpStatus: int, body: Body)

  /** The effectful calls the route makes, in the order it makes them. */
  datatype Call = Notify(handler: Handler) | SpillDrink

  datatype Outcome = Outcome(response: Response, calls: seq<Call>)

  /** The lookup yields no first row, so `drink_data[0]` raises. */
  predicate NoFirstRow(lookup: Lookup) {
    lookup.LookupRaised? || |lookup.rows| == 0
  }

  /** The `status` field of the JSON body, when it has one. */
  function BodyStatus(b: Body): Option<string> {
    match b
    case InternalError => None
    case PrepareFailed(_) => Some("error")
    case Prepared(_, _) => Some("success")
  }

  /** What the route returns and which calls it makes, for each outcome of the lookup and the dispenser. */
  function Route(lookup: Lookup, spill: Spill): (o: Outcome)
    ensures o.response.httpStatus == 200 || o.response.httpStatus == 500
    ensures NoFirstRow(lookup) <==> o.calls == []
    ensures !NoFirstRow(lookup) ==> |o.calls| == 3 && o.calls[1] == SpillDrink
  {
    if NoFirstRow(lookup) then
      Outcome(Response(500, InternalError), [])
    else
      var name := lookup.rows[0].name;
      match spill
      case Returned(code, message) =>
        if code == 500 then
          Outcome(Response(500, PrepareFailed("Failed to prepare " + Show(name) + ": " + message)),
                  [Notify(Started(name)), SpillDrink, Notify(Failed(name, message))])
        else
          Outcome(Response(200, Prepared("Successfully prepared " + Show(name), name)),
                  [Notify(Started(name)), SpillDrink, Notify(Completed(name))])
      case SpillRaised(error) =>
        Outcome(Response(500, PrepareFailed("Failed to prepare " + Show(name) + ": " + error)),
                [Notify(Started(name)), SpillDrink, Notify(Failed(name, error))])
  }

  /** The handler calls among the route's calls, in order. */
  function Notifications(calls: seq<Call>): (hs: seq<Handler>)
    ensures |hs| <= |calls|
    ensures forall h :: h in hs <==> Notify(h) in calls
    decreases |calls|
  {
    if calls == [] then []
    else (if calls[0].Notify? then [calls[0].handler] else []) + Notifications(calls[1..])
  }

  /** Everything emitted by a sequence of handler calls, from record `m`. */
  function EmitsAlong(m: Snapshot, hs: seq<Handler>): seq<Emitted>
    decreases |hs|
  {
    if hs == [] then [] else Emits(m, hs[0]) + EmitsAlong(Step(m, hs[0]), hs[1..])
  }

  /** Without a first row the route answers 500 "Internal server error" and notifies nobody. */
  lemma NoRowNoNotification(lookup: Lookup, spill: Spill)
    requires NoFirstRow(lookup)
    ensures Route(lookup, spill).response == Response(500, InternalError)
    ensures Route(lookup, spill).calls == []
  {
  }

  /**
   * With a first row, the start is announced with that row's name, then the
   * dispenser runs, then exactly one closing notice follows.
   */
  lemma StartAnnouncedBeforeDispensing(lookup: Lookup, spill: Spill)
    requires !NoFirstRow(lookup)
    ensures var calls := Route(lookup, spill).calls;
            && |calls| == 3
            && calls[0] == Notify(Started(lookup.rows[0].name))
            && calls[1] == SpillDrink
            && calls[2].Notify? && (calls[2].handler.Completed? || calls[2].handler.Failed?)
            && calls[2].handler.name == lookup.rows[0].name
  {
  }

  /** Code 500 from the dispenser: the failure is announced (not completion) and the route answers 500 "error". */
  lemma Code500IsFailure(lookup: Lookup, message: string)
    requires !NoFirstRow(lookup)
    ensures var o := Route(lookup, Returned(500, message));
            var name := lookup.rows[0].name;
            && o.calls[2] == Notify(Failed(name, message))
            && o.response.httpStatus == 500
            && BodyStatus(o.response.body) == Some("error")
  {
  }

  /** Any other code: completion is announced and the route answers 200 "success" with the drink's name. */
  lemma OtherCodeIsSuccess(lookup: Lookup, code: int, message: string)
    requires !NoFirstRow(lookup) && code != 500
    ensures var o := Route(lookup, Returned(code, message));
            var name := lookup.rows[0].name;
            && o.calls[2] == Notify(Completed(name))
            && o.response.httpStatus == 200
            && BodyStatus(o.response.body) == Some("success")
            && o.response.body.drink == name
  {
  }

  /** The dispenser raising: the failure is announced with the exception's text and the route answers 500. */
  lemma RaisedIsFailure(lookup: Lookup, error: string)
    requires !NoFirstRow(lookup)
    ensures var o := Route(lookup, SpillRaised(error));
            && o.calls[2] == Notify(Failed(lookup.rows[0].name, error))
            && o.response.httpStatus == 500
            && BodyStatus(o.response.body) == Some("error")
  {
  }

  /** The answer is 200 exactly when completion was announced. */
  lemma SuccessIffCompleted(lookup: Lookup, spill: Spill)
    ensures var o := Route(lookup, spill);
            o.response.httpStatus == 200 <==> exists i :: 0 <= i < |o.calls| && o.calls[i].Notify? && o.calls[i].handler.Completed?
  {
    var o := Route(lookup, spill);
    if !NoFirstRow(lookup) {
      if o.response.httpStatus == 200 {
        assert o.calls[2].Notify? && o.calls[2].handler.Completed?;
      } else {
        assert !o.calls[0].handler.Completed? && !o.calls[2].handler.Completed?;
      }
    }
  }

  lemma NotificationsAroundSpill(first: Handler, second: Handler)
    ensures Notifications([Notify(first), SpillDrink, Notify(second)]) == [first, second]
  {
  }

  lemma NotificationsOfRoute(lookup: Lookup, spill: Spill)
    ensures var o := Route(lookup, spill);
            NoFirstRow(lookup) ==> Notifications(o.calls) == []
    ensures var o := Route(lookup, spill);
            !NoFirstRow(lookup) ==> Notifications(o.calls) == [o.calls[0].handler, o.calls[2].handler]
  {
    var calls := Route(lookup, spill).calls;
    if !NoFirstRow(lookup) {
      NotificationsAroundSpill(calls[0].handler, calls[2].handler);
    }
  }

  /**
   * The machine is busy while the dispenser runs, and once the route has
   * announced a start it leaves the machine available with no current
   * operation, whatever the dispenser did. Without a first row the record is
   * untouched.
   */
  lemma RouteLeavesMachineAvailable(m: Snapshot, lookup: Lookup, spill: Spill)
    ensures var o := Route(lookup, spill);
            var r := Run(m, Notifications(o.calls));
            && (NoFirstRow(lookup) ==> r == m)
            && (!NoFirstRow(lookup) ==>
                  && Step(m, o.calls[0].handler).status == Busy
                  && r.status == Available && r.currentOperation.None?
                  && r.connectedClients == m.connectedClients && r.startTime == m.startTime)
  {
    var o := Route(lookup, spill);
    NotificationsOfRoute(lookup, spill);
    if !NoFirstRow(lookup) {
      TwoCalls(m, o.calls[0].handler, o.calls[2].handler);
    }
  }

  lemma TwoCalls(m: Snapshot, first: Handler, second: Handler)
    ensures Run(m, [first, second]) == Step(Step(m, first), second)
    ensures EmitsAlong(m, [first, second]) == Emits(m, first) + Emits(Step(m, first), second)
  {
    assert [first, second][1..] == [second];
    assert Run(Step(m, first), [second]) == Step(Step(m, first), second);
    assert EmitsAlong(Step(m, first), [second]) == Emits(Step(m, first), second);
  }

  /**
   * `prepare_drink(drink_id)`, run against the server's status record. The
   * notify calls themselves are taken not to raise.
   */
  method PrepareDrink(tracker: MachineStatusTracker, lookup: Lookup, spill: Spill)
      returns (response: Response, calls: seq<Call>)
    modifies tracker
    ensures Outcome(response, calls) == Route(lookup, spill)
    ensures tracker.Record() == Run(old(tracker.Record()), Notifications(calls))
    ensures tracker.emitted == old(tracker.emitted) + EmitsAlong(old(tracker.Record()), Notifications(calls))
  {
    NotificationsOfRoute(lookup, spill);
    if NoFirstRow(lookup) {
      return Response(500, InternalError), [];
    }
    var name := lookup.rows[0].name;
    ghost var m0 := tracker.Record();
    tracker.NotifyOperationStarted(name);
    calls := [Notify(Started(name)), SpillDrink];
    var closing: Handler;
    match spill {
      case Returned(code, message) =>
        if code == 500 {
          tracker.NotifyOperationFailed(name, message);
          closing := Failed(name, message);
          response := Response(500, PrepareFailed("Failed to prepare " + Show(name) + ": " + message));
        } else {
          tracker.NotifyOperationCompleted(name);
          closing := Completed(name);
          response := Response(200, Prepared("Successfully prepared " + Show(name), name));
        }
      case SpillRaised(error) =>
        tracker.NotifyOperationFailed(name, error);
        closing := Failed(name, error);
        response := Response(500, PrepareFailed("Failed to prepare " + Show(name) + ": " + error));
    }
    calls := calls + [Notify(closing)];
    TwoCalls(m0, Started(name), closing);
  }
}
