# Velvet-Pour: a Dafny model of the real-time order and status core

Velvet-Pour drives a cocktail machine. The server keeps one record of the
machine's state and pushes changes to every client over Socket.IO. The
mobile client lists cocktails and checks that their bottles are loaded. It
has an order screen whose order call is only simulated by a timer. It also
has an event hub for the machine's progress, which no screen in these files
subscribes to. This project models the parts of that system that hold real
logic:

- **Client event hub.** `SocketIOService` in `frontend/services/websocket.ts`:
  - a listener registry from event names to sets of callbacks;
  - fan-out dispatch that isolates failing callbacks;
  - the optional socket handle that `connect` replaces and `disconnect` clears;
  - the `emit` guard;
  - the option defaults;
  - the ws-to-http rewrite of `prepareDrink`;
  - the `isConnected`/`error` state of the `useSocketIO` hook.

  Modules `ListenerRegistry`, `SocketOptions` and `SocketService`.
- **Machine status record.** The server-side `machine_status` record and its
  five handlers in `backend/src/websocket.py`, including what each one emits
  (module `MachineStatus`).
- **Drink-preparation route.** `prepare_drink` in `backend/src/app.py`
  (module `DrinkRoute`). It announces the start, runs the dispenser and
  announces the outcome. The database lookup and the dispenser are inputs.
- **Availability screen.** `checkAvailability`, `makeCocktail`, the make
  button and the ingredient labels in `frontend/app/handlers.tsx` (module
  `Handlers`).
- **Menu screen.** The search filter, the ingredient preview and the
  `placeOrder` flow in `frontend/app/cocktails.tsx` (module `Menu`).

Shared pieces:

- `Optional` holds the `Option` type.
- `Text` renders decimal numbers, folds ASCII case and searches substrings.
- `Types` holds the catalogue records of `frontend/types/types.ts` and the
  `find` lookup.

Three facts about the code shape the model:

- **Duplicate subscriptions.** The registry keeps each event's callbacks in
  a JavaScript `Set`. Subscribing the same callback twice leaves one
  registry entry, and one unsubscribe removes it from the registry. While a
  socket exists, each subscription also attaches the callback to the socket,
  and the unsubscribe handle detaches only one of the two attachments. The
  callback is then still called on every arrival of the event.
- **`start_time`.** No handler ever assigns `start_time`, so it stays
  `None` in every reachable record.
- **Client-side state.** The client keeps no status model of its own. It
  places orders without checking whether the machine is busy.

Methods on the classes tie each new state to pure functions: `Register`,
`Unregister`, `Deliveries`, `Step`, `Emits` and `Route`. The lemmas state
what holds for every input of those functions.

## Model

| member | source | states |
|---|---|---|
| Text.IntToDecimal | frontend/app/handlers.tsx:79 | the rendering of a number is never empty, is all digits for a non-negative number, and starts with "-" exactly for a negative one |
| Text.ParseNatToDecimal | frontend/app/cocktails.tsx:112 | the decimal rendering of a count can be read back: parsing it gives the number |
| Text.IncludesIffOccurs | frontend/app/cocktails.tsx:50 | `includes` holds exactly when the needle occurs at some position of the haystack |
| Text.Lower | frontend/app/cocktails.tsx:50 | lower-casing keeps the length and folds each character on its own |
| Text.Includes | frontend/app/cocktails.tsx:50 | the scan succeeds only when the needle is no longer than the haystack, and always for the empty needle |
| Types.FindBottle | frontend/app/handlers.tsx:34 | `find` returns a bottle exactly when one carries the id, and the bottle it returns carries that id |
| Types.FindBottleIsFirst | frontend/app/handlers.tsx:34 | the bottle found is the earliest one in list order with that id |
| Handlers.IngredientReady | frontend/app/handlers.tsx:34-35 | an ingredient passes only when some bottle carries its id |
| Handlers.AllReady | frontend/app/handlers.tsx:33-36 | `every` holds exactly when each ingredient passes the per-ingredient test |
| Handlers.CheckAvailability | frontend/app/handlers.tsx:32-37 | an available cocktail has every ingredient passing; an unavailable one has some ingredient failing |
| Handlers.IngredientReadyIffLoaded | frontend/app/handlers.tsx:34-35 | an ingredient passes exactly when the first bottle with its id exists and has a non-null handler |
| Handlers.CheckAvailabilityIffAllLoaded | frontend/app/handlers.tsx:32-37 | a cocktail is available exactly when every ingredient's bottle is loaded in a handler |
| Handlers.EmptyRecipeAvailable | frontend/app/handlers.tsx:33 | a cocktail without ingredients is available |
| Handlers.MissingBottleUnavailable | frontend/app/handlers.tsx:34-35 | an ingredient with no matching bottle makes the cocktail unavailable |
| Handlers.FirstBottleDecides | frontend/app/handlers.tsx:34 | when two bottles share an id, only the first one in the list decides availability |
| Handlers.MakeCocktail | frontend/app/handlers.tsx:39-47 | an error notice "Missing required bottles in handlers" exactly when the cocktail is unavailable; otherwise the notice "Making <name>..." |
| Handlers.MakeButtonFor | frontend/app/handlers.tsx:85-96 | the button is disabled exactly when the cocktail is unavailable; its caption is "Missing Bottles" when disabled and "Make Cocktail" when enabled |
| Handlers.ButtonMatchesAction | frontend/app/handlers.tsx:85-96 | the button is disabled exactly when pressing it would give the error notice |
| Handlers.HandlerSuffix | frontend/app/handlers.tsx:78-80 | the suffix is " (Not loaded)" exactly when there is no bottle or its handler id is falsy (null or 0) |
| Handlers.HandlerSuffixShowsHandler | frontend/app/handlers.tsx:79 | for a truthy handler id the suffix is " (Handler " then the id in decimal, with a leading "-" when negative, then ")"; the digits parse back to the id |
| Handlers.IngredientLine | frontend/app/handlers.tsx:76-80 | an ingredient line starts with the bullet as the source file holds it ("â€¢ ", the characters U+00E2 U+20AC U+00A2 and a space) and ends with the handler suffix |
| Handlers.HandlerSuffixIdentifiesHandler | frontend/app/handlers.tsx:78-80 | two loaded bottles with the same suffix have the same handler id |
| Handlers.HandlerZeroCountsButShowsNotLoaded | frontend/app/handlers.tsx:78-80 | the first bottle with the ingredient's id sits in handler 0: it counts as loaded for availability yet is labelled " (Not loaded)" |
| Handlers.SuffixAgreesWithReadiness | frontend/app/handlers.tsx:78-80 | apart from handler 0, the label says "Not loaded" exactly when the ingredient is not ready |
| Menu.Matches | frontend/app/cocktails.tsx:50 | a query longer than the name never matches, and the empty query matches every cocktail |
| Menu.FilterCocktails | frontend/app/cocktails.tsx:49-51 | the filtered list is no longer than the list and every cocktail in it matches the query |
| Menu.FilterKeepsExactlyMatches | frontend/app/cocktails.tsx:49-51 | a cocktail is in the filtered list exactly when it is in the list and its lower-cased name contains the lower-cased query |
| Menu.FilterKeepsEveryCopy | frontend/app/cocktails.tsx:49-51 | a matching cocktail keeps every one of its copies, and a non-matching one keeps none |
| Menu.FilterIsSubsequence | frontend/app/cocktails.tsx:49-51 | the filtered list is a subsequence of the list: order kept, nothing added |
| Menu.EmptyQueryKeepsAll | frontend/app/cocktails.tsx:49-51 | the empty query keeps every cocktail |
| Menu.FilterIdempotent | frontend/app/cocktails.tsx:49-51 | filtering a filtered list with the same query changes nothing |
| Menu.BottleName | frontend/app/cocktails.tsx:104-107 | `bottle?.name` renders nothing when no bottle carries the id, and otherwise the name of the first bottle that carries it |
| Menu.IngredientPreview | frontend/app/cocktails.tsx:103-113 | the preview shows min(3, n) names, the first bottle name for each ingredient in order; ", " follows item idx exactly when idx < min(2, n-1); "+k more" with k = n-3 appears exactly when n > 3 |
| Menu.CommaExactlyBetweenShownNames | frontend/app/cocktails.tsx:107 | every shown name except the last is followed by ", ", and the last is not |
| Menu.PreviewAccountsForAll | frontend/app/cocktails.tsx:111-112 | the number of names shown plus the count in "+k more" is the number of ingredients |
| Menu.OrderScreen.constructor | frontend/app/cocktails.tsx:24-27 | no selection, modal hidden, empty instructions, no order in progress |
| Menu.OrderScreen.OpenOrderModal | frontend/app/cocktails.tsx:53-57 | selects the cocktail, clears the special instructions, shows the modal |
| Menu.OrderScreen.CloseOrderModal | frontend/app/cocktails.tsx:172-178 | hides the modal and changes nothing else |
| Menu.OrderScreen.OrderButtonEnabled | frontend/app/cocktails.tsx:218 | the Place Order button is disabled while an order is in progress |
| Menu.OrderScreen.PlaceOrder | frontend/app/cocktails.tsx:59-77 | with no selection nothing changes; otherwise the in-progress flag is raised and then lowered on both outcomes, a success or failure notice is raised, and the modal is hidden on success only |
| ListenerRegistry.Subscribers | frontend/services/websocket.ts:132 | the callbacks looked up for an event are those registered for it, none when the event is absent, and without duplicates in a valid registry |
| ListenerRegistry.SetAdd | frontend/services/websocket.ts:115 | adding to a duplicate-free set keeps it duplicate-free |
| ListenerRegistry.SetDelete | frontend/services/websocket.ts:124 | deleting keeps exactly the other members and never grows the set |
| ListenerRegistry.SetDeleteKeepsOrder | frontend/services/websocket.ts:124 | deleting from a duplicate-free set removes that one entry and keeps the others in their order |
| ListenerRegistry.Register | frontend/services/websocket.ts:109-115 | the event names become the old names plus the event; the registry's sets stay duplicate-free |
| ListenerRegistry.Unregister | frontend/services/websocket.ts:123-128 | the unsubscribe closure keeps the set of event names unchanged |
| ListenerRegistry.UnregisterPreservesValid | frontend/services/websocket.ts:123-128 | unsubscribing keeps every set duplicate-free |
| ListenerRegistry.RegisterEffect | frontend/services/websocket.ts:110-115 | `on` appends the callback to the event's set unless it is already there; every other event keeps its callbacks |
| ListenerRegistry.RegisterTwiceIsOnce | frontend/services/websocket.ts:115 | subscribing the same callback twice is the same as subscribing it once |
| ListenerRegistry.UnsubscribeUndoesSubscribe | frontend/services/websocket.ts:109-128 | subscribe then unsubscribe gives back the event's set as it was |
| ListenerRegistry.OneUnsubscribeAfterDoubleSubscribe | frontend/services/websocket.ts:115-124 | after two subscriptions of one callback, one unsubscribe removes it from the registry (the socket side is DoubleSubscribeOneUnsubscribeStillCalled) |
| ListenerRegistry.UnregisterEffect | frontend/services/websocket.ts:123-128 | unsubscribing removes only that callback from only that event and keeps the others; a callback that is not there leaves the set as it was, so a second call changes nothing |
| ListenerRegistry.UnregisterKeepsOrder | frontend/services/websocket.ts:123-142 | after unsubscribing, the event's set and the dispatch order are the old ones with that entry removed |
| ListenerRegistry.Deliveries | frontend/services/websocket.ts:131-142 | dispatch calls each callback of the event in set order with the data, and records which ones threw |
| ListenerRegistry.DispatchCallsEachOnce | frontend/services/websocket.ts:131-142 | each subscribed callback is called exactly once per dispatch, and no other callback is called |
| ListenerRegistry.ThrowingDoesNotStopDispatch | frontend/services/websocket.ts:134-140 | which callbacks are reached, and in what order, does not depend on which of them throw |
| ListenerRegistry.UnsubscribedNeverCalled | frontend/services/websocket.ts:123-142 | an unsubscribed callback is not called by later dispatches of that event |
| ListenerRegistry.UnknownEventDispatchesNothing | frontend/services/websocket.ts:132-133 | an event nobody subscribed to calls no callback |
| SocketOptions.OrElse | frontend/services/websocket.ts:34-35 | the fallback operator gives x when x is truthy and the fallback otherwise |
| SocketOptions.ResolveOptions | frontend/services/websocket.ts:33-39 | falsy attempts become 5 and falsy delay becomes 3000; `autoConnect` is true unless it is explicitly false; headers and query pass through |
| SocketOptions.EmptyOptionsDefaults | frontend/services/websocket.ts:34-36 | with nothing set, the client gets 5 attempts, 3000 ms and autoConnect |
| SocketOptions.ZeroMeansDefault | frontend/services/websocket.ts:34-35 | an explicit 0 also becomes the default |
| SocketOptions.HttpBase | frontend/services/websocket.ts:150 | a leading ws:// or wss:// becomes http://; any other URL is kept as it is |
| SocketOptions.HttpBaseKeepsRest | frontend/services/websocket.ts:150 | the rewrite replaces only the scheme and keeps host and path |
| SocketOptions.PrepCocktailUrl | frontend/services/websocket.ts:150 | the URL is the rewritten base followed by /prepCocktail/ and the id |
| SocketOptions.PrepCocktailUrlCarriesId | frontend/services/websocket.ts:150 | the id can be parsed back from the URL's tail, so different drinks get different URLs |
| SocketService.Attach | frontend/services/websocket.ts:118-120 | attaching a callback to the socket adds it to the end of that event's attachments and leaves the other events as they were |
| SocketService.Attached | frontend/services/websocket.ts:118-120 | the callbacks attached to a socket for an event are exactly those of its attachments for that event |
| SocketService.DetachRemovesFirstMatch | frontend/services/websocket.ts:126 | `socket.off` removes the first matching attachment and keeps every other one in its place |
| SocketService.Detach | frontend/services/websocket.ts:125-127 | `socket.off` removes one matching attachment when there is one, and otherwise changes nothing; the one removed is the first match (DetachRemovesFirstMatch) |
| SocketService.UntilThrow | frontend/services/websocket.ts:118-120 | the attached callbacks run in order with the data until the first one that throws, which is the last one run |
| SocketService.Arrival | frontend/services/websocket.ts:71-98 | an arriving event calls at most the registry's callbacks and the attached ones, all with the event's data; an event outside the six relayed names reaches attached callbacks only |
| SocketService.SocketIOService.constructor | frontend/services/websocket.ts:19-25 | keeps the URL apart from the other options; no socket, no listeners |
| SocketService.SocketIOService.Disconnect | frontend/services/websocket.ts:64-69 | always leaves no socket, closing the one there was; a second call closes nothing |
| SocketService.SocketIOService.Connect | frontend/services/websocket.ts:27-62 | closes any existing socket first, then opens a new one with the resolved options; the promise resolves or rejects by the handshake |
| SocketService.SocketIOService.TransportChanged | frontend/services/websocket.ts:101 | the library flipping the transport changes only the `connected` flag of the current socket, which is what `emit` reads |
| SocketService.SocketIOService.CanEmit | frontend/services/websocket.ts:101 | `emit` is allowed only when a socket exists |
| SocketService.SocketIOService.Emit | frontend/services/websocket.ts:100-107 | a message goes out only when a socket exists and is connected; otherwise nothing is sent |
| SocketService.SocketIOService.PingServer | frontend/services/websocket.ts:145-147 | emits "ping_server" with the time, under the same guard |
| SocketService.SocketIOService.On | frontend/services/websocket.ts:109-129 | the registry becomes Register of the old one; a live socket also gets the callback attached; the handle names the event and callback |
| SocketService.SocketIOService.Unsubscribe | frontend/services/websocket.ts:123-128 | the registry becomes Unregister of the old one, and the current socket, if any, detaches the callback |
| SocketService.SocketIOService.NotifyListeners | frontend/services/websocket.ts:131-142 | the loop's log is exactly the dispatch Deliveries describes |
| SocketService.SocketIOService.Receive | frontend/services/websocket.ts:71-98 | an arriving event reaches the registry only for the six relayed names, then the callbacks attached to the socket |
| SocketService.SocketIOService.PrepareDrink | frontend/services/websocket.ts:149-153 | a POST to the drink's preparation URL |
| SocketService.AsError | frontend/services/websocket.ts:169 | an Error is kept; any other thrown value becomes Error("Connection failed") |
| SocketService.SocketHook.constructor | frontend/services/websocket.ts:157-160 | not connected, no error, a fresh service for the URL and options |
| SocketService.SocketHook.Connect | frontend/services/websocket.ts:162-171 | success marks connected and clears the error; rejection marks disconnected and stores the error |
| SocketService.SocketHook.Disconnect | frontend/services/websocket.ts:173-176 | disconnects the service and marks the hook disconnected; the error is kept |
| SocketService.SocketHook.Mount | frontend/services/websocket.ts:178-190 | registers the connect, disconnect and connect_error listeners in the registry, then connects: on success the hook is connected with no error, on refusal or a throwing constructor it is disconnected with the error stored, and while pending it is unchanged; the old socket is closed, nothing is sent, and unless the constructor throws, a new socket opens with the next identity, the resolved options and no attached callbacks |
| SocketService.SocketHook.Unmount | frontend/services/websocket.ts:192-194 | the hook ends disconnected with its error kept, the service has no socket, the socket it had is closed, and the registry, the sent messages and the socket count are unchanged, so the subscriptions stay |
| SocketService.SocketHook.HandleConnect | frontend/services/websocket.ts:180 | sets connected and keeps the error |
| SocketService.SocketHook.HandleDisconnect | frontend/services/websocket.ts:181 | clears connected and keeps the error |
| SocketService.SocketHook.HandleError | frontend/services/websocket.ts:182 | stores the error and keeps the connected flag |
| SocketService.StatusEventsMissUnattachedSocket | frontend/services/websocket.ts:184-186 | a connect, disconnect or connect_error event on a socket with no attachments reaches no callback |
| SocketService.SubscribedWithSocketCalledTwice | frontend/services/websocket.ts:115-120 | a callback subscribed to a relayed event while a socket exists is called at least twice per relayed event when no callback throws |
| SocketService.DetachFirstOfTwo | frontend/services/websocket.ts:125-127 | with two fresh copies of an attachment on the socket, `off` removes the first and one copy stays |
| SocketService.DoubleSubscribeOneUnsubscribeStillCalled | frontend/services/websocket.ts:109-128 | after two subscriptions of one callback while a socket exists and one unsubscribe, each relayed arrival still calls it exactly once, through the surviving attachment |
| SocketService.SubscribedWithoutAttachmentCalledOnce | frontend/services/websocket.ts:131-142 | a subscribed callback not attached to the socket is called exactly once per relayed event |
| MachineStatus.StatusName | backend/src/websocket.py:16 | the status is stored as "available" or "busy" |
| MachineStatus.Show | backend/src/websocket.py:55 | an f-string shows a present name as itself and a missing one as "None", so a missing name and a drink named "None" read the same |
| MachineStatus.Step | backend/src/websocket.py:31-81 | no handler touches start_time; connect and disconnect keep the status and operation; the others keep the count; completed and failed leave the machine available with no operation |
| MachineStatus.Emits | backend/src/websocket.py:31-81 | disconnect emits nothing and every other handler emits one message; connect sends the record already counting the new client |
| MachineStatus.Run | backend/src/websocket.py:31-44 | a run of connects and disconnects leaves the status and the current operation as they were |
| MachineStatus.ConnectDisconnectTouchOnlyTheCount | backend/src/websocket.py:32-44 | connect adds 1 and disconnect subtracts 1 from the client count; nothing else changes |
| MachineStatus.CountCanGoNegative | backend/src/websocket.py:43 | the count has no lower bound: a disconnect on a fresh server gives -1 |
| MachineStatus.ClientCountIsNetConnections | backend/src/websocket.py:31-44 | the count equals the start count plus connects minus disconnects |
| MachineStatus.StartedEffect | backend/src/websocket.py:46-49 | started sets busy and the operation name, and leaves start_time and the count alone |
| MachineStatus.CompletedAndFailedAgree | backend/src/websocket.py:58-73 | completed and failed have the same effect on the record: available, no current operation |
| MachineStatus.StartTimeNeverAssigned | backend/src/websocket.py:15-81 | no handler sequence changes start_time |
| MachineStatus.StartTimeAlwaysNone | backend/src/websocket.py:15-81 | from the initial record, start_time is None in every reachable state |
| MachineStatus.RunKeepsConsistent | backend/src/websocket.py:46-73 | busy exactly when there is a current operation, after any sequence whose starts carry a name |
| MachineStatus.InitialConsistent | backend/src/websocket.py:15-20 | the initial record satisfies that invariant |
| MachineStatus.UnnamedStartBreaksInvariant | backend/src/websocket.py:46-49 | a start with name None gives busy with no current operation |
| MachineStatus.StartThenCompleteIsAvailable | backend/src/websocket.py:46-68 | start then complete leaves the machine available with no current operation and the same count |
| MachineStatus.NoticesCarryNewStatus | backend/src/websocket.py:52-80 | each operation notice carries the record's new status and the name passed in |
| MachineStatus.ConnectSendsUpdatedRecord | backend/src/websocket.py:32-38 | the connecting client receives the whole record, already counting itself |
| MachineStatus.MachineStatusTracker.constructor | backend/src/websocket.py:15-20 | available, None, None, 0 |
| MachineStatus.MachineStatusTracker.GetMachineStatus | backend/src/websocket.py:27-29 | returns the current record |
| MachineStatus.MachineStatusTracker.HandleConnect | backend/src/websocket.py:31-38 | the record becomes Step(Connect) of the old one, and it is sent to the client |
| MachineStatus.MachineStatusTracker.HandleDisconnect | backend/src/websocket.py:40-44 | the record becomes Step(Disconnect) of the old one; nothing is emitted |
| MachineStatus.MachineStatusTracker.NotifyOperationStarted | backend/src/websocket.py:46-56 | the record becomes Step(Started) of the old one, and the operation_started payload is emitted |
| MachineStatus.MachineStatusTracker.NotifyOperationCompleted | backend/src/websocket.py:58-68 | the record becomes Step(Completed) of the old one, and the operation_completed payload is emitted |
| MachineStatus.MachineStatusTracker.NotifyOperationFailed | backend/src/websocket.py:70-81 | the record becomes Step(Failed) of the old one, and the operation_failed payload is emitted |
| DrinkRoute.Route | backend/src/app.py:124-169 | the answer is 200 or 500; calls are made exactly when a first row exists, and then there are three with the dispenser in the middle |
| DrinkRoute.Notifications | backend/src/app.py:131-165 | the handlers extracted are exactly those of the notify calls |
| DrinkRoute.NoRowNoNotification | backend/src/app.py:127-169 | a lookup that raises or finds no row gives 500 "Internal server error" and no notification |
| DrinkRoute.StartAnnouncedBeforeDispensing | backend/src/app.py:129-165 | the start is announced with the first row's name before the dispenser runs, and exactly one closing notice for that name follows |
| DrinkRoute.Code500IsFailure | backend/src/app.py:141-147 | code 500 announces failure with the message and answers 500 with status "error" |
| DrinkRoute.OtherCodeIsSuccess | backend/src/app.py:150-156 | any other code announces completion and answers 200 with status "success" and the drink's name |
| DrinkRoute.RaisedIsFailure | backend/src/app.py:158-165 | a raising dispenser announces failure with the exception text and answers 500 |
| DrinkRoute.SuccessIffCompleted | backend/src/app.py:142-165 | the answer is 200 exactly when completion was announced |
| DrinkRoute.RouteLeavesMachineAvailable | backend/src/app.py:131-165 | the machine is busy while the dispenser runs; once a start is announced it ends available with no current operation; without a row the record is untouched |
| DrinkRoute.PrepareDrink | backend/src/app.py:124-169 | the response and the calls are those of Route, and the status record and emissions are the handlers' run over the route's notifications |

## Left out

- The socket.io client library is not modelled; the model treats the socket as a handle. Its handshake, reconnection and backoff become the `Handshake` parameter of `Connect`, and `TransportChanged` sets the `connected` flag. The promise's settlement is a result value, and a promise that never settles changes nothing.
- Two points about the library's emitter are assumptions, since its code is not part of this model. Callbacks attached directly to a socket run after the relay, in attachment order. A throwing callback stops that event's remaining attached callbacks, which is what `UntilThrow` says.
- SocketService.SocketIOService.Receive: what happens to an exception that escapes a directly attached callback after the dispatch stops is not modelled.
- The console logging, the `console.warn` of `emit`, and the clock reading of `pingServer` are left out. The clock reading becomes the `now` parameter.
- React wiring is not modelled: `useState`, `useEffect`, `useCallback`, re-renders, JSX layout, styles and the toast library. Toasts are recorded as `Notice` values.
- The hook's effect running more than once is not modelled. Each run is one `Mount` and one `Unmount`.
- The data loading of both screens (`loadData`, the fetch helpers, the loading spinner) and the mock catalogue service are not modelled.
- Menu.OrderScreen.PlaceOrder: the one-second simulated call becomes the `callSucceeds` parameter. The model allows a failure, which the simulated call as written never produces. Typing into the special-instructions field is not modelled.
- Case folding is ASCII only, so `toLowerCase` on other Unicode letters is not modelled.
- The database lookup of `prepare_drink` and `gpio.spill_drink` are inputs. The other Flask routes, CORS and the database helper are not part of this model.
- The notify functions are taken not to raise inside `prepare_drink`.
- Eventlet concurrency and several clients racing on the status record are not modelled. Every model is sequential.
- Callbacks are known by identity only. A callback that subscribes or unsubscribes during a dispatch is not modelled.
- The client keeps no status model of its own and places orders without a busy check, so neither is modelled.
