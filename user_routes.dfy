/** The HTTP routes of `userRoutes` (worker/userRoutes.ts).

    Each handler matches a method and a path. Every handler but `/api/test` obtains the actor
    named "global", makes one call on it and wraps what the call resolves to in the
    `{ success, data }` envelope; `/api/test` answers a fixed envelope without the actor. A
    handler that reads a JSON body reads it before it obtains the actor, so a body that fails
    to parse escapes the handler with no actor call.
    Only the two information routes catch a failed call, answering 500 with a fixed
    message; on the other routes the failure escapes the handler. */
module UserRoutes {
  import opened Wrappers
  import opened Types
  import opened DurableObject

  datatype HttpMethod = Get | Post | Put | Delete | OtherMethod(name: string)

  /** A request body as the handler's `c.req.json()` cast reads it. */
  datatype Body = NoBody | ItemBody(item: DemoItem) | PatchBody(updates: DemoItemPatch) | Malformed

  datatype Request = Request(verb: HttpMethod, path: string, body: Body)

  /** The routes registered by `userRoutes`. */
  datatype Route =
    | TestRoute
    | SystemInfoRoute
    | UiPathStatusRoute
    | ListDemoRoute
    | CounterRoute
    | IncrementRoute
    | AddDemoRoute
    | UpdateDemoRoute(id: string)
    | DeleteDemoRoute(id: string)

  const DemoPrefix: string := "/api/demo/"

  /** What the `:id` parameter matches: one non-empty path segment. */
  predicate IsSegment(id: string) {
    |id| > 0 && '/' !in id
  }

  predicate ValidRoute(r: Route) {
    match r
    case UpdateDemoRoute(id) => IsSegment(id)
    case DeleteDemoRoute(id) => IsSegment(id)
    case _ => true
  }

  function MethodOf(r: Route): HttpMethod {
    match r
    case TestRoute | SystemInfoRoute | UiPathStatusRoute | ListDemoRoute | CounterRoute => Get
    case IncrementRoute | AddDemoRoute => Post
    case UpdateDemoRoute(_) => Put
    case DeleteDemoRoute(_) => Delete
  }

  function PathOf(r: Route): string {
    match r
    case TestRoute => "/api/test"
    case SystemInfoRoute => "/api/system-info"
    case UiPathStatusRoute => "/api/uipath-status"
    case ListDemoRoute => "/api/demo"
    case CounterRoute => "/api/counter"
    case IncrementRoute => "/api/counter/increment"
    case AddDemoRoute => "/api/demo"
    case UpdateDemoRoute(id) => DemoPrefix + id
    case DeleteDemoRoute(id) => DemoPrefix + id
  }

  /** The id in a path of the form `/api/demo/:id`, if it has that form. */
  function DemoItemId(path: string): Option<string> {
    if |DemoPrefix| < |path| && path[..|DemoPrefix|] == DemoPrefix && IsSegment(path[|DemoPrefix|..])
    then Some(path[|DemoPrefix|..])
    else None
  }

  /** The route a request method and path select, if any. */
  function Match(m: HttpMethod, path: string): Option<Route> {
    match m
    case Get =>
      if path == "/api/test" then Some(TestRoute)
      else if path == "/api/system-info" then Some(SystemInfoRoute)
      else if path == "/api/uipath-status" then Some(UiPathStatusRoute)
      else if path == "/api/demo" then Some(ListDemoRoute)
      else if path == "/api/counter" then Some(CounterRoute)
      else None
    case Post =>
      if path == "/api/counter/increment" then Some(IncrementRoute)
      else if path == "/api/demo" then Some(AddDemoRoute)
      else None
    case Put => if DemoItemId(path).Some? then Some(UpdateDemoRoute(DemoItemId(path).value)) else None
    case Delete => if DemoItemId(path).Some? then Some(DeleteDemoRoute(DemoItemId(path).value)) else None
    case OtherMethod(_) => None
  }

  lemma DemoItemIdOf(id: string)
    requires IsSegment(id)
    ensures DemoItemId(DemoPrefix + id) == Some(id)
  {
    assert (DemoPrefix + id)[..|DemoPrefix|] == DemoPrefix;
    assert (DemoPrefix + id)[|DemoPrefix|..] == id;
  }

  /** The route table is unambiguous: a request selects route `r` exactly when it carries
      `r`'s method and path. */
  lemma MatchSelectsExactly(m: HttpMethod, path: string, r: Route)
    ensures Match(m, path) == Some(r) <==> ValidRoute(r) && m == MethodOf(r) && path == PathOf(r)
  {
    match r
    case UpdateDemoRoute(id) =>
      if IsSegment(id) { DemoItemIdOf(id); }
      if Match(m, path) == Some(r) {
        assert path == path[..|DemoPrefix|] + path[|DemoPrefix|..];
      }
    case DeleteDemoRoute(id) =>
      if IsSegment(id) { DemoItemIdOf(id); }
      if Match(m, path) == Some(r) {
        assert path == path[..|DemoPrefix|] + path[|DemoPrefix|..];
      }
    case _ =>
  }

  /** The name of the one actor every route addresses. */
  const InstanceName: string := "global"

  /** What `/api/test` answers with. */
  datatype Data = TestData(name: string) | ActorData(reply: Reply)

  datatype Response = Response(status: nat, body: ApiResponse<Data>)

  /** A JSON answer with the default status, 200. */
  function Json(body: ApiResponse<Data>): Response {
    Response(200, body)
  }

  /** What a handler does before it reaches the actor. */
  datatype Plan =
    | Immediate(response: Response)     // answers without the actor
    | BodyRejected                     // `c.req.json()` failed; the error escapes the handler
    | Invoke(instance: string, call: Call)

  /** The actor call each route makes, with its arguments taken from the path and body. */
  function PlanRoute(r: Route, body: Body): (p: Plan)
    ensures p.Invoke? ==> p.instance == InstanceName
    ensures p.Invoke? ==> !p.call.Decrement? && !p.call.SetSystemInfo? && !p.call.SetUiPathStatus?
    ensures r.SystemInfoRoute? ==> p == Invoke(InstanceName, GetSystemInfo)
    ensures r.UiPathStatusRoute? ==> p == Invoke(InstanceName, GetUiPathStatus)
    ensures r.ListDemoRoute? ==> p == Invoke(InstanceName, GetDemoItems)
    ensures r.CounterRoute? ==> p == Invoke(InstanceName, GetCounterValue)
    ensures r.IncrementRoute? ==> p == Invoke(InstanceName, Increment(1))
    ensures r.UpdateDemoRoute? && body.PatchBody? ==> p == Invoke(InstanceName, UpdateDemoItem(r.id, body.updates))
    ensures r.DeleteDemoRoute? ==> p == Invoke(InstanceName, DeleteDemoItem(r.id))
    ensures r.AddDemoRoute? && body.ItemBody? ==> p == Invoke(InstanceName, AddDemoItem(body.item))
    ensures r.AddDemoRoute? && !body.ItemBody? ==> p == BodyRejected
    ensures r.UpdateDemoRoute? && !body.PatchBody? ==> p == BodyRejected
    ensures p.Immediate? <==> r.TestRoute?
  {
    match r
    case TestRoute => Immediate(Json(Success(TestData("CF Workers Demo"))))
    case SystemInfoRoute => Invoke(InstanceName, GetSystemInfo)
    case UiPathStatusRoute => Invoke(InstanceName, GetUiPathStatus)
    case ListDemoRoute => Invoke(InstanceName, GetDemoItems)
    case CounterRoute => Invoke(InstanceName, GetCounterValue)
    case IncrementRoute => Invoke(InstanceName, Increment(DefaultAmount))
    case AddDemoRoute =>
      if body.ItemBody? then Invoke(InstanceName, AddDemoItem(body.item)) else BodyRejected
    case UpdateDemoRoute(id) =>
      if body.PatchBody? then Invoke(InstanceName, UpdateDemoItem(id, body.updates)) else BodyRejected
    case DeleteDemoRoute(id) => Invoke(InstanceName, DeleteDemoItem(id))
  }

  /** How the actor call settled. */
  datatype ActorOutcome = Returned(reply: Reply) | Threw

  /** How a request ends: an answer, an error that escapes the handler, or no route. */
  datatype Outcome = Responded(response: Response) | Unhandled | NotMatched

  /** The fixed message of a route that catches a failed call. */
  function CaughtMessage(r: Route): Option<string> {
    match r
    case SystemInfoRoute => Some("Failed to retrieve system information")
    case UiPathStatusRoute => Some("Failed to retrieve UiPath status")
    case _ => None
  }

  /** The envelope around a call's outcome: a success carries exactly the actor's result; a
      failure is a 500 with no data on the two routes that catch it, and escapes elsewhere. */
  function Respond(r: Route, outcome: ActorOutcome): (o: Outcome)
    ensures outcome.Returned? ==> o == Responded(Response(200, ApiResponse(true, Some(ActorData(outcome.reply)), None)))
    ensures outcome.Threw? ==> (o.Responded? <==> r.SystemInfoRoute? || r.UiPathStatusRoute?)
    ensures outcome.Threw? ==> !o.NotMatched?
    ensures outcome.Threw? && o.Responded? ==>
              o.response.status == 500 && !o.response.body.success && o.response.body.data.None?
              && o.response.body.error.Some?
  {
    match outcome
    case Returned(reply) => Responded(Json(Success(ActorData(reply))))
    case Threw =>
      match CaughtMessage(r)
      case Some(message) => Responded(Response(500, Failure(message)))
      case None => Unhandled
  }

  /** One request against the actor whose storage is `s`. `storageFails` says whether the
      actor call fails; a failed call leaves the storage as it was. */
  function Handle(req: Request, s: Store, mock: seq<DemoItem>, now: Clock, storageFails: bool): (out: (Outcome, Store))
    ensures out.0.NotMatched? <==> Match(req.verb, req.path).None?
    ensures storageFails ==> out.1 == s
    ensures out.0.Responded? && !out.0.response.body.success ==> storageFails && out.0.response.status == 500
    ensures !out.0.Responded? ==> out.1 == s
    ensures Match(req.verb, req.path).Some? && PlanRoute(Match(req.verb, req.path).value, req.body).BodyRejected? ==>
              out == (Unhandled, s)
  {
    match Match(req.verb, req.path)
    case None => (NotMatched, s)
    case Some(r) =>
      match PlanRoute(r, req.body)
      case Immediate(response) => (Responded(response), s)
      case BodyRejected => (Unhandled, s)
      case Invoke(_, call) =>
        if storageFails then (Respond(r, Threw), s)
        else
          var step := Perform(call, s, mock, now);
          (Respond(r, Returned(step.result)), step.store)
  }

  /** Every routed request that reaches the actor answers 200 with exactly the actor's
      result and writes only the key of its call. */
  lemma RoutedCallSucceeds(req: Request, s: Store, mock: seq<DemoItem>, now: Clock, r: Route)
    requires Match(req.verb, req.path) == Some(r)
    requires PlanRoute(r, req.body).Invoke?
    ensures var call := PlanRoute(r, req.body).call;
            var step := Perform(call, s, mock, now);
            Handle(req, s, mock, now, false) == (Responded(Json(Success(ActorData(step.result)))), step.store)
            && SameExcept(s, Handle(req, s, mock, now, false).1, KeyOf(call))
  {
  }

  /** `/api/test` answers the same envelope whatever the storage, and touches nothing. */
  lemma TestRouteIsConstant(body: Body, s: Store, mock: seq<DemoItem>, now: Clock, storageFails: bool)
    ensures Handle(Request(Get, "/api/test", body), s, mock, now, storageFails)
         == (Responded(Response(200, ApiResponse(true, Some(TestData("CF Workers Demo")), None))), s)
  {
  }

  /** A failed call on `/api/system-info` or `/api/uipath-status` answers 500 with that
      route's message; on every other actor route it escapes the handler. */
  lemma FailedCallOutcome(req: Request, s: Store, mock: seq<DemoItem>, now: Clock, r: Route)
    requires Match(req.verb, req.path) == Some(r)
    requires PlanRoute(r, req.body).Invoke?
    ensures r.SystemInfoRoute? ==>
              Handle(req, s, mock, now, true).0
              == Responded(Response(500, ApiResponse(false, None, Some("Failed to retrieve system information"))))
    ensures r.UiPathStatusRoute? ==>
              Handle(req, s, mock, now, true).0
              == Responded(Response(500, ApiResponse(false, None, Some("Failed to retrieve UiPath status"))))
    ensures !r.SystemInfoRoute? && !r.UiPathStatusRoute? ==> Handle(req, s, mock, now, true).0 == Unhandled
    ensures Handle(req, s, mock, now, true).1 == s
  {
  }

  /** `POST /api/counter/increment` raises the counter by exactly one and answers the new value. */
  lemma IncrementRouteAddsOne(body: Body, s: Store, mock: seq<DemoItem>, now: Clock)
    ensures var (o, t) := Handle(Request(Post, "/api/counter/increment", body), s, mock, now, false);
            CounterValue(t) == CounterValue(s) + 1
            && o == Responded(Response(200, ApiResponse(true, Some(ActorData(Number(CounterValue(s) + 1))), None)))
            && SameExcept(s, t, CounterValueKey)
  {
  }

  /** Three increments on a fresh actor answer 1, 2 and 3 in turn. */
  lemma ThreeIncrementsFromFresh(mock: seq<DemoItem>, now: Clock)
    ensures var req := Request(Post, "/api/counter/increment", NoBody);
            var (o1, s1) := Handle(req, EmptyStore, mock, now, false);
            var (o2, s2) := Handle(req, s1, mock, now, false);
            var (o3, s3) := Handle(req, s2, mock, now, false);
            o1.Responded? && o1.response.body.data == Some(ActorData(Number(1)))
            && o2.Responded? && o2.response.body.data == Some(ActorData(Number(2)))
            && o3.Responded? && o3.response.body.data == Some(ActorData(Number(3)))
  {
    var req := Request(Post, "/api/counter/increment", NoBody);
    IncrementRouteAddsOne(NoBody, EmptyStore, mock, now);
    var s1 := Handle(req, EmptyStore, mock, now, false).1;
    IncrementRouteAddsOne(NoBody, s1, mock, now);
    var s2 := Handle(req, s1, mock, now, false).1;
    IncrementRouteAddsOne(NoBody, s2, mock, now);
  }

  /** The envelope `GET /api/demo` answers with on storage `s`, when the call succeeds. */
  function ListDemo(s: Store, mock: seq<DemoItem>, now: Clock): Outcome {
    Handle(Request(Get, "/api/demo", NoBody), s, mock, now, false).0
  }

  /** A listing answers with the current list. */
  lemma ListDemoAnswers(s: Store, mock: seq<DemoItem>, now: Clock)
    ensures ListDemo(s, mock, now) == Responded(Json(Success(ActorData(Items(CurrentItems(s, mock))))))
  {
    MatchSelectsExactly(Get, "/api/demo", ListDemoRoute);
    RoutedCallSucceeds(Request(Get, "/api/demo", NoBody), s, mock, now, ListDemoRoute);
  }

  /** `GET /api/counter` answers the stored counter, or 0, and writes nothing. */
  lemma CounterRouteAnswers(body: Body, s: Store, mock: seq<DemoItem>, now: Clock)
    ensures Handle(Request(Get, "/api/counter", body), s, mock, now, false)
         == (Responded(Json(Success(ActorData(Number(CounterValue(s)))))), s)
  {
    MatchSelectsExactly(Get, "/api/counter", CounterRoute);
    RoutedCallSucceeds(Request(Get, "/api/counter", body), s, mock, now, CounterRoute);
  }

  /** `GET /api/system-info` answers the snapshot `getSystemInfo` returns and stores. */
  lemma SystemInfoRouteAnswers(body: Body, s: Store, mock: seq<DemoItem>, now: Clock)
    ensures var step := GetSystemInfoStep(s, now);
            Handle(Request(Get, "/api/system-info", body), s, mock, now, false)
            == (Responded(Json(Success(ActorData(Info(step.result))))), step.store)
  {
    MatchSelectsExactly(Get, "/api/system-info", SystemInfoRoute);
    RoutedCallSucceeds(Request(Get, "/api/system-info", body), s, mock, now, SystemInfoRoute);
  }

  /** `GET /api/uipath-status` answers the status `getUiPathStatus` returns and stores. */
  lemma UiPathStatusRouteAnswers(body: Body, s: Store, mock: seq<DemoItem>, now: Clock)
    ensures var step := GetUiPathStatusStep(s, now);
            Handle(Request(Get, "/api/uipath-status", body), s, mock, now, false)
            == (Responded(Json(Success(ActorData(Status(step.result))))), step.store)
  {
    MatchSelectsExactly(Get, "/api/uipath-status", UiPathStatusRoute);
    RoutedCallSucceeds(Request(Get, "/api/uipath-status", body), s, mock, now, UiPathStatusRoute);
  }

  /** `POST /api/demo` hands the body to `addDemoItem` and answers the list it returns. */
  lemma AddRouteCallsAddDemoItem(item: DemoItem, s: Store, mock: seq<DemoItem>, now: Clock)
    ensures var step := AddDemoItemStep(s, mock, item);
            Handle(Request(Post, "/api/demo", ItemBody(item)), s, mock, now, false)
            == (Responded(Json(Success(ActorData(Items(step.result))))), step.store)
  {
    MatchSelectsExactly(Post, "/api/demo", AddDemoRoute);
    RoutedCallSucceeds(Request(Post, "/api/demo", ItemBody(item)), s, mock, now, AddDemoRoute);
  }

  /** `PUT /api/demo/:id` hands the path's id and the body to `updateDemoItem`. */
  lemma UpdateRouteCallsUpdateDemoItem(id: string, updates: DemoItemPatch, s: Store, mock: seq<DemoItem>, now: Clock)
    requires IsSegment(id)
    ensures var step := UpdateDemoItemStep(s, mock, id, updates);
            Handle(Request(Put, DemoPrefix + id, PatchBody(updates)), s, mock, now, false)
            == (Responded(Json(Success(ActorData(Items(step.result))))), step.store)
  {
    MatchSelectsExactly(Put, DemoPrefix + id, UpdateDemoRoute(id));
    RoutedCallSucceeds(Request(Put, DemoPrefix + id, PatchBody(updates)), s, mock, now, UpdateDemoRoute(id));
  }

  /** `DELETE /api/demo/:id` hands the path's id to `deleteDemoItem`, whatever the body. */
  lemma DeleteRouteCallsDeleteDemoItem(id: string, body: Body, s: Store, mock: seq<DemoItem>, now: Clock)
    requires IsSegment(id)
    ensures var step := DeleteDemoItemStep(s, mock, id);
            Handle(Request(Delete, DemoPrefix + id, body), s, mock, now, false)
            == (Responded(Json(Success(ActorData(Items(step.result))))), step.store)
  {
    MatchSelectsExactly(Delete, DemoPrefix + id, DeleteDemoRoute(id));
    RoutedCallSucceeds(Request(Delete, DemoPrefix + id, body), s, mock, now, DeleteDemoRoute(id));
  }

  /** The list side of the lifecycle below, on the actor's steps alone. */
  lemma LifecycleOnSteps(s: Store, mock: seq<DemoItem>)
    ensures var widget := DemoItem("x1", "Widget", 10);
            var patch := DemoItemPatch(None, Some(99));
            var s1 := AddDemoItemStep(s, mock, widget).store;
            var s2 := UpdateDemoItemStep(s1, mock, "x1", patch).store;
            var s3 := DeleteDemoItemStep(s2, mock, "x1").store;
            var list1, list2, list3 := CurrentItems(s1, mock), CurrentItems(s2, mock), CurrentItems(s3, mock);
            |list1| > 0 && list1[|list1| - 1] == widget
            && |list2| > 0 && list2[|list2| - 1] == DemoItem("x1", "Widget", 99)
            && forall x :: x in list3 ==> x.id != "x1"
  {
    var widget := DemoItem("x1", "Widget", 10);
    var patch := DemoItemPatch(None, Some(99));
    var s1 := AddDemoItemStep(s, mock, widget).store;
    var list1 := CurrentItems(s1, mock);
    var s2 := UpdateDemoItemStep(s1, mock, "x1", patch).store;
    var list2 := CurrentItems(s2, mock);
    assert list2 == UpdateItems(list1, "x1", patch);
    assert list2[|list2| - 1] == ApplyPatch(widget, patch);
  }

  /** Adding a widget, patching its value and deleting it, each followed by a listing:
      the first listing ends with the widget, the second ends with the patched widget, the
      third holds no item with its id. This holds whatever the list held before. */
  lemma DemoItemLifecycle(s: Store, mock: seq<DemoItem>, now: Clock)
    ensures var widget := DemoItem("x1", "Widget", 10);
            var s1 := Handle(Request(Post, "/api/demo", ItemBody(widget)), s, mock, now, false).1;
            var s2 := Handle(Request(Put, "/api/demo/x1", PatchBody(DemoItemPatch(None, Some(99)))), s1, mock, now, false).1;
            var s3 := Handle(Request(Delete, "/api/demo/x1", NoBody), s2, mock, now, false).1;
            exists list1: seq<DemoItem>, list2: seq<DemoItem>, list3: seq<DemoItem> ::
              ListDemo(s1, mock, now) == Responded(Json(Success(ActorData(Items(list1)))))
              && ListDemo(s2, mock, now) == Responded(Json(Success(ActorData(Items(list2)))))
              && ListDemo(s3, mock, now) == Responded(Json(Success(ActorData(Items(list3)))))
              && |list1| > 0 && list1[|list1| - 1] == widget
              && |list2| > 0 && list2[|list2| - 1] == DemoItem("x1", "Widget", 99)
              && forall x :: x in list3 ==> x.id != "x1"
  {
    var widget := DemoItem("x1", "Widget", 10);
    var patch := DemoItemPatch(None, Some(99));
    assert IsSegment("x1");
    assert DemoPrefix + "x1" == "/api/demo/x1";
    AddRouteCallsAddDemoItem(widget, s, mock, now);
    var s1 := AddDemoItemStep(s, mock, widget).store;
    UpdateRouteCallsUpdateDemoItem("x1", patch, s1, mock, now);
    var s2 := UpdateDemoItemStep(s1, mock, "x1", patch).store;
    DeleteRouteCallsDeleteDemoItem("x1", NoBody, s2, mock, now);
    var s3 := DeleteDemoItemStep(s2, mock, "x1").store;
    ListDemoAnswers(s1, mock, now);
    ListDemoAnswers(s2, mock, now);
    ListDemoAnswers(s3, mock, now);
    LifecycleOnSteps(s, mock);
  }
}
