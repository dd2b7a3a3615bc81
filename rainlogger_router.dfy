/**
 * The route table of src/routes/rainloggerRouter.ts, mounted under
 * `/api/v1/rainlogger`, and a request served through it.
 *
 * Each `.post/.get/.put/.delete(protect, validation, handler)` call adds
 * layers bound to that method: `protect`, one layer per chain of the
 * validation array (Express flattens it), and the handler. The model folds the
 * chains of the array into one stage; each chain only records its errors and
 * calls `next()`, so the order of what runs is the same. The final `.all(methodNotAllowed(...))`
 * adds one layer for every method. A request runs the layers that match its
 * method, in the order they were added; a HEAD request runs the GET layers
 * when the route has no HEAD layer of its own.
 */
module RainloggerRouter {
  import opened Wrappers
  import opened RainlogTypes
  import opened Strings
  import opened Http
  import opened AsyncGuard
  import opened MethodGate
  import opened AuthControllers
  import opened RainlogValidations
  import opened RainlogModel
  import opened RainlogControllers

  /** Where the router is mounted. */
  const MountPath := "/api/v1/rainlogger"

  /** The three routes of the router. */
  datatype Route = RainlogRoute | FiltersRoute | DeleteRoute

  /** The validation chains the routes use; only the create chain is part of this model. */
  datatype ValidationChain = AddValidation | GetByIdValidation | UpdateValidation | FiltersValidation | DeleteValidation

  /** The handlers the routes end in; the update, filter and delete handlers are not part of this model. */
  datatype Handler = AddRainlog | GetRainlog | UpdateRainlog | GetRainlogFilters | DeleteRainlog

  /** One middleware of a route. */
  datatype Stage = ProtectStage | ValidateStage(chain: ValidationChain) | HandleStage(handler: Handler) | MethodGateStage(allowed: seq<string>)

  /** A layer of a route: the method it is bound to (none for `.all`) and its middleware. */
  datatype Layer = Layer(verb: Option<string>, stage: Stage)

  /** A method binding of the table: the method, then its validation chain and handler after `protect`. */
  datatype Binding = Binding(verb: string, chain: ValidationChain, handler: Handler)

  /** The path of a route, relative to the mount path. */
  function Path(route: Route): string
  {
    match route
    case RainlogRoute => "/rainlog"
    case FiltersRoute => "/rainlog/filters"
    case DeleteRoute => "/rainlog/delete/:id"
  }

  /** The list given to `methodNotAllowed` on each route. */
  function Allowed(route: Route): seq<string>
  {
    match route
    case RainlogRoute => ["POST", "GET", "PUT"]
    case FiltersRoute => ["GET"]
    case DeleteRoute => ["DELETE"]
  }

  /** The method bindings of each route, as a table. */
  function Bindings(route: Route): seq<Binding>
  {
    match route
    case RainlogRoute =>
      [Binding("POST", AddValidation, AddRainlog), Binding("GET", GetByIdValidation, GetRainlog),
       Binding("PUT", UpdateValidation, UpdateRainlog)]
    case FiltersRoute => [Binding("GET", FiltersValidation, GetRainlogFilters)]
    case DeleteRoute => [Binding("DELETE", DeleteValidation, DeleteRainlog)]
  }

  /** The layers one `.post/.get/...(protect, validation, handler)` call adds, the validation chains folded into one. */
  function Bound(b: Binding): seq<Layer>
  {
    [Layer(Some(b.verb), ProtectStage), Layer(Some(b.verb), ValidateStage(b.chain)), Layer(Some(b.verb), HandleStage(b.handler))]
  }

  /** The layers a list of bindings adds, one binding after the other, and the `.all` gate layer last. */
  function Stack(bindings: seq<Binding>, allowed: seq<string>): seq<Layer>
  {
    if bindings == [] then [Layer(None, MethodGateStage(allowed))]
    else Bound(bindings[0]) + Stack(bindings[1..], allowed)
  }

  /** The layers of a route, in the order the router adds them. */
  function RouteStack(route: Route): seq<Layer>
  {
    Stack(Bindings(route), Allowed(route))
  }

  /** Some layer of the stack is bound to `verb`. */
  predicate HasLayerFor(stack: seq<Layer>, verb: string)
  {
    exists i :: 0 <= i < |stack| && stack[i].verb == Some(verb)
  }

  /** The method a route's layers are matched against: HEAD falls back to GET when no layer is bound to HEAD. */
  function DispatchVerb(route: Route, verb: string): string
  {
    if verb == "HEAD" && !HasLayerFor(RouteStack(route), "HEAD") then "GET" else verb
  }

  /** The middleware of the layers that match `verb`, in order. */
  function Matching(stack: seq<Layer>, verb: string): (stages: seq<Stage>)
    ensures |stages| <= |stack|
  {
    if stack == [] then []
    else if stack[0].verb.None? || stack[0].verb == Some(verb) then [stack[0].stage] + Matching(stack[1..], verb)
    else Matching(stack[1..], verb)
  }

  /** The middleware a request with method `verb` runs on `route`. */
  function Stages(route: Route, verb: string): seq<Stage>
  {
    Matching(RouteStack(route), DispatchVerb(route, verb))
  }

  /** The binding of the table for a method, if the route has one. */
  function BindingFor(bindings: seq<Binding>, verb: string): (b: Option<Binding>)
    ensures b.Some? ==> b.value in bindings && b.value.verb == verb
    ensures b.None? <==> forall i :: 0 <= i < |bindings| ==> bindings[i].verb != verb
  {
    if bindings == [] then None
    else if bindings[0].verb == verb then Some(bindings[0])
    else
      var b := BindingFor(bindings[1..], verb);
      assert forall i :: 1 <= i < |bindings| ==> bindings[i] == bindings[1..][i - 1];
      b
  }

  // ----- the table -----

  /** No two bindings of a table are for the same method. */
  predicate DistinctVerbs(bindings: seq<Binding>)
  {
    forall i, j :: 0 <= i < j < |bindings| ==> bindings[i].verb != bindings[j].verb
  }

  /**
   * The layers agree with the table: a bound method (HEAD counting as GET)
   * runs `protect`, then its validation chain, then its handler, then the
   * method gate; any other method runs the method gate alone.
   */
  lemma StagesFollowBindings(route: Route, verb: string)
    ensures var b := BindingFor(Bindings(route), DispatchVerb(route, verb));
      && (b.Some? ==> Stages(route, verb) == [ProtectStage, ValidateStage(b.value.chain), HandleStage(b.value.handler), MethodGateStage(Allowed(route))])
      && (b.None? ==> Stages(route, verb) == [MethodGateStage(Allowed(route))])
  {
    var v := DispatchVerb(route, verb);
    StackFollowsBindings(Bindings(route), Allowed(route), v);
    var b := BindingFor(Bindings(route), v);
    if b.Some? {
      assert [ProtectStage, ValidateStage(b.value.chain), HandleStage(b.value.handler)] + [MethodGateStage(Allowed(route))] ==
        [ProtectStage, ValidateStage(b.value.chain), HandleStage(b.value.handler), MethodGateStage(Allowed(route))];
    }
  }

  /** The layers of a table of distinct methods, matched against a method: its binding's three stages, if any, then the gate. */
  lemma {:induction false} StackFollowsBindings(bindings: seq<Binding>, allowed: seq<string>, v: string)
    requires DistinctVerbs(bindings)
    ensures var b := BindingFor(bindings, v);
      Matching(Stack(bindings, allowed), v) ==
        (if b.Some? then [ProtectStage, ValidateStage(b.value.chain), HandleStage(b.value.handler)] else []) + [MethodGateStage(allowed)]
  {
    if bindings == [] {
      var gate := [Layer(None, MethodGateStage(allowed))];
      assert gate[1..] == [];
      assert Matching(gate, v) == [MethodGateStage(allowed)] + [];
    } else {
      var rest := bindings[1..];
      assert DistinctVerbs(rest) by {
        forall i, j | 0 <= i < j < |rest| ensures rest[i].verb != rest[j].verb {
          assert rest[i] == bindings[i + 1] && rest[j] == bindings[j + 1];
        }
      }
      MatchingAppend(Bound(bindings[0]), Stack(rest, allowed), v);
      MatchingBound(bindings[0], v);
      StackFollowsBindings(rest, allowed, v);
      if bindings[0].verb == v {
        forall i | 0 <= i < |rest| ensures rest[i].verb != v {
          assert rest[i] == bindings[i + 1];
        }
      }
    }
  }

  /** Matching distributes over the concatenation of stacks. */
  lemma {:induction false} MatchingAppend(a: seq<Layer>, b: seq<Layer>, verb: string)
    ensures Matching(a + b, verb) == Matching(a, verb) + Matching(b, verb)
  {
    if a == [] {
      assert a + b == b;
    } else {
      assert (a + b)[0] == a[0];
      assert (a + b)[1..] == a[1..] + b;
      MatchingAppend(a[1..], b, verb);
    }
  }

  /** The layers of one binding match all or nothing. */
  lemma MatchingBound(b: Binding, verb: string)
    ensures Matching(Bound(b), verb) ==
      if b.verb == verb then [ProtectStage, ValidateStage(b.chain), HandleStage(b.handler)] else []
  {
    var layers := Bound(b);
    var on := b.verb == verb;
    var last := layers[1..][1..];
    assert last[1..] == [];
    assert Matching(last, verb) == if on then [HandleStage(b.handler)] else [];
    assert Matching(layers[1..], verb) == if on then [ValidateStage(b.chain), HandleStage(b.handler)] else [];
  }

  /** A route handles a method when its table binds it (HEAD counting as GET). */
  predicate Handles(route: Route, verb: string)
  {
    BindingFor(Bindings(route), DispatchVerb(route, verb)).Some?
  }

  /**
   * Every handled method runs `protect` first, then one validation chain and
   * one handler: POST creates, GET (and HEAD) fetches by id, PUT updates.
   */
  lemma ProtectComesFirst(route: Route, verb: string)
    requires Handles(route, verb)
    ensures |Stages(route, verb)| == 4 && Stages(route, verb)[0] == ProtectStage
    ensures Stages(route, verb)[1].ValidateStage? && Stages(route, verb)[2].HandleStage?
  {
    StagesFollowBindings(route, verb);
  }

  /** A HEAD request runs exactly the layers of a GET request, on every route. */
  lemma HeadRunsGet(route: Route)
    ensures Stages(route, "HEAD") == Stages(route, "GET")
  {
    NoHeadLayer(route);
  }

  /** POST on `/rainlog` creates a record. */
  lemma CreateBinding()
    ensures Stages(RainlogRoute, "POST") ==
      [ProtectStage, ValidateStage(AddValidation), HandleStage(AddRainlog), MethodGateStage(["POST", "GET", "PUT"])]
  {
    StagesFollowBindings(RainlogRoute, "POST");
    assert BindingFor(Bindings(RainlogRoute), "POST") == Some(Bindings(RainlogRoute)[0]);
  }

  /** GET on `/rainlog` fetches a record by id. */
  lemma FetchBinding()
    ensures Stages(RainlogRoute, "GET") ==
      [ProtectStage, ValidateStage(GetByIdValidation), HandleStage(GetRainlog), MethodGateStage(["POST", "GET", "PUT"])]
  {
    StagesFollowBindings(RainlogRoute, "GET");
    assert Bindings(RainlogRoute)[0].verb != "GET";
    assert BindingFor(Bindings(RainlogRoute), "GET") == Some(Bindings(RainlogRoute)[1]);
  }

  /** PUT on `/rainlog` updates a record. */
  lemma UpdateBinding()
    ensures Stages(RainlogRoute, "PUT") ==
      [ProtectStage, ValidateStage(UpdateValidation), HandleStage(UpdateRainlog), MethodGateStage(["POST", "GET", "PUT"])]
  {
    StagesFollowBindings(RainlogRoute, "PUT");
    assert Bindings(RainlogRoute)[0].verb != "PUT" && Bindings(RainlogRoute)[1].verb != "PUT";
    assert BindingFor(Bindings(RainlogRoute), "PUT") == Some(Bindings(RainlogRoute)[2]);
  }

  /** GET on `/rainlog/filters` filters, DELETE on `/rainlog/delete/:id` deletes. */
  lemma FilterAndDeleteBindings()
    ensures Stages(FiltersRoute, "GET") ==
      [ProtectStage, ValidateStage(FiltersValidation), HandleStage(GetRainlogFilters), MethodGateStage(["GET"])]
    ensures Stages(DeleteRoute, "DELETE") ==
      [ProtectStage, ValidateStage(DeleteValidation), HandleStage(DeleteRainlog), MethodGateStage(["DELETE"])]
  {
    StagesFollowBindings(FiltersRoute, "GET");
    StagesFollowBindings(DeleteRoute, "DELETE");
  }

  /** No route binds HEAD itself. */
  lemma NoHeadLayer(route: Route)
    ensures !HasLayerFor(RouteStack(route), "HEAD")
  {
    StackVerbs(Bindings(route), Allowed(route), "HEAD");
  }

  /** A stack has a layer bound to a method exactly when its table binds that method. */
  lemma {:induction false} StackVerbs(bindings: seq<Binding>, allowed: seq<string>, verb: string)
    ensures HasLayerFor(Stack(bindings, allowed), verb) <==> BindingFor(bindings, verb).Some?
  {
    var stack := Stack(bindings, allowed);
    if bindings == [] {
      assert stack[0].verb.None?;
    } else {
      var rest := Stack(bindings[1..], allowed);
      StackVerbs(bindings[1..], allowed, verb);
      var layers := Bound(bindings[0]);
      assert stack == layers + rest;
      if HasLayerFor(stack, verb) && bindings[0].verb != verb {
        var i :| 0 <= i < |stack| && stack[i].verb == Some(verb);
        assert stack[i] == rest[i - 3];
      }
      if HasLayerFor(rest, verb) {
        var i :| 0 <= i < |rest| && rest[i].verb == Some(verb);
        assert stack[i + 3] == rest[i];
      }
      if bindings[0].verb == verb {
        assert stack[0].verb == Some(verb);
      }
    }
  }

  /** Every method of a route's `methodNotAllowed` list is bound on that route, and every bound method is listed. */
  lemma AllowedMatchesBindings(route: Route, verb: string)
    ensures verb in Allowed(route) <==> BindingFor(Bindings(route), verb).Some?
  {
    var bindings := Bindings(route);
    assert |bindings| == |Allowed(route)|;
    assert forall i :: 0 <= i < |bindings| ==> bindings[i].verb == Allowed(route)[i];
  }

  /** A method the route does not handle is never in its `methodNotAllowed` list, so the gate answers it. */
  lemma UnhandledIsNotAllowed(route: Route, verb: string)
    requires !Handles(route, verb)
    ensures verb !in Allowed(route)
    ensures Stages(route, verb) == [MethodGateStage(Allowed(route))]
    ensures MethodNotAllowed(Allowed(route), verb).Sent?
  {
    StagesFollowBindings(route, verb);
    AllowedMatchesBindings(route, verb);
    NoHeadLayer(route);
  }

  /** The `Allow` header of each route. */
  lemma AllowHeaders()
    ensures Join(Allowed(RainlogRoute), ", ") == "POST, GET, PUT"
    ensures Join(Allowed(FiltersRoute), ", ") == "GET"
    ensures Join(Allowed(DeleteRoute), ", ") == "DELETE"
  {
  }

  /** DELETE on `/rainlog` and HEAD on `/rainlog/delete/:id` are answered with 405 by the gate. */
  lemma NotAllowedExamples()
    ensures Stages(RainlogRoute, "DELETE") == [MethodGateStage(["POST", "GET", "PUT"])]
    ensures Stages(DeleteRoute, "HEAD") == [MethodGateStage(["DELETE"])]
    ensures Stages(FiltersRoute, "POST") == [MethodGateStage(["GET"])]
  {
    StagesFollowBindings(RainlogRoute, "DELETE");
    NoHeadLayer(DeleteRoute);
    StagesFollowBindings(DeleteRoute, "HEAD");
    StagesFollowBindings(FiltersRoute, "POST");
  }

  // ----- serving a request -----

  /** How serving ends: an answer, a handler outside this model, or a request passed on past the router. */
  datatype Outcome = Responded(response: Response) | Unmodelled(handler: Handler) | PassedOn

  /** The outcome of a middleware's effect. */
  function Finish(e: Effect): (o: Outcome)
    ensures o == PassedOn <==> e == Next
  {
    match e
    case Next => PassedOn
    case Sent(response) => Responded(response)
  }

  /** The bindings the create and fetch requests reach, HEAD counting as GET. */
  lemma ModelledBindings(route: Route, verb: string)
    ensures route == RainlogRoute && verb == "POST" ==>
      BindingFor(Bindings(route), DispatchVerb(route, verb)) == Some(Binding("POST", AddValidation, AddRainlog))
    ensures route == RainlogRoute && (verb == "GET" || verb == "HEAD") ==>
      BindingFor(Bindings(route), DispatchVerb(route, verb)) == Some(Binding("GET", GetByIdValidation, GetRainlog))
  {
    NoHeadLayer(route);
    if route == RainlogRoute {
      assert Bindings(route)[0].verb != "GET";
    }
  }

  /**
   * What serving a create did: the create validator's errors are answered with
   * 400 and the store is left as it was; otherwise the answer is the guarded
   * outcome of `create` on the validated body, and the store changes as the
   * insert says.
   */
  predicate CreateServed(lib: Recognisers, body: map<string, Json>, user: Option<User>, now: Date, id: ObjectId,
                         before: seq<Rainlog>, after: seq<Rainlog>, outcome: Outcome)
  {
    var v := Validate(lib, body);
    && (v.errors != [] ==> outcome == Responded(InvalidInput(v.errors)) && after == before)
    && (v.errors == [] ==>
          var r := Insert(before, NewRainlog(v.body, user, now), now, id);
          && outcome == Finish(CatchAsync(Created(r)))
          && after == (if r.Ok? then before + [r.value] else before))
  }

  /** What serving a fetch by id did: the guarded outcome of the lookup, with the store left as it was. */
  predicate FetchServed(errors: seq<FieldError>, queryId: Option<string>, castId: string -> Option<ObjectId>,
                        before: seq<Rainlog>, after: seq<Rainlog>, outcome: Outcome)
  {
    outcome == Finish(CatchAsync(Fetched(before, errors, queryId, castId))) && after == before
  }

  /**
   * The body and the errors a binding's validation chain leaves on the
   * request: the create validator, or the errors of a chain outside this
   * model with the body as sent.
   */
  function ChainRun(chain: ValidationChain, lib: Recognisers,
                    otherErrors: (ValidationChain, map<string, Json>, Option<string>) -> seq<FieldError>,
                    body: map<string, Json>, queryId: Option<string>): Validation
  {
    if chain == AddValidation then Validate(lib, body) else Validation(otherErrors(chain, body, queryId), body)
  }

  /**
   * The validation chain and the handler of a binding, run on a request that
   * `protect` let through: the create chain and handler, or the fetch chain
   * and handler. For the update, filter and delete bindings only the chain
   * runs: the model stops before their handler, which is not part of it.
   */
  method RunBinding(b: Binding, req: Request, store: RainlogStore, lib: Recognisers,
                    otherErrors: (ValidationChain, map<string, Json>, Option<string>) -> seq<FieldError>,
                    castId: string -> Option<ObjectId>, now: Date, id: ObjectId)
    returns (outcome: Outcome)
    requires store.Valid() && req.validationErrors == []
    modifies req`body, req`validationErrors, store
    ensures store.Valid()
    ensures b == Binding("POST", AddValidation, AddRainlog) ==>
      CreateServed(lib, old(req.body), req.user, now, id, old(store.docs), store.docs, outcome)
    ensures b == Binding("GET", GetByIdValidation, GetRainlog) ==>
      FetchServed(otherErrors(GetByIdValidation, old(req.body), req.queryId), req.queryId, castId,
                  old(store.docs), store.docs, outcome)
    ensures b.handler !in {AddRainlog, GetRainlog} ==> outcome == Unmodelled(b.handler) && store.docs == old(store.docs)
    ensures outcome.Unmodelled? ==> outcome.handler == b.handler && b.handler !in {AddRainlog, GetRainlog}
    // the request as the chain left it
    ensures req.body == ChainRun(b.chain, lib, otherErrors, old(req.body), req.queryId).body
    ensures req.validationErrors == ChainRun(b.chain, lib, otherErrors, old(req.body), req.queryId).errors
  {
    // the validation chain
    match b.chain {
      case AddValidation =>
        ApplyAddRainlogValidation(req, lib);
        assert req.validationErrors == Validate(lib, old(req.body)).errors;
      case other =>
        req.validationErrors := req.validationErrors + otherErrors(other, req.body, req.queryId);
        assert req.validationErrors == otherErrors(other, old(req.body), req.queryId);
    }
    // the handler, inside the guard
    match b.handler {
      case AddRainlog =>
        var s := AddRainlogToDatabase(store, req, now, id);
        outcome := Finish(CatchAsync(s));
      case GetRainlog =>
        var s := RainlogControllers.GetRainlogById(store, req, castId);
        outcome := Finish(CatchAsync(s));
      case other =>
        outcome := Unmodelled(other);
    }
  }

  /**
   * A request served through the layers of a binding: `protect`, then, when
   * it lets the request through, the binding's validation chain and handler
   * (for a handler outside this model, the chain only).
   */
  method ServeBinding(b: Binding, req: Request, store: RainlogStore, verify: string -> AuthReply, lib: Recognisers,
                      otherErrors: (ValidationChain, map<string, Json>, Option<string>) -> seq<FieldError>,
                      castId: string -> Option<ObjectId>, now: Date, id: ObjectId)
    returns (outcome: Outcome, calls: seq<string>)
    requires store.Valid() && req.validationErrors == []
    modifies req`user, req`body, req`validationErrors, store
    ensures store.Valid()
    ensures calls == if BearerToken(old(req.authorization)).Some? then [AuthHeader(BearerToken(old(req.authorization)).value)] else []
    ensures !Gate(old(req.authorization), verify).Admit? ==>
      && outcome == Finish(GateEffect(Gate(old(req.authorization), verify)))
      && store.docs == old(store.docs) && req.user == old(req.user)
    ensures Gate(old(req.authorization), verify).Admit? && b == Binding("POST", AddValidation, AddRainlog) ==>
      CreateServed(lib, old(req.body), Gate(old(req.authorization), verify).user, now, id,
                   old(store.docs), store.docs, outcome)
    ensures Gate(old(req.authorization), verify).Admit? && b == Binding("GET", GetByIdValidation, GetRainlog) ==>
      FetchServed(otherErrors(GetByIdValidation, old(req.body), old(req.queryId)), old(req.queryId), castId,
                  old(store.docs), store.docs, outcome)
    ensures Gate(old(req.authorization), verify).Admit? && b.handler !in {AddRainlog, GetRainlog} ==>
      outcome == Unmodelled(b.handler) && store.docs == old(store.docs)
    ensures outcome.Unmodelled? ==> outcome.handler == b.handler && b.handler !in {AddRainlog, GetRainlog}
    // the request: the user and the chain's work on admission, untouched otherwise
    ensures Gate(old(req.authorization), verify).Admit? ==>
      && req.user == Gate(old(req.authorization), verify).user
      && req.body == ChainRun(b.chain, lib, otherErrors, old(req.body), old(req.queryId)).body
      && req.validationErrors == ChainRun(b.chain, lib, otherErrors, old(req.body), old(req.queryId)).errors
    ensures !Gate(old(req.authorization), verify).Admit? ==>
      req.body == old(req.body) && req.validationErrors == old(req.validationErrors)
  {
    var effect;
    effect, calls := Protect(req, verify);
    if effect != Next {
      return Finish(effect), calls;
    }
    outcome := RunBinding(b, req, store, lib, otherErrors, castId, now, id);
  }

  /**
   * A request to `route` served through its layers. The identity service is
   * `verify`, the recognisers of the validation library are `lib`, the errors
   * of the validation chains outside this model are `otherErrors`, `castId`
   * is the store's object-id cast, and `now` and `id` are the server time and
   * the generated identifier a create uses. `calls` lists the headers sent to
   * the identity service.
   */
  method Serve(route: Route, req: Request, store: RainlogStore, verify: string -> AuthReply, lib: Recognisers,
               otherErrors: (ValidationChain, map<string, Json>, Option<string>) -> seq<FieldError>,
               castId: string -> Option<ObjectId>, now: Date, id: ObjectId)
    returns (outcome: Outcome, calls: seq<string>)
    requires store.Valid() && req.validationErrors == []
    modifies req`user, req`body, req`validationErrors, store
    ensures store.Valid()
    // a method the route does not handle gets 405 and nothing else happens
    ensures !Handles(route, old(req.verb)) ==>
      && outcome == Responded(MethodNotAllowed(Allowed(route), old(req.verb)).response)
      && calls == [] && store.docs == old(store.docs) && req.user == old(req.user)
      && req.body == old(req.body) && req.validationErrors == old(req.validationErrors)
    // a handled method always goes through the authorization gate first
    ensures Handles(route, old(req.verb)) ==>
      calls == if BearerToken(old(req.authorization)).Some? then [AuthHeader(BearerToken(old(req.authorization)).value)] else []
    ensures Handles(route, old(req.verb)) && !Gate(old(req.authorization), verify).Admit? ==>
      && outcome == Finish(GateEffect(Gate(old(req.authorization), verify)))
      && store.docs == old(store.docs) && req.user == old(req.user)
      && req.body == old(req.body) && req.validationErrors == old(req.validationErrors)
    // an admitted request carries the user and what its binding's chain did
    ensures Handles(route, old(req.verb)) && Gate(old(req.authorization), verify).Admit? ==>
      var chain := BindingFor(Bindings(route), DispatchVerb(route, old(req.verb))).value.chain;
      && req.user == Gate(old(req.authorization), verify).user
      && req.body == ChainRun(chain, lib, otherErrors, old(req.body), old(req.queryId)).body
      && req.validationErrors == ChainRun(chain, lib, otherErrors, old(req.body), old(req.queryId)).errors
    // a create runs the create validator, then the create handler under the guard
    ensures route == RainlogRoute && old(req.verb) == "POST" && Gate(old(req.authorization), verify).Admit? ==>
      CreateServed(lib, old(req.body), Gate(old(req.authorization), verify).user, now, id,
                   old(store.docs), store.docs, outcome)
    // a fetch by id (GET or HEAD) runs its chain, then only reads the store
    ensures route == RainlogRoute && (old(req.verb) == "GET" || old(req.verb) == "HEAD") &&
            Gate(old(req.authorization), verify).Admit? ==>
      FetchServed(otherErrors(GetByIdValidation, old(req.body), old(req.queryId)), old(req.queryId), castId,
                  old(store.docs), store.docs, outcome)
    // the update, filter and delete requests stop after their chain, before their handler
    ensures outcome.Unmodelled? ==> outcome.handler in {UpdateRainlog, GetRainlogFilters, DeleteRainlog}
    ensures outcome.Unmodelled? ==> store.docs == old(store.docs)
  {
    var verb := req.verb;
    ModelledBindings(route, verb);
    var binding := BindingFor(Bindings(route), DispatchVerb(route, verb));
    if binding.None? {
      UnhandledIsNotAllowed(route, verb);
      var effect := MethodNotAllowed(Allowed(route), verb);
      return Finish(effect), [];
    }
    outcome, calls := ServeBinding(binding.value, req, store, verify, lib, otherErrors, castId, now, id);
  }
}
