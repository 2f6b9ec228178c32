/** The interceptor in front of the webhook endpoint
    (`RequirePostWithGHHookPayload.Processor`). Each guard either lets the
    request through or stops it with a response (in the source: throws an
    `InvocationTargetException` wrapping that response); only a request that
    passes every guard reaches the web method, with its arguments untouched. */
module RequestGate {
  import opened JavaText
  import opened GitHubEvents

  /** One element of the `Object[] arguments` array handed to the web method. */
  datatype Argument =
    | NullArg
    | EventArg(event: GHEvent)
    | StringArg(text: string)
    | OtherArg

  /** What the gate reads from the HTTP request: its method and the value of
      the URL-validation header, if the request carries one. */
  datatype Request = Request(httpMethod: string, validationHeader: Option<string>)

  /** How the interception ends. */
  datatype Outcome =
      /** `target.invoke(req, rsp, instance, arguments)` is called with these arguments. */
    | Invoked(arguments: seq<Argument>)
      /** The self-test answer: status 200 with the instance-identity header. */
    | SelfTest
      /** An error response with this status and message. */
    | HttpError(status: int, message: string)

  const SC_BAD_REQUEST := 400
  const SC_METHOD_NOT_ALLOWED := 405

  const PostRequiredMessage := "Method POST required"
  const ArityMessage := "GHHook root action should take <(GHEvent) event> and <(String) payload> only"
  const NoEventMessage := "Hook should contain event type"
  const NoPayloadMessage := "Hook should contain payload"

  /** `from(arguments).firstMatch(instanceOf(GHEvent.class))`. */
  function FirstEvent(arguments: seq<Argument>): (r: Option<GHEvent>)
    ensures r.None? <==> forall i :: 0 <= i < |arguments| ==> !arguments[i].EventArg?
    ensures r.Some? ==> exists i :: 0 <= i < |arguments| && arguments[i] == EventArg(r.value)
                                    && forall k :: 0 <= k < i ==> !arguments[k].EventArg?
  {
    if |arguments| == 0 then None
    else if arguments[0].EventArg? then Some(arguments[0].event)
    else
      var r := FirstEvent(arguments[1..]);
      assert forall k :: 1 <= k < |arguments| ==> arguments[k] == arguments[1..][k - 1];
      if r.Some? then
        var i :| 0 <= i < |arguments[1..]| && arguments[1..][i] == EventArg(r.value)
                 && forall k :: 0 <= k < i ==> !arguments[1..][k].EventArg?;
        assert arguments[i + 1] == EventArg(r.value);
        r
      else r
  }

  /** `from(arguments).firstMatch(instanceOf(String.class))`; a null element is
      an instance of nothing. */
  function FirstString(arguments: seq<Argument>): (r: Option<string>)
    ensures r.None? <==> forall i :: 0 <= i < |arguments| ==> !arguments[i].StringArg?
    ensures r.Some? ==> exists i :: 0 <= i < |arguments| && arguments[i] == StringArg(r.value)
                                    && forall k :: 0 <= k < i ==> !arguments[k].StringArg?
  {
    if |arguments| == 0 then None
    else if arguments[0].StringArg? then Some(arguments[0].text)
    else
      var r := FirstString(arguments[1..]);
      assert forall k :: 1 <= k < |arguments| ==> arguments[k] == arguments[1..][k - 1];
      if r.Some? then
        var i :| 0 <= i < |arguments[1..]| && arguments[1..][i] == StringArg(r.value)
                 && forall k :: 0 <= k < i ==> !arguments[1..][k].StringArg?;
        assert arguments[i + 1] == StringArg(r.value);
        r
      else r
  }

  /** `isNotBlank((String) firstMatch(instanceOf(String.class)).or(""))`:
      a missing string argument stands for `""`, which is blank. */
  predicate HasPayload(arguments: seq<Argument>)
    ensures HasPayload(arguments) <==>
              exists i :: 0 <= i < |arguments| && arguments[i].StringArg? && !IsBlank(arguments[i].text)
                          && forall k :: 0 <= k < i ==> !arguments[k].StringArg?
  {
    var payload := match FirstString(arguments) case Some(s) => s case None => "";
    !IsBlank(payload)
  }

  /** `isTrue(condition, msg)`: stop with 400 and the message when the condition fails. */
  function IsTrue(condition: bool, msg: string): (stop: Option<Outcome>)
    ensures stop.None? <==> condition
    ensures stop.Some? ==> stop.value == HttpError(SC_BAD_REQUEST, msg)
  {
    if condition then None else Some(HttpError(SC_BAD_REQUEST, msg))
  }

  /** `shouldBePostMethod`: the method name is compared with `"POST"` exactly. */
  function ShouldBePostMethod(req: Request): (stop: Option<Outcome>)
    ensures stop.None? <==> req.httpMethod == "POST"
    ensures stop.Some? ==> stop.value == HttpError(SC_METHOD_NOT_ALLOWED, PostRequiredMessage)
  {
    if req.httpMethod != "POST" then Some(HttpError(SC_METHOD_NOT_ALLOWED, PostRequiredMessage))
    else None
  }

  /** `returnsInstanceIdentityIfLocalUrlTest`: the header being present at all,
      whatever its value, turns the request into a self-test. */
  function ReturnsInstanceIdentityIfLocalUrlTest(req: Request): (stop: Option<Outcome>)
    ensures stop.None? <==> req.validationHeader.None?
    ensures stop.Some? ==> stop.value == SelfTest
  {
    if req.validationHeader.Some? then Some(SelfTest) else None
  }

  /** `shouldContainParseablePayload`: arity, then an event argument, then a
      non-blank string argument. */
  function ShouldContainParseablePayload(arguments: seq<Argument>): (stop: Option<Outcome>)
    ensures stop.None? <==> |arguments| == 2 && FirstEvent(arguments).Some? && HasPayload(arguments)
    ensures stop.Some? ==> stop.value.HttpError? && stop.value.status == SC_BAD_REQUEST
  {
    var arity := IsTrue(|arguments| == 2, ArityMessage);
    if arity.Some? then arity
    else
      var event := IsTrue(FirstEvent(arguments).Some?, NoEventMessage);
      if event.Some? then event
      else IsTrue(HasPayload(arguments), NoPayloadMessage)
  }

  /** `Processor.invoke`: the three guards in their fixed order; the first
      one that stops the request decides the outcome. */
  function Invoke(req: Request, arguments: seq<Argument>): (r: Outcome)
    ensures r.Invoked? <==> req.httpMethod == "POST" && req.validationHeader.None?
                            && |arguments| == 2 && FirstEvent(arguments).Some? && HasPayload(arguments)
    ensures r.Invoked? ==> r.arguments == arguments
    ensures r.SelfTest? <==> req.httpMethod == "POST" && req.validationHeader.Some?
  {
    match ShouldBePostMethod(req)
    case Some(stop) => stop
    case None =>
      match ReturnsInstanceIdentityIfLocalUrlTest(req)
      case Some(stop) => stop
      case None =>
        match ShouldContainParseablePayload(arguments)
        case Some(stop) => stop
        case None => Invoked(arguments)
  }

  // The guards as an ordered list: an independent reading of `invoke` as
  // "evaluate the checks in this order and answer with the first that fails".

  datatype Guard = PostMethod | NoValidationHeader | TwoArguments | EventType | Payload

  const GuardOrder: seq<Guard> := [PostMethod, NoValidationHeader, TwoArguments, EventType, Payload]

  predicate Holds(g: Guard, req: Request, arguments: seq<Argument>)
  {
    match g
    case PostMethod => req.httpMethod == "POST"
    case NoValidationHeader => req.validationHeader.None?
    case TwoArguments => |arguments| == 2
    case EventType => FirstEvent(arguments).Some?
    case Payload => HasPayload(arguments)
  }

  /** The response a failing guard produces. */
  function Response(g: Guard): Outcome
  {
    match g
    case PostMethod => HttpError(SC_METHOD_NOT_ALLOWED, PostRequiredMessage)
    case NoValidationHeader => SelfTest
    case TwoArguments => HttpError(SC_BAD_REQUEST, ArityMessage)
    case EventType => HttpError(SC_BAD_REQUEST, NoEventMessage)
    case Payload => HttpError(SC_BAD_REQUEST, NoPayloadMessage)
  }

  /** The first guard of the list that fails, if any. */
  function FirstFailure(guards: seq<Guard>, req: Request, arguments: seq<Argument>): (r: Option<Guard>)
    ensures r.None? <==> forall i :: 0 <= i < |guards| ==> Holds(guards[i], req, arguments)
    ensures r.Some? ==> exists i :: 0 <= i < |guards| && guards[i] == r.value
                                    && !Holds(r.value, req, arguments)
                                    && forall k :: 0 <= k < i ==> Holds(guards[k], req, arguments)
  {
    if |guards| == 0 then None
    else if !Holds(guards[0], req, arguments) then Some(guards[0])
    else
      var r := FirstFailure(guards[1..], req, arguments);
      assert forall k :: 1 <= k < |guards| ==> guards[k] == guards[1..][k - 1];
      if r.Some? then
        var i :| 0 <= i < |guards[1..]| && guards[1..][i] == r.value
                 && !Holds(r.value, req, arguments)
                 && forall k :: 0 <= k < i ==> Holds(guards[1..][k], req, arguments);
        assert guards[i + 1] == r.value;
        r
      else r
  }

  /** The guards of `GuardOrder` looked at one after the other. */
  function GateByGuards(req: Request, arguments: seq<Argument>): Outcome
  {
    if !Holds(PostMethod, req, arguments) then Response(PostMethod)
    else if !Holds(NoValidationHeader, req, arguments) then Response(NoValidationHeader)
    else if !Holds(TwoArguments, req, arguments) then Response(TwoArguments)
    else if !Holds(EventType, req, arguments) then Response(EventType)
    else if !Holds(Payload, req, arguments) then Response(Payload)
    else Invoked(arguments)
  }

  /** The gate answers with the response of the first failing guard in the
      order method, self-test, arity, event, payload, and invokes the target
      with the unchanged arguments when none fails. */
  lemma {:induction false} FirstFailureDecides(req: Request, arguments: seq<Argument>)
    ensures Invoke(req, arguments) ==
      match FirstFailure(GuardOrder, req, arguments)
      case None => Invoked(arguments)
      case Some(g) => Response(g)
  {
    InvokeByGuards(req, arguments);
    FirstFailureByGuards(req, arguments);
  }

  /** `invoke` is the guards looked at one after the other. */
  lemma InvokeByGuards(req: Request, arguments: seq<Argument>)
    ensures Invoke(req, arguments) == GateByGuards(req, arguments)
  {
  }

  /** So is the first failure of `GuardOrder`, unfolded one guard at a time. */
  lemma {:induction false} FirstFailureByGuards(req: Request, arguments: seq<Argument>)
    ensures GateByGuards(req, arguments) ==
      match FirstFailure(GuardOrder, req, arguments)
      case None => Invoked(arguments)
      case Some(g) => Response(g)
  {
    var s4, s3, s2, s1 := [Payload], [EventType, Payload], [TwoArguments, EventType, Payload],
                          [NoValidationHeader, TwoArguments, EventType, Payload];
    FirstFailureStep(Payload, [], req, arguments);
    assert [Payload] + [] == s4;
    FirstFailureStep(EventType, s4, req, arguments);
    assert [EventType] + s4 == s3;
    FirstFailureStep(TwoArguments, s3, req, arguments);
    assert [TwoArguments] + s3 == s2;
    FirstFailureStep(NoValidationHeader, s2, req, arguments);
    assert [NoValidationHeader] + s2 == s1;
    FirstFailureStep(PostMethod, s1, req, arguments);
    assert [PostMethod] + s1 == GuardOrder;
  }

  /** One step of `FirstFailure`: the head guard is looked at before the rest. */
  lemma FirstFailureStep(g: Guard, rest: seq<Guard>, req: Request, arguments: seq<Argument>)
    ensures FirstFailure([g] + rest, req, arguments) ==
      if !Holds(g, req, arguments) then Some(g) else FirstFailure(rest, req, arguments)
  {
    assert ([g] + rest)[1..] == rest;
  }

  /** A request whose method is not POST is refused with 405 whatever its
      headers and arguments, and the target is not invoked. */
  lemma NonPostIsRefused(req: Request, arguments: seq<Argument>)
    requires req.httpMethod != "POST"
    ensures Invoke(req, arguments) == HttpError(SC_METHOD_NOT_ALLOWED, PostRequiredMessage)
  {
  }

  /** A POST carrying the validation header gets the self-test answer, even
      when its arguments are malformed. */
  lemma SelfTestIgnoresArguments(req: Request, arguments: seq<Argument>)
    requires req.httpMethod == "POST" && req.validationHeader.Some?
    ensures Invoke(req, arguments) == SelfTest
  {
  }

  /** Past the first two guards, an argument count other than two is a 400
      with the arity message. */
  lemma WrongArityIsBadRequest(req: Request, arguments: seq<Argument>)
    requires req.httpMethod == "POST" && req.validationHeader.None?
    requires |arguments| != 2
    ensures Invoke(req, arguments) == HttpError(SC_BAD_REQUEST, ArityMessage)
  {
  }

  /** Two arguments, neither an event: a 400 naming the missing event type. */
  lemma MissingEventIsBadRequest(req: Request, arguments: seq<Argument>)
    requires req.httpMethod == "POST" && req.validationHeader.None?
    requires |arguments| == 2 && !arguments[0].EventArg? && !arguments[1].EventArg?
    ensures Invoke(req, arguments) == HttpError(SC_BAD_REQUEST, NoEventMessage)
  {
  }

  /** Two arguments with an event, but no string argument or a blank first
      string argument: a 400 naming the missing payload. */
  lemma BlankPayloadIsBadRequest(req: Request, arguments: seq<Argument>)
    requires req.httpMethod == "POST" && req.validationHeader.None?
    requires |arguments| == 2 && (arguments[0].EventArg? || arguments[1].EventArg?)
    requires FirstString(arguments).None? || IsBlank(FirstString(arguments).value)
    ensures Invoke(req, arguments) == HttpError(SC_BAD_REQUEST, NoPayloadMessage)
  {
  }
}
