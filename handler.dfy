/** The handler mounted for every AdminJS route (src/index.ts:136-173):
    it collects the multipart payload, calls the controller action and
    shapes the reply from the action's result. */
module Handler {
  import opened Wrappers
  import opened Text
  import opened Js
  import opened Routes
  import opened Auth

  /** One part of a multipart body. A file part carries a (truthy) file
      stream in `file`; a plain field has `file` unset and its content in
      `value`. */
  datatype Part = Part(fieldname: string, filename: string, file: JsValue, value: JsValue)

  /** The parts the stream yielded, and whether iterating it then threw
      (as it does at once for a request that is not multipart). */
  datatype PartStream = PartStream(parts: seq<Part>, throws: bool)

  /** The `payload` handed to the action: the dictionary filled from the
      parts, or the already-parsed request body. */
  datatype Payload = Fields(entries: map<string, JsValue>) | RequestBody(body: JsValue)

  /** The argument of `controller[route.action](...)`. */
  datatype ActionRequest = ActionRequest(params: map<string, string>, query: map<string, string>,
                                         payload: Payload, verb: string)

  /** The content-type header the handler sets, if any, and the body it
      sends, if any. */
  datatype HandlerReply = HandlerReply(contentType: Option<string>, body: Option<JsValue>)

  /** The dictionary key a part is stored under. */
  function PartKey(p: Part): string {
    if Truthy(p.file) then p.filename else p.fieldname
  }

  /** The value a part contributes. */
  function PartValue(p: Part): JsValue {
    if Truthy(p.file) then p.file else p.value
  }

  /** The dictionary after storing the given parts in order. */
  function Collect(parts: seq<Part>): (m: map<string, JsValue>)
    ensures |m| <= |parts|
    decreases |parts|
  {
    if parts == [] then map[]
    else
      var last := parts[|parts| - 1];
      Collect(parts[..|parts| - 1])[PartKey(last) := PartValue(last)]
  }

  /** The payload the handler ends up with for a stream and a parsed body. */
  function ExpectedPayload(stream: PartStream, body: JsValue): Payload {
    if stream.throws then RequestBody(body) else Fields(Collect(stream.parts))
  }

  /** The dictionary has exactly one key per distinct part key. */
  lemma {:induction false} CollectKeys(parts: seq<Part>)
    ensures forall k :: k in Collect(parts) <==> exists i :: 0 <= i < |parts| && PartKey(parts[i]) == k
    decreases |parts|
  {
    if parts != [] {
      var init := parts[..|parts| - 1];
      CollectKeys(init);
      assert forall i :: 0 <= i < |init| ==> init[i] == parts[i];
    }
  }

  /** A key holds the value of the LAST part stored under it: later parts
      overwrite earlier ones. */
  lemma {:induction false} CollectLastWins(parts: seq<Part>, j: nat)
    requires j < |parts|
    requires forall i :: j < i < |parts| ==> PartKey(parts[i]) != PartKey(parts[j])
    ensures PartKey(parts[j]) in Collect(parts)
    ensures Collect(parts)[PartKey(parts[j])] == PartValue(parts[j])
    decreases |parts|
  {
    if j < |parts| - 1 {
      var init := parts[..|parts| - 1];
      assert init[j] == parts[j];
      CollectLastWins(init, j);
    }
  }

  /** File parts are stored under their file name, other parts under their
      field name. */
  lemma FilePartsByFilename(parts: seq<Part>, j: nat)
    requires j < |parts|
    requires forall i :: j < i < |parts| ==> PartKey(parts[i]) != PartKey(parts[j])
    ensures Truthy(parts[j].file) ==>
      parts[j].filename in Collect(parts) && Collect(parts)[parts[j].filename] == parts[j].file
    ensures !Truthy(parts[j].file) ==>
      parts[j].fieldname in Collect(parts) && Collect(parts)[parts[j].fieldname] == parts[j].value
  {
    CollectLastWins(parts, j);
  }

  /** The payload-filling loop of lines 142-155. */
  method BuildPayload(stream: PartStream, body: JsValue) returns (payload: Payload)
    ensures payload == ExpectedPayload(stream, body)
    ensures stream.throws ==> payload == RequestBody(body)
  {
    var entries: map<string, JsValue> := map[];
    var i := 0;
    while i < |stream.parts|
      invariant 0 <= i <= |stream.parts|
      invariant entries == Collect(stream.parts[..i])
    {
      var part := stream.parts[i];
      if Truthy(part.file) {
        entries := entries[part.filename := part.file];
      } else {
        entries := entries[part.fieldname := part.value];
      }
      assert stream.parts[..i + 1][..i] == stream.parts[..i];
      i := i + 1;
    }
    assert stream.parts[..i] == stream.parts;
    if stream.throws {
      payload := RequestBody(body);
    } else {
      payload := Fields(entries);
    }
  }

  /** The content-type rule of lines 164-168: the route's own content type
      when it is a non-empty string, else `text/html` when the action
      returned a string, else nothing. */
  function ContentType(routeContentType: Option<string>, result: JsValue): (ct: Option<string>)
    ensures ct.Some? ==> ct.value != ""
    ensures ct.None? <==> (routeContentType.None? || routeContentType.value == "") && !result.Str?
  {
    if routeContentType.Some? && routeContentType.value != "" then routeContentType
    else if result.Str? then Some("text/html")
    else None
  }

  /** The reply shaped from the action's result (lines 164-172): a body is
      sent only for a truthy result. */
  function Respond(routeContentType: Option<string>, result: JsValue): (r: HandlerReply)
    ensures r.body.Some? <==> Truthy(result)
    ensures r.body.Some? ==> r.body.value == result
    ensures r.body.Some? && result.Str? ==> r.contentType.Some? && r.contentType.value != ""
    ensures r.contentType.Some? ==> r.contentType == routeContentType || r.contentType == Some("text/html")
  {
    HandlerReply(ContentType(routeContentType, result), if Truthy(result) then Some(result) else None)
  }

  /** Which content type wins, case by case. */
  lemma ContentTypeCases(routeContentType: Option<string>, result: JsValue)
    ensures routeContentType.Some? && routeContentType.value != "" ==>
      Respond(routeContentType, result).contentType == routeContentType
    ensures (routeContentType.None? || routeContentType.value == "") && result.Str? ==>
      Respond(routeContentType, result).contentType == Some("text/html")
    ensures (routeContentType.None? || routeContentType.value == "") && !result.Str? ==>
      Respond(routeContentType, result).contentType.None?
    ensures Respond(routeContentType, Str("")) == HandlerReply(
      if routeContentType.Some? && routeContentType.value != "" then routeContentType else Some("text/html"), None)
  {
  }

  /** `request.session && request.session.adminUser`: the user handed to the
      controller; there is no session at all when authentication is off. */
  function ControllerUser(session: Option<SessionState>): (u: JsValue)
    ensures Truthy(u) <==> session.Some? && Truthy(session.value.adminUser)
    ensures session.None? ==> u == Undefined
    ensures session.Some? ==> u == session.value.adminUser
  {
    if session.None? then Undefined else session.value.adminUser
  }

  /** One request to a mounted AdminJS route. The controller built from the
      descriptor and the user, and its action, are the opaque `action`. */
  method HandleRoute(route: RouteDescriptor, session: Option<SessionState>,
                     params: map<string, string>, query: map<string, string>,
                     stream: PartStream, body: JsValue, verb: string,
                     action: (JsValue, ActionRequest) -> JsValue)
    returns (reply: HandlerReply)
    ensures var request := ActionRequest(params, query, ExpectedPayload(stream, body), LowerAscii(verb));
      reply == Respond(route.contentType, action(ControllerUser(session), request))
  {
    var user := ControllerUser(session);
    var payload := BuildPayload(stream, body);
    var result := action(user, ActionRequest(params, query, payload, LowerAscii(verb)));
    reply := Respond(route.contentType, result);
  }
}
