/** The ASGI side of one HTTP request: what the stream emits for the app's
    messages and what it passes on to the app. */
module HttpStreams {
  import opened Common

  datatype State = REQUEST | RESPONSE | TRAILERS | CLOSED

  datatype Scope = Scope(isHead: bool, version: Version, headers: Headers)

  datatype Version = Http1 | Http2 | Http3

  /** The versions with trailers, push and early hints. */
  predicate IsModern(v: Version) { v != Http1 }

  datatype Start = Start(status: nat, trailers: bool)

  /** Messages of the app; Finished stands for the end of the app. */
  datatype Message =
    | StartMessage(status: nat, trailers: bool, headers: Headers)
    | BodyMessage(body: Bytes, more: bool)
    | TrailersMessage(headers: Headers, more: bool)
    | HintMessage(links: seq<Bytes>)
    | PushMessage(pathIsText: bool, headers: Headers)
    | OtherMessage
    | Finished

  /** Events handed to the protocol. */
  datatype Event =
    | Informational(status: nat, headers: Headers)
    | Response(status: nat, headers: Headers)
    | Body(data: Bytes)
    | Trailers(headers: Headers)
    | EndBody
    | StreamClosed
    | PushRequest(headers: Headers)

  /** Events coming from the protocol. */
  datatype Inbound =
    | Request(scope: Scope, knownServer: bool)
    | RequestBody(data: Bytes)
    | RequestEnd
    | Closing

  /** Messages for the app. */
  datatype ToApp = AppBody(body: Bytes) | AppBodyEnd | Disconnect

  /** `app` says whether the app was started. */
  datatype Http = Http(
    state: State,
    closed: bool,
    response: Option<Start>,
    trailerHeaders: Headers,
    scope: Option<Scope>,
    app: bool)

  const FRESH := Http(REQUEST, false, None, [], None, false)

  const COLON: Byte := 58

  /** Pseudo headers and nameless headers make the source raise. */
  predicate ValidHeaders(headers: Headers)
  {
    forall i :: 0 <= i < |headers| ==> headers[i].0 != [] && headers[i].0[0] != COLON
  }

  /** The bytes that Python's `bytes.strip` takes off both ends. */
  predicate IsSpace(b: Byte) { b in {9, 10, 11, 12, 13, 32} }

  function StripFront(b: Bytes): Bytes
  {
    if b != [] && IsSpace(b[0]) then StripFront(b[1..]) else b
  }

  function StripBack(b: Bytes): Bytes
  {
    if b != [] && IsSpace(Last(b)) then StripBack(Front(b)) else b
  }

  function Strip(b: Bytes): Bytes { StripBack(StripFront(b)) }

  /** The headers of a message as they are sent. */
  function Built(headers: Headers): Headers
  {
    if headers == [] then []
    else Built(Front(headers)) + [(Strip(Last(headers).0), Strip(Last(headers).1))]
  }

  const LINK: Bytes := [108, 105, 110, 107]

  function LinkHeaders(links: seq<Bytes>): Headers
  {
    if links == [] then [] else LinkHeaders(Front(links)) + [(LINK, Strip(Last(links)))]
  }

  /** Section 6.4.1 of RFC 9110: no content in answers to HEAD, in 1xx, 204
      and 304 answers. */
  predicate Suppressed(isHead: bool, status: nat)
  {
    isHead || 100 <= status < 200 || status == 204 || status == 304
  }

  const TE: Bytes := [116, 101]
  const TRAILERS_VALUE: Bytes := [116, 114, 97, 105, 108, 101, 114, 115]

  /** The client said it takes trailers. */
  predicate TakesTrailers(headers: Headers)
  {
    (TE, TRAILERS_VALUE) in headers
  }

  /** What one message comes to.  `raised` is true where the source raises an
      exception into the app; the events were emitted before it. */
  datatype Reply = Reply(next: Http, events: seq<Event>, raised: bool)

  function Refuse(h: Http): Reply { Reply(h, [], true) }

  const CONTENT_LENGTH: Bytes := [99, 111, 110, 116, 101, 110, 116, 45, 108, 101, 110, 103, 116, 104]
  const CONNECTION: Bytes := [99, 111, 110, 110, 101, 99, 116, 105, 111, 110]

  /** `content-length: 0` and `connection: close`. */
  const ERROR_HEADERS: Headers := [(CONTENT_LENGTH, [48]), (CONNECTION, [99, 108, 111, 115, 101])]

  function ErrorResponse(status: nat): seq<Event> { [Response(status, ERROR_HEADERS), EndBody] }

  /** `_send_closed`; it reads the response for the access log after EndBody
      was sent, which raises when there never was one. */
  function SendClosed(h: Http, before: seq<Event>): Reply
  {
    if h.response == None then Reply(h.(state := CLOSED), before + [EndBody], true)
    else Reply(h.(state := CLOSED), before + [EndBody, StreamClosed], false)
  }

  function AppSend(h: Http, m: Message): Reply
    requires h.scope.Some?
  {
    var scope := h.scope.value;
    match m
    case Finished =>
      if h.closed then Reply(h, [], false)
      else if h.state == REQUEST then
        Reply(h.(state := CLOSED), ErrorResponse(500) + [StreamClosed], false)
      else Reply(h, [StreamClosed], false)
    case StartMessage(status, trailers, headers) =>
      if h.state != REQUEST then Refuse(h)
      else
        var h1 := h.(response := Some(Start(status, trailers)));
        if !ValidHeaders(headers) then Refuse(h1)
        else Reply(h1.(state := RESPONSE), [Response(status, Built(headers))], false)
    case PushMessage(pathIsText, headers) =>
      if !IsModern(scope.version) || !pathIsText || !ValidHeaders(headers) then Refuse(h)
      else Reply(h, [PushRequest(Built(headers))], false)
    case HintMessage(links) =>
      if !IsModern(scope.version) || h.state != REQUEST then Refuse(h)
      else Reply(h, [Informational(103, LinkHeaders(links))], false)
    case BodyMessage(body, more) =>
      if h.state != RESPONSE || h.response == None then Refuse(h)
      else
        var events := if Suppressed(scope.isHead, h.response.value.status) || body == [] then []
                      else [Body(body)];
        if more then Reply(h, events, false)
        else if h.response.value.trailers then Reply(h.(state := TRAILERS), events, false)
        else SendClosed(h, events)
    case TrailersMessage(headers, more) =>
      if !IsModern(scope.version) then Refuse(h)
      else if h.state == REQUEST then EarlyTrailers(h, headers, more)
      else if h.state == TRAILERS then LateTrailers(h, headers, more)
      else Refuse(h)
    case OtherMessage => Refuse(h)
  }

  /** Trailers as the app's first answer become the response headers, but only
      for a client that takes trailers. */
  function EarlyTrailers(h: Http, headers: Headers, more: bool): Reply
    requires h.scope.Some?
  {
    if TakesTrailers(h.scope.value.headers) then
      if !ValidHeaders(headers) then Refuse(h)
      else
        var h1 := h.(response := Some(Start(200, false)), state := TRAILERS);
        if more then Reply(h1, [Response(200, Built(headers))], false)
        else SendClosed(h1, [Response(200, Built(headers))])
    else if more then Reply(h, [], false)
    else SendClosed(h, [])
  }

  function LateTrailers(h: Http, headers: Headers, more: bool): Reply
    requires h.scope.Some?
  {
    if TakesTrailers(h.scope.value.headers) && !ValidHeaders(headers) then Refuse(h)
    else
      var h1 := if TakesTrailers(h.scope.value.headers)
                then h.(trailerHeaders := h.trailerHeaders + Built(headers)) else h;
      if more then Reply(h1, [], false)
      else SendClosed(h1, if h1.trailerHeaders == [] then [] else [Trailers(h1.trailerHeaders)])
  }

  /** What one inbound event comes to: the new state, the events emitted (an
      error response) and the messages for the app. */
  function Handle(h: Http, e: Inbound): (Http, seq<Event>, seq<ToApp>)
  {
    if h.closed then (h, [], [])
    else
      match e
      case Request(scope, knownServer) =>
        if knownServer then (h.(scope := Some(scope), app := true), [], [])
        else (h.(scope := Some(scope), state := CLOSED, closed := true), ErrorResponse(404), [])
      case RequestBody(data) => (h, [], if h.app then [AppBody(data)] else [])
      case RequestEnd => (h, [], if h.app then [AppBodyEnd] else [])
      case Closing => (h.(closed := true), [], if h.app then [Disconnect] else [])
  }

  class HTTPStream {
    var state: State
    var closed: bool
    var response: Option<Start>
    var trailerHeaders: Headers
    var scope: Option<Scope>
    var app: bool
    /** What went through `send` and what went through `app_put`. */
    var sent: seq<Event>
    var put: seq<ToApp>

    ghost function View(): Http
      reads this
    {
      Http(state, closed, response, trailerHeaders, scope, app)
    }

    constructor ()
      ensures View() == FRESH && sent == [] && put == []
    {
      state, closed, response, trailerHeaders, scope, app := REQUEST, false, None, [], None, false;
      sent, put := [], [];
    }

    method SendErrorResponse(status: nat)
      modifies this`sent, this`state
      ensures sent == old(sent) + ErrorResponse(status) && state == CLOSED
    {
      sent := sent + [Response(status, ERROR_HEADERS)];
      sent := sent + [EndBody];
      state := CLOSED;
    }

    method HandleEvent(event: Inbound)
      modifies this
      ensures View() == Handle(old(View()), event).0
      ensures sent == old(sent) + Handle(old(View()), event).1
      ensures put == old(put) + Handle(old(View()), event).2
    {
      if closed {
        return;
      }
      match event
      case Request(s, knownServer) => {
        scope := Some(s);
        if knownServer {
          app := true;
        } else {
          SendErrorResponse(404);
          closed := true;
        }
      }
      case RequestBody(data) => {
        if app {
          put := put + [AppBody(data)];
        }
      }
      case RequestEnd => {
        if app {
          put := put + [AppBodyEnd];
        }
      }
      case Closing => {
        closed := true;
        if app {
          put := put + [Disconnect];
        }
      }
    }

    /** The loop over the request headers in the two trailers branches. */
    method FindTakesTrailers(headers: Headers) returns (found: bool)
      ensures found <==> TakesTrailers(headers)
      ensures found <==> exists n :: 0 <= n < |headers| && headers[n].0 == [116, 101]
                                     && headers[n].1 == [116, 114, 97, 105, 108, 101, 114, 115]
    {
      for n := 0 to |headers|
        invariant (TE, TRAILERS_VALUE) !in headers[..n]
      {
        if headers[n].0 == TE && headers[n].1 == TRAILERS_VALUE {
          assert headers[n] == (TE, TRAILERS_VALUE);
          return true;
        }
      }
      assert headers[..|headers|] == headers;
      return false;
    }

    /** `build_and_validate_headers`; None where it raises. */
    method BuildHeaders(headers: Headers) returns (built: Option<Headers>)
      ensures built == if ValidHeaders(headers) then Some(Built(headers)) else None
      ensures built == None <==> exists n :: 0 <= n < |headers| && (headers[n].0 == [] || headers[n].0[0] == 58)
    {
      var done: Headers := [];
      for n := 0 to |headers|
        invariant ValidHeaders(headers[..n]) && done == Built(headers[..n])
      {
        var (name, value) := headers[n];
        if name == [] || name[0] == COLON {
          assert headers[n].0 == name;
          return None;
        }
        assert Front(headers[..n + 1]) == headers[..n];
        done := done + [(Strip(name), Strip(value))];
      }
      assert headers[..|headers|] == headers;
      return Some(done);
    }

    method BuildLinks(links: seq<Bytes>) returns (built: Headers)
      ensures built == LinkHeaders(links)
    {
      built := [];
      for n := 0 to |links|
        invariant built == LinkHeaders(links[..n])
      {
        assert Front(links[..n + 1]) == links[..n];
        built := built + [(LINK, Strip(links[n]))];
      }
      assert links[..|links|] == links;
    }

    /** `_send_closed`; returns whether it raised. */
    method Close() returns (raised: bool)
      modifies this`sent, this`state
      ensures var r := SendClosed(old(View()), []);
              View() == r.next && sent == old(sent) + r.events && raised == r.raised
    {
      sent := sent + [EndBody];
      state := CLOSED;
      if response == None {
        return true;
      }
      sent := sent + [StreamClosed];
      return false;
    }

    /** `app_send`; returns whether it raised. */
    method Send(message: Message) returns (raised: bool)
      requires scope.Some?
      modifies this
      ensures var r := AppSend(old(View()), message);
              View() == r.next && sent == old(sent) + r.events && raised == r.raised
      ensures put == old(put)
    {
      match message
      case Finished => {
        if !closed {
          if state == REQUEST {
            SendErrorResponse(500);
          }
          sent := sent + [StreamClosed];
        }
        return false;
      }
      case StartMessage(status, trailers, headers) => {
        if state != REQUEST {
          return true;
        }
        response := Some(Start(status, trailers));
        var built := BuildHeaders(headers);
        if built == None {
          return true;
        }
        sent := sent + [Response(status, built.value)];
        state := RESPONSE;
        return false;
      }
      case PushMessage(pathIsText, headers) => {
        if !IsModern(scope.value.version) || !pathIsText {
          return true;
        }
        var built := BuildHeaders(headers);
        if built.Some? {
          sent := sent + [PushRequest(built.value)];
        }
        return built == None;
      }
      case HintMessage(links) => {
        if !IsModern(scope.value.version) || state != REQUEST {
          return true;
        }
        var headers := BuildLinks(links);
        sent := sent + [Informational(103, headers)];
        return false;
      }
      case BodyMessage(body, more) => {
        raised := SendBody(body, more);
      }
      case TrailersMessage(headers, more) => {
        raised := SendTrailers(headers, more);
      }
      case OtherMessage => {
        return true;
      }
    }

    method SendBody(body: Bytes, more: bool) returns (raised: bool)
      requires scope.Some?
      modifies this`sent, this`state
      ensures var r := AppSend(old(View()), BodyMessage(body, more));
              View() == r.next && sent == old(sent) + r.events && raised == r.raised
    {
      if state != RESPONSE || response == None {
        return true;
      }
      if !Suppressed(scope.value.isHead, response.value.status) && body != [] {
        sent := sent + [Body(body)];
      }
      if more {
        return false;
      }
      if response.value.trailers {
        state := TRAILERS;
        return false;
      }
      raised := Close();
    }

    method SendTrailers(headers: Headers, more: bool) returns (raised: bool)
      requires scope.Some?
      modifies this`sent, this`state, this`response, this`trailerHeaders
      ensures var r := AppSend(old(View()), TrailersMessage(headers, more));
              View() == r.next && sent == old(sent) + r.events && raised == r.raised
    {
      if !IsModern(scope.value.version) || (state != REQUEST && state != TRAILERS) {
        return true;
      }
      var takes := FindTakesTrailers(scope.value.headers);
      var early := state == REQUEST;
      if takes {
        var built := BuildHeaders(headers);
        if built == None {
          return true;
        }
        if early {
          response := Some(Start(200, false));
          sent := sent + [Response(200, built.value)];
          state := TRAILERS;
        } else {
          trailerHeaders := trailerHeaders + built.value;
        }
      }
      if more {
        return false;
      }
      if !early && trailerHeaders != [] {
        sent := sent + [Trailers(trailerHeaders)];
      }
      raised := Close();
    }
  }
}
