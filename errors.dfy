/** The error taxonomy of the handshake and the three code tables that map a
    wire error (code + message) to it: connection phase (connect.go:139-158),
    item phase (connect.go:164-174) and disconnection phase (connect.go:107-121).
    In every table a non-empty message wins and the code is then ignored. */
module Errors {
  import opened Wire

  /** The errors the core raises from wire payloads, one constructor per
      message that connect.go formats. */
  datatype Error =
    | Explicit(message: string)          // a non-empty wire message, verbatim
    | BadRequest
    | ManifestNotFound
    | ManifestContentError
    | UnknownApp
    | UserDeclined
    | UnknownConnectionError
    | MethodNotSupported(capability: string)
    | MethodUnknownError(capability: string)
    | UnknownDisconnectionError

  /** What a handshake call returns in its error position. */
  datatype Failure =
    | Protocol(err: Error)               // one mapped wire error
    | JoinedErrors(errs: seq<Error>)     // errors.Join of the per-item errors
    | Cancelled                          // ctx.Err(): the wait ended without a decisive message
    | SendFailed                         // the transport refused the disconnect request

  /** The connection-phase code table: the reference the mapper is checked against. */
  const ConnectCodes: map<int, Error> :=
    map[1 := BadRequest, 2 := ManifestNotFound, 3 := ManifestContentError,
        100 := UnknownApp, 300 := UserDeclined]

  /** The disconnection-phase code table. */
  const DisconnectCodes: map<int, Error> :=
    map[1 := BadRequest, 100 := UnknownApp, 400 := MethodNotSupported("sendTransaction")]

  /** getConnectError: a non-empty message is used verbatim, otherwise the
      code is looked up in the connection-phase table. */
  function ConnectError(p: Payload): (r: Error)
    ensures r.Explicit? <==> p.message != ""
    ensures r.Explicit? ==> r.message == p.message
    ensures p.message == "" && p.code in ConnectCodes ==> r == ConnectCodes[p.code]
    ensures p.message == "" && p.code !in ConnectCodes ==> r == UnknownConnectionError
  {
    if p.message != "" then Explicit(p.message)
    else if p.code == 1 then BadRequest
    else if p.code == 2 then ManifestNotFound
    else if p.code == 3 then ManifestContentError
    else if p.code == 100 then UnknownApp
    else if p.code == 300 then UserDeclined
    else UnknownConnectionError
  }

  /** The error switch applied to a correlated disconnect reply. */
  function DisconnectError(e: WireError): (r: Error)
    ensures r.Explicit? <==> e.message != ""
    ensures r.Explicit? ==> r.message == e.message
    ensures e.message == "" && e.code in DisconnectCodes ==> r == DisconnectCodes[e.code]
    ensures e.message == "" && e.code !in DisconnectCodes ==> r == UnknownDisconnectionError
  {
    if e.message != "" then Explicit(e.message)
    else if e.code == 1 then BadRequest
    else if e.code == 100 then UnknownApp
    else if e.code == 400 then MethodNotSupported("sendTransaction")
    else UnknownDisconnectionError
  }

  /** The per-item error of getConnectItems, attributed to the item's name. */
  function ItemError(name: string, e: WireError): (r: Error)
    ensures r.Explicit? <==> e.message != ""
    ensures r.Explicit? ==> r.message == e.message
    ensures r.MethodNotSupported? <==> e.message == "" && e.code == 400
    ensures r.Explicit? || r.MethodNotSupported? || r.MethodUnknownError?
    ensures !r.Explicit? ==> r.capability == name
  {
    if e.message != "" then Explicit(e.message)
    else if e.code == 400 then MethodNotSupported(name)
    else MethodUnknownError(name)
  }

  /** errors.Join: no error for an empty list, otherwise one error holding all. */
  function Join(errs: seq<Error>): (r: Option<Failure>)
    ensures r.None? <==> |errs| == 0
    ensures r.Some? ==> r.value.JoinedErrors? && r.value.errs == errs
  {
    if |errs| == 0 then None else Some(JoinedErrors(errs))
  }

  /** Go's %q verb for a plain name (escapes are not modelled). */
  function Quote(s: string): (r: string)
    ensures |r| == |s| + 2 && r[0] == '"' && r[|r| - 1] == '"'
    ensures r[1..|r| - 1] == s
  {
    "\"" + s + "\""
  }

  /** The text of each error as connect.go formats it. */
  function Text(e: Error): (t: string)
    ensures |t| >= 12 && t[..12] == "tonconnect: "
  {
    match e
    case Explicit(m) => "tonconnect: " + m
    case BadRequest => "tonconnect: bad request"
    case ManifestNotFound => "tonconnect: app manifest not found"
    case ManifestContentError => "tonconnect: app manifest content error"
    case UnknownApp => "tonconnect: unknown app"
    case UserDeclined => "tonconnect: user declined the connection"
    case UnknownConnectionError => "tonconnect: unknown connection error"
    case MethodNotSupported(m) => "tonconnect: " + Quote(m) + " method is not supported"
    case MethodUnknownError(m) => "tonconnect: " + Quote(m) + " method unknown error"
    case UnknownDisconnectionError => "tonconnect: unknown disconnection error"
  }

  /** The text of a joined error: the texts of its parts separated by newlines. */
  function JoinedText(errs: seq<Error>): (t: string)
    requires |errs| > 0
    ensures |t| >= |Text(errs[0])|
    ensures t[..|Text(errs[0])|] == Text(errs[0])
  {
    if |errs| == 1 then Text(errs[0]) else Text(errs[0]) + "\n" + JoinedText(errs[1..])
  }

  /** With a message present the code plays no part, in every phase. */
  lemma MessageOverridesCode(p: Payload, q: Payload, e: WireError, f: WireError, a: string, b: string)
    requires p.message != "" && p.message == q.message
    requires e.message != "" && e.message == f.message
    ensures ConnectError(p) == ConnectError(q)
    ensures DisconnectError(e) == DisconnectError(f)
    ensures ItemError(a, e) == Explicit(e.message) == ItemError(b, f)
  {
  }

  /** The connection and disconnection tables agree on the codes they share and
      keep distinct defaults, so an unknown code names its phase. */
  lemma PhaseDefaultsDiffer(p: Payload, e: WireError)
    requires p.message == "" && e.message == "" && p.code == e.code
    ensures p.code in {1, 100} ==> ConnectError(p) == DisconnectError(e)
    ensures p.code !in ConnectCodes && p.code !in DisconnectCodes ==>
              ConnectError(p) != DisconnectError(e)
  {
  }

  /** The text of an unsupported item method, spelled out for one name. */
  lemma MethodNotSupportedText()
    ensures Text(MethodNotSupported("b")) == "tonconnect: \"b\" method is not supported"
  {
    assert Quote("b") == "\"b\"";
  }

  /** The error values are typed, but their texts are not: a wire message that
      reads like a table entry yields the same text as the coded error, so a
      caller of the Go code cannot tell them apart by message text. */
  lemma ExplicitMessageImitatesCode()
    ensures Text(ConnectError(Payload(0, "bad request", [], NoDevice)))
         == Text(ConnectError(Payload(1, "", [], NoDevice)))
    ensures ConnectError(Payload(0, "bad request", [], NoDevice))
         != ConnectError(Payload(1, "", [], NoDevice))
  {
  }

  /** Code 400 has no entry in the connection-phase table: a bare 400 in a
      connect_error payload is an unknown connection error, while the same
      code on an item names the item's capability. */
  lemma Code400ByPhase(p: Payload, name: string)
    requires p.message == "" && p.code == 400
    ensures ConnectError(p) == UnknownConnectionError
    ensures ItemError(name, WireError(400, "")) == MethodNotSupported(name)
    ensures DisconnectError(WireError(400, "")) == MethodNotSupported("sendTransaction")
  {
  }
}
