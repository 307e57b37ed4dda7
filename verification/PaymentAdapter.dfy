/** What the order service can learn from the payment service: the replies of its HTTP and gRPC transports, and how the
    two client adapters read them. */
module PaymentAdapter {
  import opened Text
  import P = PaymentProtocol

  datatype Adapter = Rest | Grpc

  /** Errors of the HTTP exchange itself. A cancelled request context is not among them: the statements that follow run on the same context
      and fail as well, so that to the databases the caller has crashed. */
  datatype Transport = DeadlineExceeded | TimedOut | ConnectionRefused | ConnectionReset

  /** A response carries its code and, when the body decodes, the status field. */
  datatype HttpReply = Response(code: int, status: Option<string>) | NoResponse(transport: Transport)

  /** The codes that can come back to a caller still there: `OtherCode` is any other than Canceled. */
  datatype RpcCode = InvalidArgumentCode | NotFoundCode | InternalCode | DeadlineExceededCode | UnavailableCode | OtherCode

  /** An error of the call may also carry no gRPC status at all. */
  datatype RpcReply = RpcOk(status: string) | RpcError(code: RpcCode) | RpcNoStatus

  datatype Reply = Http(http: HttpReply) | Rpc(rpc: RpcReply)

  /** The port's answers: a status, its four sentinel errors, or any other error. */
  datatype Answer = Status(status: string) | AlreadyRecorded | InvalidArgument | Unavailable | NotFound | OtherError

  function StatusText(status: P.PaymentStatus): string {
    match status
    case Authorized => "Authorized"
    case Declined => "Declined"
  }

  // ----- Server side ----------------------------------------------------------------------------

  /** POST /payments */
  function HttpCreate(outcome: P.Outcome): HttpReply {
    match outcome
    case Success(p) => Response(200, Some(StatusText(p.status)))
    case Refused(AmountNotPositive) => Response(400, None)
    case Refused(OrderIdRequired) => Response(400, None)
    case Refused(EmailRequired) => Response(400, None)
    case Refused(AlreadyExists) => Response(409, None)
    case Refused(Internal) => Response(500, None)
  }

  /** GET /payments/:order_id */
  function HttpGet(row: Option<P.Payment>): HttpReply {
    match row
    case Some(p) => Response(200, Some(StatusText(p.status)))
    case None => Response(404, None)
  }

  /** The gRPC method: an existing payment is one more internal error. */
  function RpcCreate(outcome: P.Outcome): RpcReply {
    match outcome
    case Success(p) => RpcOk(StatusText(p.status))
    case Refused(AmountNotPositive) => RpcError(InvalidArgumentCode)
    case Refused(OrderIdRequired) => RpcError(InvalidArgumentCode)
    case Refused(EmailRequired) => RpcError(InvalidArgumentCode)
    case Refused(AlreadyExists) => RpcError(InternalCode)
    case Refused(Internal) => RpcError(InternalCode)
  }

  function Served(adapter: Adapter, outcome: P.Outcome): Reply {
    match adapter
    case Rest => Http(HttpCreate(outcome))
    case Grpc => Rpc(RpcCreate(outcome))
  }

  // ----- Client side ----------------------------------------------------------------------------

  predicate IsUnavailable(t: Transport) {
    t.DeadlineExceeded? || t.TimedOut? || t.ConnectionRefused?
  }

  function RestAuthorize(r: HttpReply): Answer {
    match r
    case NoResponse(t) => if IsUnavailable(t) then Unavailable else OtherError
    case Response(code, status) =>
      if code == 200 then (if status.Some? then Status(status.value) else OtherError)
      else if code == 409 then AlreadyRecorded
      else if code == 400 then InvalidArgument
      else if code >= 500 then Unavailable
      else OtherError
  }

  function RestGetStatus(r: HttpReply): Answer {
    match r
    case NoResponse(t) => if IsUnavailable(t) then Unavailable else OtherError
    case Response(code, status) =>
      if code == 200 then (if status.Some? then Status(status.value) else OtherError)
      else if code == 404 then NotFound
      else if code == 500 || code == 502 || code == 503 || code == 504 then Unavailable
      else OtherError
  }

  function GrpcAuthorize(r: RpcReply): Answer {
    match r
    case RpcOk(status) => Status(status)
    case RpcError(InvalidArgumentCode) => InvalidArgument
    case RpcError(InternalCode) => Unavailable
    case RpcError(_) => OtherError
    case RpcNoStatus => Unavailable
  }

  function GrpcGetStatus(r: RpcReply): Answer {
    match r
    case RpcOk(status) => Status(status)
    case RpcError(NotFoundCode) => NotFound
    case _ => Unavailable
  }

  /** Authorize of the port. */
  function Authorize(r: Reply): Answer {
    match r
    case Http(h) => RestAuthorize(h)
    case Rpc(g) => GrpcAuthorize(g)
  }

  /** GetStatus of the port; behind gRPC no run gets as far as calling it. */
  function GetStatus(r: Reply): Answer {
    match r
    case Http(h) => RestGetStatus(h)
    case Rpc(g) => GrpcGetStatus(g)
  }

  /** An answer that claims nothing about the payment: an error with no such meaning, or a status the payment service has not got. */
  predicate ClaimsNothing(a: Answer) {
    a.Unavailable? || a.OtherError? || (a.Status? && a.status != StatusText(P.Authorized) && a.status != StatusText(P.Declined))
  }

  /** Replies that may arrive instead of the payment service's own, by endpoint: one reply can mean nothing
      to Authorize and something to GetStatus, as a 404 does. */
  predicate NoiseOnAuthorize(adapter: Adapter, r: Reply) {
    (r.Http? <==> adapter.Rest?) && ClaimsNothing(Authorize(r))
  }

  predicate NoiseOnGetStatus(adapter: Adapter, r: Reply) {
    (r.Http? <==> adapter.Rest?) && ClaimsNothing(GetStatus(r))
  }

  /** Only REST passes on that the payment exists; gRPC reports it as unavailable. Every other outcome reads alike. */
  lemma AdaptersDiffer(outcome: P.Outcome)
    ensures Authorize(Served(Rest, outcome)).AlreadyRecorded? <==> outcome == P.Refused(P.AlreadyExists)
    ensures !Authorize(Served(Grpc, outcome)).AlreadyRecorded?
    ensures Authorize(Served(Rest, outcome)) == Authorize(Served(Grpc, outcome)) <==> outcome != P.Refused(P.AlreadyExists)
    ensures forall adapter :: !Authorize(Served(adapter, outcome)).OtherError?
  {
  }

  // ----- What the replies mean, code by code -----------------------------------------------------

  /** The payment service could not be reached in time, or failed: the payment's outcome is unknown. */
  predicate Unreached(r: HttpReply) {
    r.NoResponse? && !r.transport.ConnectionReset?
  }

  predicate PostUnavailable(r: Reply) {
    match r
    case Http(h) => Unreached(h) || (h.Response? && h.code >= 500)
    case Rpc(g) => g.RpcNoStatus? || g == RpcError(InternalCode)
  }

  predicate QueryUnavailable(r: Reply) {
    match r
    case Http(h) => Unreached(h) || (h.Response? && (h.code == 500 || h.code == 502 || h.code == 503 || h.code == 504))
    case Rpc(g) => g.RpcNoStatus? || (g.RpcError? && !g.code.NotFoundCode?)
  }

  /** The reply carries this payment status. */
  predicate Carries(r: Reply, text: string) {
    r == Http(Response(200, Some(text))) || r == Rpc(RpcOk(text))
  }

  predicate PostRecorded(r: Reply) {
    r.Http? && r.http.Response? && r.http.code == 409
  }

  predicate PostInvalid(r: Reply) {
    (r.Http? && r.http.Response? && r.http.code == 400) || r == Rpc(RpcError(InvalidArgumentCode))
  }

  predicate QueryNotFound(r: Reply) {
    (r.Http? && r.http.Response? && r.http.code == 404) || r == Rpc(RpcError(NotFoundCode))
  }

  /** A generic error: the reply has no meaning to the client. */
  ghost predicate GenericOnPost(r: Reply) {
    !PostUnavailable(r) && !PostRecorded(r) && !PostInvalid(r) && forall text :: !Carries(r, text)
  }

  ghost predicate GenericOnQuery(r: Reply) {
    !QueryUnavailable(r) && !QueryNotFound(r) && forall text :: !Carries(r, text)
  }

  /** What the clients make of each reply to the POST and of each reply to the status query, over all codes and transports. */
  lemma RepliesReadAs(r: Reply)
    ensures Authorize(r).Unavailable? <==> PostUnavailable(r)
    ensures Authorize(r).AlreadyRecorded? <==> PostRecorded(r)
    ensures Authorize(r).InvalidArgument? <==> PostInvalid(r)
    ensures !Authorize(r).NotFound?
    ensures forall text :: Authorize(r) == Status(text) <==> Carries(r, text)
    ensures Authorize(r).OtherError? <==> GenericOnPost(r)
    ensures GetStatus(r).OtherError? <==> GenericOnQuery(r)
    ensures GetStatus(r).Unavailable? <==> QueryUnavailable(r)
    ensures GetStatus(r).NotFound? <==> QueryNotFound(r)
    ensures !GetStatus(r).AlreadyRecorded? && !GetStatus(r).InvalidArgument?
    ensures forall text :: GetStatus(r) == Status(text) <==> Carries(r, text)
  {
  }

  /** A status that the payment service has. */
  predicate Known(text: string) {
    text == "Authorized" || text == "Declined"
  }

  /** The replies to the POST, other than the service's own, on which an order is marked Failed: a connection reset, a code below 500 that is
      none of 200, 400 and 409, a 200 whose body does not decode or has an unknown status; behind gRPC every status code but
      InvalidArgument and Internal, and an unknown status. */
  predicate PostMisread(adapter: Adapter, r: Reply) {
    match r
    case Http(NoResponse(t)) => adapter.Rest? && t.ConnectionReset?
    case Http(Response(code, status)) =>
      adapter.Rest? && code < 500 && code != 400 && code != 409 && (code == 200 && status.Some? ==> !Known(status.value))
    case Rpc(RpcOk(text)) => adapter.Grpc? && !Known(text)
    case Rpc(RpcError(code)) => adapter.Grpc? && !code.InvalidArgumentCode? && !code.InternalCode?
    case Rpc(RpcNoStatus) => false
  }

  /** And to the status query: an unknown status. */
  predicate QueryMisread(adapter: Adapter, r: Reply) {
    match r
    case Http(Response(code, status)) => adapter.Rest? && code == 200 && status.Some? && !Known(status.value)
    case _ => false
  }

  /** The payment service's own replies, in full. */
  lemma OwnReplies(outcome: P.Outcome, row: Option<P.Payment>)
    ensures HttpGet(row) == if row.None? then Response(404, None)
                            else Response(200, Some(if row.value.status.Authorized? then "Authorized" else "Declined"))
    ensures outcome.Success? ==>
              forall adapter :: Carries(Served(adapter, outcome), if outcome.payment.status.Authorized? then "Authorized" else "Declined")
    ensures outcome.Refused? && outcome.why.AlreadyExists? ==>
              Served(Rest, outcome) == Http(Response(409, None)) && Served(Grpc, outcome) == Rpc(RpcError(InternalCode))
    ensures outcome.Refused? && outcome.why.Internal? ==>
              Served(Rest, outcome) == Http(Response(500, None)) && Served(Grpc, outcome) == Rpc(RpcError(InternalCode))
    ensures outcome.Refused? && !outcome.why.AlreadyExists? && !outcome.why.Internal? ==>
              Served(Rest, outcome) == Http(Response(400, None)) && Served(Grpc, outcome) == Rpc(RpcError(InvalidArgumentCode))
  {
  }
}
