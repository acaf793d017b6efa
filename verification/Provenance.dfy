/** Where an upstream failure happened and how much of the request can have left. */
module Provenance {

  datatype Class =
    | Success | ConnectionError | ProxyAuthError | Timeout
    | Upstream429 | Upstream5xx | ClientError | ContextCanceled

  datatype Origin = NoOrigin | FromUpstream | Ambiguous | FromTransport | FromClient

  datatype Phase =
    | NoPhase
    | ProxyConnect | ProxyTLS | ProxyAuth
    | Socks5Greeting | Socks5Auth | Socks5Connect
    | ConnectWrite | ConnectRead
    | TargetConnect | OriginTLS
    | RequestWrite | ResponseHeaders | ResponseBody

  datatype RequestState = Unknown | NotSent | ResponseStarted

  datatype Failure = Failure(class_: Class, origin: Origin, phase: Phase, state: RequestState)

  /** The typed facts classification reads off a transport error. */
  datatype NetError = NetError(proxyAuth: bool, timeout: bool, op: Direction)
  datatype Direction = NoDirection | WriteOp | ReadOp

  predicate ReplaySafe(f: Failure) {
    f.origin == FromTransport && f.state == NotSent
  }

  predicate MarksEgressHealth(f: Failure) {
    f.origin == FromTransport &&
    match f.phase
    case ProxyConnect | ProxyTLS | ProxyAuth | Socks5Greeting | Socks5Auth | ConnectWrite => true
    case _ => false
  }

  function ClassifyNetErr(canceled: bool, err: NetError): Class {
    if canceled then ContextCanceled
    else if err.proxyAuth then ProxyAuthError
    else if err.timeout then Timeout
    else ConnectionError
  }

  function ClassifyStatus(status: int): Class {
    if status == 429 then Upstream429 else if status >= 500 then Upstream5xx else ClientError
  }

  /** A response's authorship and request state follow the path, never the status. */
  function ResponseOrigin(intermediated: bool): Origin { if intermediated then Ambiguous else FromUpstream }

  function ResponseState(intermediated: bool): RequestState { if intermediated then Unknown else ResponseStarted }

  function StatusFailure(status: int, intermediated: bool): Failure {
    Failure(ClassifyStatus(status), ResponseOrigin(intermediated), ResponseHeaders, ResponseState(intermediated))
  }

  const NoDialFailure := Failure(ConnectionError, FromTransport, NoPhase, NotSent)

  // ---- one hop's record and the call's monotonic record ----

  datatype Hop = Hop(dialed: bool, dialOK: bool, wrote: bool, phase: Phase)
  datatype Call = Call(transmitted: bool, responded: bool)

  const FreshHop := Hop(false, false, false, NoPhase)

  /** What the transport reports on a hop. `Answered` is a redirect the standard library followed by itself. */
  datatype HopEvent = Begin(p: Phase) | Enter(p: Phase) | DialOk | Write | Answered

  function HopStep(h: Hop, e: HopEvent): Hop {
    match e
    case Begin(p) => h.(dialed := true, phase := p)
    case Enter(p) => h.(phase := p)
    case DialOk => h.(dialOK := true)
    case Write => h.(wrote := true)
    case Answered => h
  }

  function PostDialPhase(err: NetError): Phase {
    if err.timeout then ResponseHeaders
    else match err.op
         case WriteOp => RequestWrite
         case ReadOp => ResponseHeaders
         case NoDirection => NoPhase
  }

  function CallState(c: Call): RequestState { if c.responded then ResponseStarted else Unknown }

  /** The phase and request state a failure on this hop can be attributed. */
  function Attribute(h: Hop, c: Call, err: NetError): (Phase, RequestState) {
    var inherit := c.transmitted || c.responded;
    if !h.dialed then (NoPhase, if inherit then CallState(c) else Unknown)
    else if h.dialOK && h.wrote then (PostDialPhase(err), if inherit then CallState(c) else Unknown)
    else (if h.dialOK then NoPhase else h.phase, if inherit then CallState(c) else NotSent)
  }

  function TransportFailure(canceled: bool, err: NetError, h: Hop, c: Call): Failure {
    var class_ := ClassifyNetErr(canceled, err);
    if class_ == ContextCanceled then Failure(class_, FromClient, NoPhase, Unknown)
    else Failure(class_, FromTransport, Attribute(h, c, err).0, Attribute(h, c, err).1)
  }

  class CallTrace {
    var transmitted: bool
    var responded: bool

    constructor ()
      ensures View() == Call(false, false)
    {
      transmitted, responded := false, false;
    }

    ghost function View(): Call reads this { Call(transmitted, responded) }

    method NoteResponse()
      modifies this
      ensures View() == old(View()).(responded := true)
    {
      responded := true;
    }

    method State() returns (s: RequestState)
      ensures s == CallState(View())
    {
      if responded { s := ResponseStarted; } else { s := Unknown; }
    }
  }

  class DialTrace {
    const call: CallTrace
    var dialed: bool
    var dialOK: bool
    var wrote: bool
    var phase: Phase

    constructor (call: CallTrace)
      ensures this.call == call && View() == FreshHop
    {
      this.call := call;
      dialed, dialOK, wrote, phase := false, false, false, NoPhase;
    }

    ghost function View(): Hop reads this { Hop(dialed, dialOK, wrote, phase) }

    /** Applies one reported event; a write is stored on the hop and then on the call. */
    method Record(e: HopEvent)
      modifies this, call
      ensures View() == HopStep(old(View()), e)
      ensures call.View() == old(call.View()).(transmitted := old(call.transmitted) || e.Write?)
    {
      match e {
        case Begin(p) =>
          dialed := true;
          phase := p;
        case Enter(p) =>
          phase := p;
        case DialOk =>
          dialOK := true;
        case Write =>
          wrote := true;
          call.transmitted := true;
        case Answered =>
      }
    }

    method Provenance(err: NetError) returns (fp: Phase, s: RequestState)
      ensures (fp, s) == Attribute(View(), call.View(), err)
    {
      var inheritCall := call.transmitted || call.responded;
      if !dialed {
        if inheritCall {
          s := call.State();
          return NoPhase, s;
        }
        return NoPhase, Unknown;
      } else if !dialOK {
        fp := phase;
      } else if !wrote {
        fp := NoPhase;
      } else {
        fp := PostDialPhase(err);
        if inheritCall {
          s := call.State();
          return fp, s;
        }
        return fp, Unknown;
      }
      if inheritCall {
        s := call.State();
        return fp, s;
      }
      return fp, NotSent;
    }
  }

  /** The hop that failed can claim not_sent exactly when it dialed and nothing of the call left or was answered. */
  lemma NotSentIff(h: Hop, c: Call, err: NetError)
    requires h.wrote ==> c.transmitted
    ensures Attribute(h, c, err).1 == NotSent <==> h.dialed && !c.transmitted && !c.responded
  {
  }
}
