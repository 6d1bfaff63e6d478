/**
 What the gateway makes of one upstream attempt: whether the breaker hears of a
 failure or a success, and whether the walk goes on, replies, or finishes the
 event stream it has begun.
 */
module Failover {

  const MaxAttempts := 2

  /** The flags left by a streaming attempt, together with the state of its frame sink. */
  datatype StreamOutcome = StreamOutcome(
    connected: bool,
    status: int,
    timedOut: bool,
    aborted: bool,
    headerStarted: bool,
    downstreamDead: bool)

  /** The flags left by a non-streaming attempt; status 0 means that no response arrived. */
  datatype UnaryOutcome = UnaryOutcome(connected: bool, status: int)

  datatype Outcome = Streamed(s: StreamOutcome) | Unary(u: UnaryOutcome)

  datatype Verdict = Failed | Succeeded | Unresolved

  datatype Next =
    | TryNext               // walk on; nothing was sent downstream
    | Reply(status: int)    // one JSON response
    | SseEmpty              // header, [DONE], terminator
    | SseError              // terminal error event, terminator
    | SseEnd                // terminator
    | HangUp                // the client is gone

  datatype Judgement = Judgement(verdict: Verdict, next: Next)

  /** The test made when nothing reached the client. */
  predicate UpstreamFailed(o: StreamOutcome) {
    o.status >= 400 || !o.connected || o.timedOut || o.aborted
  }

  function JudgeStream(o: StreamOutcome, mayRetry: bool): Judgement {
    if !o.headerStarted then
      if UpstreamFailed(o) then
        Judgement(Failed,
                  if mayRetry then TryNext
                  else if o.status >= 400 then Reply(o.status)
                  else if o.timedOut then Reply(504)
                  else Reply(502))
      else
        Judgement(Succeeded, SseEmpty)
    else if o.downstreamDead then
      Judgement(Unresolved, HangUp)
    else if o.aborted || o.timedOut then
      Judgement(Failed, SseError)
    else
      Judgement(Succeeded, SseEnd)
  }

  function JudgeUnary(o: UnaryOutcome, mayRetry: bool): Judgement {
    if !o.connected then Judgement(Failed, TryNext)
    else if o.status >= 500 then Judgement(Failed, if mayRetry then TryNext else Reply(o.status))
    else if o.status >= 400 then Judgement(Succeeded, Reply(o.status))
    else Judgement(Succeeded, Reply(200))
  }

  function Judge(o: Outcome, mayRetry: bool): Judgement {
    match o
    case Streamed(s) => JudgeStream(s, mayRetry)
    case Unary(u) => JudgeUnary(u, mayRetry)
  }

  /**
   The outcomes the read loop can leave behind: a stream that sent nothing and was
   not told to stop by a dead client has failed, and an abort is never blamed on a
   stream that a dead client stopped.
   */
  predicate Feasible(o: StreamOutcome) {
    && (!o.headerStarted && !o.downstreamDead ==> UpstreamFailed(o))
    && (o.downstreamDead ==> !o.aborted && o.connected && o.status < 400)
    && (o.headerStarted ==> o.connected && o.status < 400)
  }

  // ------------------------------------------------------------- unary calls

  /** A non-streaming upstream: unreachable, silent or broken after connecting, or answering. */
  datatype UnaryUpstream = Unreachable | Silent | Answered(status: int)

  /** How far the call gets, as its result records it. */
  function Collect(up: UnaryUpstream): UnaryOutcome {
    match up
    case Unreachable => UnaryOutcome(false, 0)
    case Silent => UnaryOutcome(true, 0)
    case Answered(status) => UnaryOutcome(true, status)
  }

  /** The upstream served the request: it answered with anything but a server error. */
  predicate ServedUnary(up: UnaryUpstream) {
    up.Answered? && up.status < 500
  }
}
