/**
 * `MultiThreadedServer`: validates `/v0/entity` requests, picks the node that
 * serves them, consults that node's circuit breaker, and either serves the
 * request from the local dao or forwards it and relays the peer's answer.
 *
 * Behaviour as written, which the contracts below state: the node chosen is
 * always the last one of the cluster list; a tripped (`Closed`) breaker sends
 * `SERVICE_UNAVAILABLE` and then handles the request anyway; the breaker is
 * told of a success only after a successful probe. The request runs to
 * completion on the calling thread; the HTTP exchange with the peer is the
 * parameter `forward`, and the clock is read as `now` when the breaker is
 * consulted and as `failedAt` when a failed forward is recorded.
 */
module Server {
  import opened Common
  import opened EngineState
  import opened Http
  import opened EntityHandler
  import Utf8
  import ScheredinDao
  import CB = CircuitBreakers

  const EntityPath: string := "/v0/entity"

  /** Every cluster URL's breaker is a `CircuitBreaker(20, 1000)`. */
  const BreakerFailureThreshold: CB.Int32 := 20
  const BreakerRetryTimeoutMilliseconds: CB.Int32 := 1000

  /** The parts of a one.nio `Request` the server reads. */
  datatype Request = Request(path: string, id: Option<string>, verb: HttpMethod, body: Bytes)

  /** What `client.send` to the peer does: a response with its status code and
      body, or an `IOException`/`InterruptedException` with its message. */
  datatype ForwardResult = Replied(code: int, body: Bytes) | ForwardFailed(message: Option<string>)

  /** An exception that escapes the request task without a response being sent
      for it: the `NullPointerException` of an empty cluster, the
      `IllegalArgumentException` of an unlisted status code, or one from the dao. */
  datatype Fault = NoNodes | UnknownStatusCode(code: int) | DaoFault(error: DaoError)

  /** `session.sendError(code, message)`: the message's bytes, or an empty body. */
  function ErrorBody(message: Option<string>): Bytes {
    if message.None? then Empty else Utf8.Encode(message.value)
  }

  predicate ValidRequest(request: Request) {
    request.path == EntityPath && !IsIncorrectId(request.id)
  }

  class MultiThreadedServer {
    const clusterUrls: seq<string>
    const selfUrl: string
    const circuitBreakersMap: map<string, CB.CircuitBreaker>
    const dao: ScheredinDao.MemorySegmentDao

    ghost predicate Valid() {
      forall u :: u in clusterUrls ==> u in circuitBreakersMap
    }

    /** The breaker of the node `getNodeIndex` picks. */
    function Owner(): CB.CircuitBreaker
      requires Valid() && |clusterUrls| > 0
    {
      circuitBreakersMap[clusterUrls[|clusterUrls| - 1]]
    }

    /** The only breaker a request can change. */
    function Routed(): set<CB.CircuitBreaker>
      requires Valid()
    {
      if |clusterUrls| > 0 then {Owner()} else {}
    }

    /** The server over the dao `start()` opens; one fresh breaker per cluster URL. */
    constructor (clusterUrls: seq<string>, selfUrl: string, dao: ScheredinDao.MemorySegmentDao)
      ensures this.clusterUrls == clusterUrls && this.selfUrl == selfUrl && this.dao == dao
      ensures Valid()
      ensures circuitBreakersMap.Keys == set u | u in clusterUrls
      ensures forall u :: u in circuitBreakersMap ==>
                fresh(circuitBreakersMap[u])
                && circuitBreakersMap[u].failureThreshold == BreakerFailureThreshold
                && circuitBreakersMap[u].retryTimeoutMilliseconds == BreakerRetryTimeoutMilliseconds
                && circuitBreakersMap[u].Snap() == CB.Initial
    {
      var breakers: map<string, CB.CircuitBreaker> := map[];
      for i := 0 to |clusterUrls|
        invariant breakers.Keys == set j | 0 <= j < i :: clusterUrls[j]
        invariant forall u :: u in breakers ==>
                    fresh(breakers[u])
                    && breakers[u].failureThreshold == BreakerFailureThreshold
                    && breakers[u].retryTimeoutMilliseconds == BreakerRetryTimeoutMilliseconds
                    && breakers[u].Snap() == CB.Initial
      {
        var breaker := new CB.CircuitBreaker(BreakerFailureThreshold, BreakerRetryTimeoutMilliseconds);
        breakers := breakers[clusterUrls[i] := breaker];
      }
      assert forall u :: u in clusterUrls ==> exists j :: 0 <= j < |clusterUrls| && clusterUrls[j] == u;
      this.clusterUrls := clusterUrls;
      this.selfUrl := selfUrl;
      this.circuitBreakersMap := breakers;
      this.dao := dao;
    }

    /** `getNodeIndex(id)`: the loop assigns every index in turn, so it ends on
        the last one whatever the id; null for an empty cluster. (The hash
        products it also computes are never used and are not modelled.) */
    method GetNodeIndex(id: string) returns (index: Option<nat>)
      ensures index.None? <==> |clusterUrls| == 0
      ensures index.Some? ==> index.value == |clusterUrls| - 1
    {
      index := None;
      var nodes := clusterUrls;
      var i := 0;
      while i < |nodes|
        invariant 0 <= i <= |nodes|
        invariant i == 0 ==> index.None?
        invariant i > 0 ==> index == Some(i - 1)
      {
        index := Some(i);
        i := i + 1;
      }
    }

    /** `handleRequest(Request, String)`: the request served by the local dao. */
    method HandleLocal(request: Request, id: string, overflowed: bool, disk: Disk) returns (r: Result<Response>)
      modifies dao
      ensures dao.state == LocalStep(old(dao.state), request.verb, id, request.body, overflowed, disk).state
      ensures r == LocalStep(old(dao.state), request.verb, id, request.body, overflowed, disk).result
    {
      var key := Utf8.Encode(id);
      match request.verb {
        case Get =>
          var result := dao.Get(key);
          if result.Err? {
            return Err(result.error);
          }
          if result.value.None? || result.value.value.IsTombstone() {
            return Ok(Response(NotFound404, Empty));
          }
          return Ok(Response(Ok200, result.value.value.value.bytes));
        case Put =>
          var done := dao.Upsert(Entry(key, Data(request.body)), overflowed, disk);
          if done.Err? {
            return Err(done.error);
          }
          return Ok(Response(Created201, Empty));
        case Delete =>
          var done := dao.Upsert(Entry(key, Tombstone), overflowed, disk);
          if done.Err? {
            return Err(done.error);
          }
          return Ok(Response(Accepted202, Empty));
        case _ =>
          return Ok(Response(MethodNotAllowed405, Empty));
      }
    }

    /** `handleRequest(Request, HttpSession)`: `sent` is the sequence of
        responses written to the session. The clock is read twice: `now` when
        the breaker is consulted, and `failedAt` when a failed forward is
        recorded, after `client.send` has taken its time. */
    method HandleRequest(request: Request, now: int, failedAt: int, forward: ForwardResult, overflowed: bool, disk: Disk)
      returns (sent: seq<Response>, fault: Option<Fault>)
      requires Valid()
      requires now <= failedAt
      modifies dao, Routed()
      ensures !ValidRequest(request) ==>
                sent == [Response(BadRequest400, Empty)] && fault.None?
                && dao.state == old(dao.state) && unchanged(Routed())
      ensures ValidRequest(request) && |clusterUrls| == 0 ==>
                sent == [] && fault == Some(NoNodes) && dao.state == old(dao.state)
      ensures ValidRequest(request) && |clusterUrls| > 0 ==>
        var b := Owner();
        var g := CB.AfterGetState(old(b.Snap()), b.retryTimeoutMilliseconds, now);
        var prefix := if g.state == CB.Closed then [Response(ServiceUnavailable503, Empty)] else [];
        var local := LocalStep(old(dao.state), request.verb, request.id.value, request.body, overflowed, disk);
        if clusterUrls[|clusterUrls| - 1] == selfUrl then
          b.Snap() == g && dao.state == local.state
          && sent == prefix + (if local.result.Ok? then [local.result.value] else [])
          && fault == (if local.result.Ok? then None else Some(DaoFault(local.result.error)))
        else
          dao.state == old(dao.state)
          && match forward
             case ForwardFailed(message) =>
               sent == prefix + [Response(BadGateway502, ErrorBody(message))]
               && fault.None? && b.Snap() == CB.AfterFail(g, b.failureThreshold, failedAt)
             case Replied(code, body) =>
               if StatusFromCode(code).None? then
                 sent == prefix && fault == Some(UnknownStatusCode(code)) && b.Snap() == g
               else
                 sent == prefix + [Response(StatusFromCode(code).value, body)] && fault.None?
                 && b.Snap() == (if g.state == CB.HalfOpen then CB.AfterSuccess(g) else g)
    {
      if request.path != EntityPath {
        return [Response(BadRequest400, Empty)], None;
      }
      var id := request.id;
      if IsIncorrectId(id) {
        return [Response(BadRequest400, Empty)], None;
      }
      var nodeIndex := GetNodeIndex(id.value);
      if nodeIndex.None? {
        return [], Some(NoNodes);
      }
      // the task submitted to the node's executor
      var owner := GetNodeIndex(id.value);
      var circuitBreaker := circuitBreakersMap[clusterUrls[owner.value]];
      var state := circuitBreaker.GetState(now);
      sent := [];
      if state == CB.Closed {
        sent := sent + [Response(ServiceUnavailable503, Empty)];
      }
      var url := clusterUrls[nodeIndex.value];
      if url == selfUrl {
        var response := HandleLocal(request, id.value, overflowed, disk);
        if response.Err? {
          return sent, Some(DaoFault(response.error));
        }
        sent := sent + [response.value];
      } else {
        match forward {
          case ForwardFailed(message) =>
            sent := sent + [Response(BadGateway502, ErrorBody(message))];
            circuitBreaker.RecordFail(failedAt);
          case Replied(code, body) =>
            var status := StatusFromCode(code);
            if status.None? {
              return sent, Some(UnknownStatusCode(code));
            }
            sent := sent + [Response(status.value, body)];
            if state == CB.HalfOpen {
              circuitBreaker.RecordSuccess();
            }
        }
      }
      fault := None;
    }
  }
}
