/**
 The gRPC health check (crates/matchmaking/src/rpc/server/healthcheck.rs): the
 serving statuses, their numbers on the wire, and the answer to a health request.
 The answer depends on whether a trivial child process could be started; that
 outcome is the parameter `spawned`.
 */
module Healthcheck {
  import opened Wrappers
  import opened Integers

  datatype ServingStatus = NotFound | Serving | NotServing | ServiceUnknown | Deprecated

  /** The number a status is sent as. */
  function StatusCode(status: ServingStatus): (code: I32)
    ensures 0 <= code <= 4
  {
    match status
    case NotFound => 0
    case Serving => 1
    case NotServing => 2
    case ServiceUnknown => 3
    case Deprecated => 4
  }

  /** The status a number stands for, if any. */
  function StatusOfCode(code: int): (s: Option<ServingStatus>)
    ensures s.None? <==> code < 0 || code > 4
  {
    if code == 0 then Some(NotFound)
    else if code == 1 then Some(Serving)
    else if code == 2 then Some(NotServing)
    else if code == 3 then Some(ServiceUnknown)
    else if code == 4 then Some(Deprecated)
    else None
  }

  /** Every status is read back from its number. */
  lemma StatusCodeRoundTrip(status: ServingStatus)
    ensures StatusOfCode(StatusCode(status)) == Some(status)
  {
  }

  /** Distinct statuses have distinct numbers. */
  lemma StatusCodeInjective(a: ServingStatus, b: ServingStatus)
    ensures StatusCode(a) == StatusCode(b) <==> a == b
  {
    StatusCodeRoundTrip(a);
    StatusCodeRoundTrip(b);
  }

  datatype HealthCheckRequest = HealthCheckRequest(service: string)
  datatype HealthCheckResponse = HealthCheckResponse(status: I32)

  /** The response carrying a status. */
  function Response(status: ServingStatus): (r: HealthCheckResponse)
    ensures r.status == StatusCode(status)
    ensures StatusOfCode(r.status) == Some(status)
  {
    StatusCodeRoundTrip(status);
    HealthCheckResponse(StatusCode(status))
  }

  /** The full name of the matchmaking service. */
  const SERVICE_NAME: string := "matchmaking.MatchmakingService"

  /**
   `healthy`: a request for a service other than the matchmaker, by its full or
   its short name, is answered NotFound; otherwise Serving when the child process
   started and NotServing when it did not. The answer is never ServiceUnknown or
   Deprecated.
   */
  function Healthy(request: HealthCheckRequest, spawned: bool): (r: HealthCheckResponse)
    ensures r.status == 0 <==> request.service != SERVICE_NAME && request.service != "matchmaking"
    ensures r.status == 1 <==> (request.service == SERVICE_NAME || request.service == "matchmaking") && spawned
    ensures r.status == 2 <==> (request.service == SERVICE_NAME || request.service == "matchmaking") && !spawned
    ensures r.status != 3 && r.status != 4
  {
    if request.service != SERVICE_NAME && request.service != "matchmaking" then Response(NotFound)
    else if spawned then Response(Serving)
    else Response(NotServing)
  }
}
