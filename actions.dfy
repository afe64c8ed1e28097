/** The server action that resolves a track's stream to a playable URL. */
module Actions {
  import opened Common
  import opened SoundCloud

  /** The path of a track's stream endpoint. */
  function StreamPath(trackId: string): (p: string)
    ensures |p| == |trackId| + 15
    ensures p[..8] == "/tracks/" && p[|p| - 7..] == "/stream"
    ensures p[8..|p| - 7] == trackId
  {
    "/tracks/" + trackId + "/stream"
  }

  /** The result of the stream request: on an ok answer the URL the request
      ended at after redirects (`response.url`), never null; otherwise a
      failure carrying status and status text. */
  function StreamOutcome(response: Response<string>): (r: Result<string, Error>)
    ensures r.Success? <==> response.Ok?
    ensures r.Success? ==> r.value == response.body
    ensures response.NotOk? ==> r == Failure(StreamFailed(response.status, response.statusText))
  {
    match response
    case Ok(url) => Success(url)
    case NotOk(s, t, _) => Failure(StreamFailed(s, t))
    case Thrown(m) => Failure(Transport(m))
  }

  /** `getStream(trackId)`: a token first (its failure propagates, before any
      stream request), then one request for the stream with that token.
      `response` carries the final URL of an ok answer. */
  method GetStream(client: TokenManager, trackId: string, now: int, env: TokenEnv, response: Response<string>)
    returns (r: Result<string, Error>)
    requires Sane(env)
    modifies client
    ensures var run := AccessTokenRun(old(client.store), now, env);
            && client.store == Written(old(client.store), run.written)
            && (run.result.Failure? ==> r == Failure(AuthFailure) && client.trace == old(client.trace) + run.effects)
            && (run.result.Success? ==>
                  && r == StreamOutcome(response)
                  && client.trace == old(client.trace) + run.effects + [StreamCall(StreamPath(trackId), OAuth(run.result.value))])
  {
    var token := client.GetAccessToken(now, env);
    if token.Failure? {
      Outcome(old(client.store), now, env);
      return Failure(token.error);
    }
    client.trace := client.trace + [StreamCall(StreamPath(trackId), OAuth(token.value))];
    r := StreamOutcome(response);
  }
}
