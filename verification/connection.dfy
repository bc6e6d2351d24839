/**
 The process-wide connection cache behind `connectToDatabase`: a map from
 connection uri to the client the connect call resolved to.
 */
module Connection {
  import opened Base

  datatype Client = Client(handle: nat)

  /**
   A uri maps to whatever the connect promise resolved to; `None` stands for a
   null-ish resolution, which the cache keeps like any other.
   */
  type Cache = map<string, Option<Client>>

  /** How the driver's connect call would settle if it were made now. */
  datatype Attempt = Resolves(client: Option<Client>) | Rejects

  datatype ConnectError = ConnectRejected

  /** The cache afterwards, the client handed back, and whether a new connection was opened. */
  datatype Connected = Connected(cache: Cache, client: Option<Client>, dialled: bool)

  function ConnectToDatabase(cache: Cache, uri: string, attempt: Attempt): (r: Result<Connected, ConnectError>)
    ensures r.Failure? <==> uri !in cache && attempt.Rejects?
    ensures r.Success? ==> (r.value.dialled <==> uri !in cache)
    ensures r.Success? ==> uri in r.value.cache && r.value.client == r.value.cache[uri]
    ensures r.Success? ==> r.value.cache.Keys == cache.Keys + {uri}
    ensures r.Success? ==> forall u :: u in cache ==> r.value.cache[u] == cache[u]
    ensures r.Success? && r.value.dialled ==> r.value.client == attempt.client
  {
    if uri in cache then Success(Connected(cache, cache[uri], false))
    else
      match attempt
      case Rejects => Failure(ConnectRejected)
      case Resolves(c) => Success(Connected(cache[uri := c], c, true))
  }

  /**
   Once a uri is cached, later calls never connect again, leave the cache as it
   is and hand back the same client, however a connect would have settled.
   */
  lemma ConnectIsMemoised(cache: Cache, uri: string, first: Attempt, second: Attempt)
    requires ConnectToDatabase(cache, uri, first).Success?
    ensures var c1 := ConnectToDatabase(cache, uri, first).value;
            var r2 := ConnectToDatabase(c1.cache, uri, second);
            r2.Success? && !r2.value.dialled && r2.value.cache == c1.cache && r2.value.client == c1.client
  {
  }

  /** A rejected connect leaves nothing behind: the next call tries again. */
  lemma RejectedConnectIsNotCached(cache: Cache, uri: string)
    requires uri !in cache
    ensures ConnectToDatabase(cache, uri, Rejects).Failure?
    ensures forall a: Attempt :: a.Resolves? ==> ConnectToDatabase(cache, uri, a).value.dialled
  {
  }
}
