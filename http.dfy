/**
 * The HTTP side of the client: the requests it sends, the results a server
 * can give, how axios classifies them, and a scripted server that answers
 * requests in order and records every request it receives.
 */
module Http {
  import opened Options
  import opened Json
  import opened Text

  datatype Verb = GET | POST | DELETE

  /** A request as sent: verb, URL, the Authorization header if any, and the JSON body. */
  datatype Request = Request(verb: Verb, url: string, authorization: Option<string>, body: Json)

  /** A response body: JSON text that parses, or text that does not. */
  datatype Body = Parsed(value: Json) | Unparseable(text: string)

  /** What a request gets back: no response at all (network failure), or a status and a body. */
  datatype HttpResult = NoResponse | Response(status: int, body: Body)

  /** `response.ok` of fetch, and axios's default test for a resolved request. */
  predicate IsOk(status: int) { 200 <= status < 300 }

  /** `response.data` in axios: the parsed body, or the raw text when it is not JSON. */
  function AxiosData(b: Body): (r: Json)
    ensures b.Parsed? ==> r == b.value
    ensures b.Unparseable? ==> r == Str(b.text)
  {
    match b
    case Parsed(v) => v
    case Unparseable(t) => Str(t)
  }

  datatype AxiosResponse = AxiosResponse(status: int, data: Json)

  /** An axios call resolves with its response or rejects with an AxiosError, which may carry a response. */
  datatype AxiosOutcome = Resolved(response: AxiosResponse) | Rejected(errorResponse: Option<AxiosResponse>)

  /** How axios turns a result into an outcome: statuses outside 2xx, and no response, reject. */
  function AxiosCall(res: HttpResult): (r: AxiosOutcome)
    ensures r.Resolved? <==> res.Response? && IsOk(res.status)
    ensures r.Rejected? ==> (r.errorResponse.None? <==> res.NoResponse?)
    ensures res.Response? ==> (r.Resolved? ==> r.response.status == res.status)
    ensures res.Response? && r.Rejected? ==> r.errorResponse.value.status == res.status
  {
    match res
    case NoResponse => Rejected(None)
    case Response(status, body) =>
      var resp := AxiosResponse(status, AxiosData(body));
      if IsOk(status) then Resolved(resp) else Rejected(Some(resp))
  }

  /** `error.message` of an AxiosError, as axios words it. */
  function AxiosErrorMessage(response: Option<AxiosResponse>): string
  {
    match response
    case None => "Network Error"
    case Some(r) => "Request failed with status code " + IntToString(r.status)
  }

  /** The `i`-th scripted result; a server whose script has run out no longer answers. */
  function Nth(script: seq<HttpResult>, i: nat): (r: HttpResult)
    ensures i < |script| ==> r == script[i]
    ensures i >= |script| ==> r == NoResponse
  {
    if i < |script| then script[i] else NoResponse
  }

  /** `script` without its first `n` results (all of them when it is shorter). */
  function Drop(script: seq<HttpResult>, n: nat): seq<HttpResult>
  {
    if n < |script| then script[n..] else []
  }

  /**
   * A scripted server: every request is recorded in `log` and answered with
   * the next result of `script`.
   */
  class Server {
    var script: seq<HttpResult>
    ghost var log: seq<Request>

    constructor (script: seq<HttpResult>)
      ensures this.script == script && log == []
    {
      this.script := script;
      log := [];
    }

    method Send(req: Request) returns (res: HttpResult)
      modifies this
      ensures log == old(log) + [req]
      ensures res == Nth(old(script), 0)
      ensures script == Drop(old(script), 1)
    {
      log := log + [req];
      if script == [] {
        res := NoResponse;
      } else {
        res := script[0];
        script := script[1..];
      }
    }
  }

  /** Two sends in a row take the first two results and drop them. */
  lemma DropDrop(script: seq<HttpResult>, n: nat)
    ensures Drop(Drop(script, n), 1) == Drop(script, n + 1)
    ensures Nth(Drop(script, n), 0) == Nth(script, n)
  {
  }
}
