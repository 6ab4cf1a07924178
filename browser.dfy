/** The browser facilities the client uses: `localStorage`, the clock and
    `fetch`. The network is a script of responses handed out in order; once the
    script is exhausted every fetch fails as a network error. Every request
    sent and every result received is logged. */
module Browser {
  import opened Wrappers

  /** A validation error entry of an error response. */
  datatype FieldError = FieldError(field: string, message: string)

  /** A parsed JSON response body, reduced to the fields the client reads. */
  datatype Body = Body(
    message: Option<string>, validationErrors: Option<seq<FieldError>>,
    accessToken: Option<string>, refreshToken: Option<string>)

  /** A request body; JSON serialisation is not modelled. */
  datatype Payload = NoBody | RefreshTokenBody(refreshToken: string) | JsonText(text: string)

  /** The fetch options: HTTP method (`verb`), headers and body. */
  datatype RequestInit = RequestInit(verb: string, headers: map<string, string>, body: Payload)

  datatype FetchRequest = FetchRequest(url: string, init: RequestInit)

  /** What `fetch` produced: a response whose body may fail to parse as JSON
      (`None`), or a rejected promise. */
  datatype FetchResult = Response(status: int, body: Option<Body>) | NetworkError

  /** The result the next fetch will receive. */
  function NextResult(pending: seq<FetchResult>): FetchResult {
    if pending == [] then NetworkError else pending[0]
  }

  /** The script after one fetch. */
  function AfterFetch(pending: seq<FetchResult>): (rest: seq<FetchResult>)
    ensures |rest| <= |pending|
    ensures NextResult(pending).Response? ==> |rest| < |pending|
  {
    if pending == [] then [] else pending[1..]
  }

  /** `after` is `before` with more entries logged behind it. */
  predicate Extends<T(==)>(before: seq<T>, after: seq<T>) {
    |before| <= |after| && after[..|before|] == before
  }

  class Browser {
    var storage: map<string, string>
    var pending: seq<FetchResult>
    var sent: seq<FetchRequest>
    var received: seq<FetchResult>
    /** The instant `Date.now()` reports, in milliseconds. */
    const nowMs: int

    predicate Valid()
      reads this
    {
      |sent| == |received|
    }

    constructor (storage: map<string, string>, script: seq<FetchResult>, nowMs: int)
      ensures this.storage == storage && pending == script && this.nowMs == nowMs
      ensures sent == [] && received == [] && Valid()
    {
      this.storage := storage;
      pending := script;
      this.nowMs := nowMs;
      sent := [];
      received := [];
    }

    /** localStorage.getItem. */
    function GetItem(key: string): Option<string>
      reads this
    {
      if key in storage then Some(storage[key]) else None
    }

    method SetItem(key: string, value: string)
      modifies this`storage
      ensures storage == old(storage)[key := value]
    {
      storage := storage[key := value];
    }

    method RemoveItem(key: string)
      modifies this`storage
      ensures storage == old(storage) - {key}
    {
      storage := storage - {key};
    }

    /** fetch: logs the request and hands out the next scripted result. */
    method Fetch(request: FetchRequest) returns (result: FetchResult)
      requires Valid()
      modifies this`pending, this`sent, this`received
      ensures Valid()
      ensures result == NextResult(old(pending)) && pending == AfterFetch(old(pending))
      ensures sent == old(sent) + [request] && received == old(received) + [result]
    {
      result := NextResult(pending);
      pending := AfterFetch(pending);
      sent := sent + [request];
      received := received + [result];
    }
  }
}
