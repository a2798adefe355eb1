/**
 Executing a request (`request` in src/lib.rs): building the platform's
 request init, handing it to fetch, and classifying the response. Fetch and
 the JSON parse of the response are an abstract `fetch` function from the URL
 and init to an exchange; the parsed body is an opaque value of type `J`, and
 the conversion `RequestError::from` is the caller-supplied `fromValue`.
 */
module Requests {
  import opened Wrappers
  import opened Methods
  import opened Headers
  import opened Options
  import opened Decimal

  /** Rust's `u16`, the type of a response status. */
  type U16 = n: int | 0 <= n < 0x1_0000

  /** Rust's `i16`, the type of `RequestError::status`. */
  type Int16 = n: int | -0x8000 <= n < 0x8000

  /** wasm_request's `RequestError`: whatever the deserialised body says. */
  datatype RequestError = RequestError(status: Int16, message: string)

  /** The platform's request modes; this system only ever uses `Cors`. */
  datatype RequestMode = SameOrigin | NoCors | Cors | Navigate

  /** The platform request descriptor (`RequestInit`). */
  datatype RequestInit<F> = RequestInit(verb: string, body: Body<F>, headers: seq<Header>, mode: RequestMode)

  /**
   What fetch produced for one request: a failure value raised before a
   parsed body was available (an unusable URL, a rejected fetch, a value that
   is not a `Response`, a body that is not JSON), or the response status with
   its parsed JSON body.
   */
  datatype Exchange<J> = Failed(failure: J) | Responded(status: U16, body: J)

  /** One execution: the URL and init handed to fetch, and the result returned to the caller. */
  datatype Execution<F, J> = Execution(url: string, init: RequestInit<F>, result: Result<J, RequestError>)

  /**
   The status rule: a response is an error when the decimal text of its status
   starts with '4' or with '5'.
   */
  predicate IsErrorStatus(status: U16)
    ensures IsErrorStatus(status) <==> LeadingDigit(status) == 4 || LeadingDigit(status) == 5
  {
    DecimalStringStartsWithLeadingDigit(status);
    var text := DecimalString(status);
    text[0] == '4' || text[0] == '5'
  }

  /** The descriptor built for `rq`: its verb, body and headers, in CORS mode. */
  function BuildInit<F>(rq: Rq<F>): (init: RequestInit<F>)
    ensures init.mode == Cors
    ensures ParseVerb(init.verb) == Some(rq.httpMethod)
    ensures init.body == rq.body && init.headers == rq.headers
  {
    ParseWireVerb(rq.httpMethod);
    RequestInit(WireVerb(rq.httpMethod), rq.body, rq.headers, Cors)
  }

  /**
   Classify a parsed response. Success returns the body unchanged; an error is
   converted from the body alone, so its `status` is what the body says.
   */
  function Classify<J>(status: U16, body: J, fromValue: J -> RequestError): (r: Result<J, RequestError>)
    ensures r.Ok? <==> LeadingDigit(status) != 4 && LeadingDigit(status) != 5
    ensures r.Ok? ==> r.value == body
    ensures r.Err? ==> r.error == fromValue(body)
  {
    if !IsErrorStatus(status) then Ok(body) else Err(fromValue(body))
  }

  /**
   Execute `rq`: fetch is given the URL and the built init, and its outcome is
   classified. A failure value propagates through `RequestError::from` as
   Rust's `?` converts it.
   */
  function Request<F, J>(rq: Rq<F>, fetch: (string, RequestInit<F>) -> Exchange<J>,
                         fromValue: J -> RequestError): (ex: Execution<F, J>)
    ensures ex.url == rq.url
    ensures ex.init.verb == WireVerb(rq.httpMethod) && ex.init.mode == Cors
    ensures ex.init.body == rq.body && ex.init.headers == rq.headers
    ensures ex.result.Ok? <==> fetch(ex.url, ex.init).Responded? && !IsErrorStatus(fetch(ex.url, ex.init).status)
    ensures ex.result.Ok? ==> ex.result.value == fetch(ex.url, ex.init).body
    ensures fetch(ex.url, ex.init).Failed? ==> ex.result == Err(fromValue(fetch(ex.url, ex.init).failure))
    ensures fetch(ex.url, ex.init).Responded? && IsErrorStatus(fetch(ex.url, ex.init).status)
        ==> ex.result == Err(fromValue(fetch(ex.url, ex.init).body))
  {
    var init := BuildInit(rq);
    var exchange := fetch(rq.url, init);
    if exchange.Failed? then
      Execution(rq.url, init, Err(fromValue(exchange.failure)))
    else
      Execution(rq.url, init, Classify(exchange.status, exchange.body, fromValue))
  }

  /** On every `u16` the rule is a union of five ranges, one per digit count. */
  lemma ErrorStatusRanges(status: U16)
    ensures IsErrorStatus(status) <==>
      || 4 <= status < 6
      || 40 <= status < 60
      || 400 <= status < 600
      || 4000 <= status < 6000
      || 40000 <= status < 60000
  {
    LeadingDigitByMagnitude(status);
  }

  /** On three-digit statuses the rule agrees with the numeric test 400 <= status < 600. */
  lemma ErrorStatusOnThreeDigits(status: U16)
    requires 100 <= status <= 999
    ensures IsErrorStatus(status) <==> 400 <= status < 600
  {
    ErrorStatusRanges(status);
  }

  /** Where the rule departs from 400 <= status < 600: 0 succeeds; 4, 45 and 5000 fail. */
  lemma ErrorStatusOutsideThreeDigits()
    ensures !IsErrorStatus(0)
    ensures IsErrorStatus(4) && IsErrorStatus(45) && IsErrorStatus(5000)
  {
    ErrorStatusRanges(0);
    ErrorStatusRanges(4);
    ErrorStatusRanges(45);
    ErrorStatusRanges(5000);
  }

  /** A redirect succeeds; not-found and server errors fail. */
  lemma ErrorStatusExamples()
    ensures !IsErrorStatus(200) && !IsErrorStatus(301)
    ensures IsErrorStatus(404) && IsErrorStatus(500)
  {
    ErrorStatusOnThreeDigits(200);
    ErrorStatusOnThreeDigits(301);
    ErrorStatusOnThreeDigits(404);
    ErrorStatusOnThreeDigits(500);
  }

  /** Two error responses with the same body give the same error, whatever their statuses. */
  lemma ErrorIgnoresResponseStatus<J>(s1: U16, s2: U16, body: J, fromValue: J -> RequestError)
    requires IsErrorStatus(s1) && IsErrorStatus(s2)
    ensures Classify(s1, body, fromValue) == Classify(s2, body, fromValue)
  {
  }

  /** The init depends only on the options: fetch and the error conversion never change it. */
  lemma InitIndependentOfEnvironment<F, J>(rq: Rq<F>,
                                           fetch1: (string, RequestInit<F>) -> Exchange<J>,
                                           fetch2: (string, RequestInit<F>) -> Exchange<J>,
                                           from1: J -> RequestError, from2: J -> RequestError)
    ensures Request(rq, fetch1, from1).init == Request(rq, fetch2, from2).init
  {
  }
}
