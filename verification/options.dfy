/**
 Request-options construction (`DataType`, `Rq` and `get_options` in
 src/lib.rs). JSON serialisation is an uninterpreted function supplied by the
 caller; a multipart form is an opaque value of type `F`.
 */
module Options {
  import opened Wrappers
  import opened Methods
  import opened Headers

  /** The payload of a request: a serialisable value, or a form passed through untouched. */
  datatype Payload<T, F> = Json(data: T) | Form(form: F)

  /** The wire-ready body: JavaScript `null`, a JSON string, or the form object. */
  datatype Body<F> = Null | Text(text: string) | FormBody(form: F)

  /** wasm_request's `Rq`: everything `request` needs. */
  datatype Rq<F> = Rq(url: string, httpMethod: Method, body: Body<F>, headers: seq<Header>)

  /** The body-encoding rule: no payload is `null`, JSON is serialised, a form is passed through. */
  function EncodeBody<T, F>(data: Option<Payload<T, F>>, serialize: T -> string): (body: Body<F>)
    ensures body.Null? <==> data.None?
    ensures body.Text? <==> data.Some? && data.value.Json?
    ensures body.Text? ==> body.text == serialize(data.value.data)
    ensures body.FormBody? ==> data == Some(Form(body.form))
  {
    match data
    case None => Null
    case Some(Json(value)) => Text(serialize(value))
    case Some(Form(form)) => FormBody(form)
  }

  /**
   Build the request options. Caller headers are used verbatim; without them
   the defaults are assembled from `storage`.
   */
  function GetOptions<T, F>(url: string, httpMethod: Method, headers: Option<seq<Header>>,
                            data: Option<Payload<T, F>>, serialize: T -> string,
                            storage: map<string, string>): (rq: Rq<F>)
    ensures rq.url == url && rq.httpMethod == httpMethod
    ensures headers.Some? ==> rq.headers == headers.value
    ensures headers.None? ==> rq.headers == DefaultHeaders(storage)
    ensures headers.None? ==> |rq.headers| >= 2 && rq.headers[|rq.headers| - 2..] == [ContentTypeJson, AllowAnyOrigin]
    ensures headers.None? ==> FirstValue(rq.headers, Authorization) == StoredToken(storage)
    ensures rq.body.Null? <==> data.None?
    ensures data.Some? && data.value.Json? ==> rq.body == Text(serialize(data.value.data))
    ensures data.Some? && data.value.Form? ==> rq.body == FormBody(data.value.form)
  {
    if headers.Some? then
      Rq(url, httpMethod, EncodeBody(data, serialize), headers.value)
    else
      DefaultAuthorizationIsStoredToken(storage);
      Rq(url, httpMethod, EncodeBody(data, serialize), DefaultHeaders(storage))
  }

  /** With caller-supplied headers, storage is not consulted: any two storages give the same options. */
  lemma CallerHeadersIgnoreStorage<T, F>(url: string, httpMethod: Method, headers: seq<Header>,
                                         data: Option<Payload<T, F>>, serialize: T -> string,
                                         s1: map<string, string>, s2: map<string, string>)
    ensures GetOptions(url, httpMethod, Some(headers), data, serialize, s1)
         == GetOptions(url, httpMethod, Some(headers), data, serialize, s2)
  {
  }

  /** Without caller headers, the options differ between storages exactly when their tokens do. */
  lemma DefaultOptionsDependOnToken<T, F>(url: string, httpMethod: Method,
                                          data: Option<Payload<T, F>>, serialize: T -> string,
                                          s1: map<string, string>, s2: map<string, string>)
    ensures GetOptions(url, httpMethod, None, data, serialize, s1)
         == GetOptions(url, httpMethod, None, data, serialize, s2)
        <==> StoredToken(s1) == StoredToken(s2)
  {
    DefaultHeadersReadOnlyToken(s1, s2);
  }
}
