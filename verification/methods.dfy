/**
 The nine HTTP methods a request can carry and the fixed table that turns each
 into the verb string handed to the platform (`get_method` in src/lib.rs).
 */
module Methods {
  import opened Wrappers

  /** wasm_request's `Method` enum; constructor names keep its spelling. */
  datatype Method = Get | POST | PUT | PATCH | DELETE | OPTION | TRACE | CONNECT | HEAD

  predicate IsUpperAscii(c: char) {
    'A' <= c <= 'Z'
  }

  /** The wire verb of a method. `OPTION` is sent as the non-standard "OPTION". */
  function WireVerb(m: Method): (verb: string)
    ensures 3 <= |verb| <= 7
    ensures forall i :: 0 <= i < |verb| ==> IsUpperAscii(verb[i])
  {
    match m
    case Get => "GET"
    case POST => "POST"
    case PUT => "PUT"
    case PATCH => "PATCH"
    case DELETE => "DELETE"
    case OPTION => "OPTION"
    case TRACE => "TRACE"
    case CONNECT => "CONNECT"
    case HEAD => "HEAD"
  }

  /** Reference inverse of the table: the method whose verb is exactly `verb`, if any. */
  function ParseVerb(verb: string): Option<Method> {
    if verb == "GET" then Some(Get)
    else if verb == "POST" then Some(POST)
    else if verb == "PUT" then Some(PUT)
    else if verb == "PATCH" then Some(PATCH)
    else if verb == "DELETE" then Some(DELETE)
    else if verb == "OPTION" then Some(OPTION)
    else if verb == "TRACE" then Some(TRACE)
    else if verb == "CONNECT" then Some(CONNECT)
    else if verb == "HEAD" then Some(HEAD)
    else None
  }

  /** Every method's verb parses back to that method. */
  lemma {:induction false} ParseWireVerb(m: Method)
    ensures ParseVerb(WireVerb(m)) == Some(m)
  {
    match m
    case Get =>
    case POST =>
    case PUT =>
    case PATCH =>
    case DELETE =>
    case OPTION =>
    case TRACE =>
    case CONNECT =>
    case HEAD =>
  }

  /** Every verb the table knows is produced by exactly the method it parses to. */
  lemma WireVerbOfParse(verb: string)
    ensures ParseVerb(verb).Some? ==> WireVerb(ParseVerb(verb).value) == verb
  {
  }

  /** Distinct methods are sent as distinct verbs. */
  lemma WireVerbInjective(a: Method, b: Method)
    ensures WireVerb(a) == WireVerb(b) <==> a == b
  {
    ParseWireVerb(a);
    ParseWireVerb(b);
  }

  /** The table sends "OPTION", and the standard "OPTIONS" is not a verb any method produces. */
  lemma OptionVerbIsNonStandard(m: Method)
    ensures WireVerb(OPTION) == "OPTION"
    ensures WireVerb(m) != "OPTIONS"
  {
    ParseWireVerb(m);
  }
}
