/**
 Default-header assembly (`get_defualt_headers` in src/lib.rs). A header set is
 the ordered list of `append` calls made on it; the browser's local storage is
 the map it is read from.
 */
module Headers {
  import opened Wrappers

  datatype Header = Header(name: string, value: string)

  /** The storage key under which the authentication token is kept. */
  const TokenKey: string := "token"

  const Authorization: string := "Authorization"
  const ContentTypeJson: Header := Header("Content-Type", "application/json")
  const AllowAnyOrigin: Header := Header("Access-Control-Allow-Origin", "*")

  /** The token as local storage returns it: absent, or the raw stored string. */
  function StoredToken(storage: map<string, string>): (token: Option<string>)
    ensures token.Some? <==> TokenKey in storage
    ensures token.Some? ==> token.value == storage[TokenKey]
  {
    if TokenKey in storage then Some(storage[TokenKey]) else None
  }

  predicate HasHeader(headers: seq<Header>, name: string) {
    exists i :: 0 <= i < |headers| && headers[i].name == name
  }

  /** The value of the first header appended under `name`, if any. */
  function FirstValue(headers: seq<Header>, name: string): (v: Option<string>)
    ensures v.Some? <==> HasHeader(headers, name)
  {
    if |headers| == 0 then None
    else if headers[0].name == name then Some(headers[0].value)
    else
      assert HasHeader(headers, name) ==> HasHeader(headers[1..], name) by {
        if HasHeader(headers, name) {
          var i :| 0 <= i < |headers| && headers[i].name == name;
          assert headers[1..][i - 1].name == name;
        }
      }
      FirstValue(headers[1..], name)
  }

  /**
   The default headers: `Authorization` first when a token is stored (its
   value verbatim, even when empty), then the JSON content type, then the
   permissive CORS origin.
   */
  function DefaultHeaders(storage: map<string, string>): (headers: seq<Header>)
    ensures |headers| == if TokenKey in storage then 3 else 2
    ensures headers[|headers| - 2..] == [ContentTypeJson, AllowAnyOrigin]
    ensures HasHeader(headers, Authorization) <==> TokenKey in storage
    ensures TokenKey in storage ==> headers[0] == Header(Authorization, storage[TokenKey])
  {
    var auth := match StoredToken(storage)
      case Some(token) => [Header(Authorization, token)]
      case None => [];
    var headers := auth + [ContentTypeJson, AllowAnyOrigin];
    assert headers[|headers| - 2..] == [ContentTypeJson, AllowAnyOrigin];
    assert ContentTypeJson.name != Authorization && AllowAnyOrigin.name != Authorization;
    assert TokenKey in storage ==> headers[0].name == Authorization;
    headers
  }

  /** Reading `Authorization` back from the default headers yields the stored token exactly. */
  lemma DefaultAuthorizationIsStoredToken(storage: map<string, string>)
    ensures FirstValue(DefaultHeaders(storage), Authorization) == StoredToken(storage)
  {
    var headers := DefaultHeaders(storage);
    if TokenKey in storage {
      assert headers[0].name == Authorization;
    }
  }

  /** An empty stored token is still sent, as an empty `Authorization` value. */
  lemma EmptyTokenStillSent(storage: map<string, string>)
    requires TokenKey in storage && storage[TokenKey] == ""
    ensures Header(Authorization, "") in DefaultHeaders(storage)
  {
    assert DefaultHeaders(storage)[0] == Header(Authorization, "");
  }

  /** Storage is read only through the token: other keys never change the defaults. */
  lemma DefaultHeadersReadOnlyToken(s1: map<string, string>, s2: map<string, string>)
    ensures DefaultHeaders(s1) == DefaultHeaders(s2) <==> StoredToken(s1) == StoredToken(s2)
  {
    var h1, h2 := DefaultHeaders(s1), DefaultHeaders(s2);
    if h1 == h2 {
      DefaultAuthorizationIsStoredToken(s1);
      DefaultAuthorizationIsStoredToken(s2);
    }
  }
}
