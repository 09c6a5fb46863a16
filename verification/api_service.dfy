/** The browser's API client (mini-marketplace/src/services/api.js): the
    access token kept in local storage under `token`, the header set each
    request sends, and when the token is stored and cleared. The network is
    a parameter: each call is handed what `fetch` produced. */
module ApiService {
  import opened Wrappers

  const TokenKey := "token"
  const ContentType := "Content-Type"
  const Authorization := "Authorization"
  const JsonType := "application/json"

  /** The part of a reply body the client reads: `success`, `message` and,
      for signup and login, `data.session`: `None` when there is no session,
      otherwise the session's `access_token`, itself `None` when the session
      carries none. */
  datatype Body = Body(success: bool, message: Option<string>, session: Option<Option<string>>)

  /** What `fetch` produced: a response with its `ok` flag and parsed body,
      or a thrown network error. */
  datatype Fetched = Fetched(ok: bool, body: Body) | NetworkError(message: string)

  /** A string is truthy: present and not empty. */
  predicate Truthy(x: Option<string>) {
    x.Some? && x.value != ""
  }

  /** `x || fallback`. */
  function OrElse(x: Option<string>, fallback: string): (r: string)
    ensures Truthy(x) ==> r == x.value
    ensures !Truthy(x) ==> r == fallback
  {
    if Truthy(x) then x.value else fallback
  }

  /** The outcome of a call that parses the body: the body when the response
      is ok, otherwise an error carrying the body's message or `fallback`;
      a network error is passed on. */
  function Settle(fetched: Fetched, fallback: string): (r: Result<Body, string>)
    ensures r.Ok? <==> fetched.Fetched? && fetched.ok
    ensures r.Ok? ==> r.value == fetched.body
    ensures fetched.Fetched? && !fetched.ok ==> r == Err(OrElse(fetched.body.message, fallback))
    ensures fetched.NetworkError? ==> r == Err(fetched.message)
  {
    match fetched
    case NetworkError(m) => Err(m)
    case Fetched(ok, body) => if ok then Ok(body) else Err(OrElse(body.message, fallback))
  }

  /** The `Authorization` value of the product form calls: the stored token
      interpolated into a template, which spells a missing token `null`. */
  function BearerOf(token: Option<string>): (h: string)
    ensures token.Some? ==> h == "Bearer " + token.value
    ensures token.None? ==> h == "Bearer null"
  {
    "Bearer " + (if token.Some? then token.value else "null")
  }

  /** The headers a request sends: `Content-Type: application/json` unless
      the caller gives one, every caller header, and `Authorization: Bearer
      <token>` over any caller value when a truthy token is stored and
      `skipAuth` is not set. */
  ghost predicate HeadersFor(headers: map<string, string>, callerHeaders: map<string, string>,
                             token: Option<string>, skipAuth: bool) {
    && ContentType in headers
    && headers[ContentType] == (if ContentType in callerHeaders then callerHeaders[ContentType] else JsonType)
    && (Truthy(token) && !skipAuth ==>
          Authorization in headers && headers[Authorization] == "Bearer " + token.value)
    && (!(Truthy(token) && !skipAuth) ==>
          (Authorization in headers <==> Authorization in callerHeaders)
          && (Authorization in headers ==> headers[Authorization] == callerHeaders[Authorization]))
    && (forall k :: k != ContentType && k != Authorization ==>
          (k in headers <==> k in callerHeaders) && (k in headers ==> headers[k] == callerHeaders[k]))
  }

  /** The client, over the page's local storage. */
  class Client {
    var storage: map<string, string>

    constructor (storage: map<string, string>)
      ensures this.storage == storage
    {
      this.storage := storage;
    }

    /** `getToken`: the stored token, or `None` (`null`). */
    function GetToken(): (t: Option<string>)
      reads this
      ensures t.Some? <==> TokenKey in storage
      ensures t.Some? ==> t.value == storage[TokenKey]
    {
      if TokenKey in storage then Some(storage[TokenKey]) else None
    }

    /** `setToken`: a truthy token is stored, anything else removes the
        stored one; no other storage key changes. */
    method SetToken(token: Option<string>)
      modifies this
      ensures Truthy(token) ==> GetToken() == token
      ensures !Truthy(token) ==> GetToken() == None
      ensures forall k :: k != TokenKey ==> (k in storage <==> k in old(storage))
      ensures forall k :: k != TokenKey && k in storage ==> storage[k] == old(storage)[k]
    {
      if Truthy(token) {
        storage := storage[TokenKey := token.value];
      } else {
        storage := storage - {TokenKey};
      }
    }

    /** `request`'s header assembly, building the header map in place. */
    method Headers(callerHeaders: map<string, string>, skipAuth: bool) returns (headers: map<string, string>)
      ensures HeadersFor(headers, callerHeaders, GetToken(), skipAuth)
    {
      headers := map[ContentType := JsonType];
      headers := headers + callerHeaders;
      var token := GetToken();
      if Truthy(token) && !skipAuth {
        headers := headers[Authorization := "Bearer " + token.value];
      }
    }

    /** `request`: the headers sent, and the body or the error thrown. */
    method Request(callerHeaders: map<string, string>, skipAuth: bool, fetched: Fetched)
      returns (sent: map<string, string>, r: Result<Body, string>)
      ensures HeadersFor(sent, callerHeaders, GetToken(), skipAuth)
      ensures r == Settle(fetched, "Something went wrong")
    {
      sent := Headers(callerHeaders, skipAuth);
      r := Settle(fetched, "Something went wrong");
    }

    /** `signup` and `login`: the request, then, when the reply reports
        success and carries a session, the session's access token handed to
        `setToken`, which removes the stored token when there is none. */
    method SignIn(fetched: Fetched) returns (sent: map<string, string>, r: Result<Body, string>)
      modifies this
      ensures HeadersFor(sent, map[], old(GetToken()), false)
      ensures r == Settle(fetched, "Something went wrong")
      ensures storage - {TokenKey} == old(storage) - {TokenKey}
      ensures r.Ok? && r.value.success && r.value.session.Some? ==>
        GetToken() == (if Truthy(r.value.session.value) then r.value.session.value else None)
      ensures !(r.Ok? && r.value.success && r.value.session.Some?) ==> storage == old(storage)
    {
      sent, r := Request(map[], false, fetched);
      if r.Ok? && r.value.success && r.value.session.Some? {
        SetToken(r.value.session.value);
      }
    }

    /** `logout`: the token is cleared once the request returns; when it
        throws, the token stays. */
    method Logout(fetched: Fetched) returns (sent: map<string, string>, r: Result<Body, string>)
      modifies this
      ensures HeadersFor(sent, map[], old(GetToken()), false)
      ensures r == Settle(fetched, "Something went wrong")
      ensures storage - {TokenKey} == old(storage) - {TokenKey}
      ensures r.Ok? ==> GetToken() == None
      ensures r.Err? ==> storage == old(storage)
    {
      sent, r := Request(map[], false, fetched);
      if r.Ok? {
        SetToken(None);
      }
    }

    /** `getProducts` and `getProduct`: never authorised. */
    method FetchProducts(fetched: Fetched) returns (sent: map<string, string>, r: Result<Body, string>)
      ensures Authorization !in sent
      ensures sent == map[ContentType := JsonType]
      ensures r == Settle(fetched, "Something went wrong")
    {
      sent, r := Request(map[], true, fetched);
      assert sent.Keys == {ContentType} by {
        assert ContentType != Authorization;
      }
    }

    /** `deleteProduct`: authorised when a token is stored. */
    method DeleteProduct(fetched: Fetched) returns (sent: map<string, string>, r: Result<Body, string>)
      ensures Authorization in sent <==> Truthy(GetToken())
      ensures Authorization in sent ==> sent[Authorization] == "Bearer " + GetToken().value
      ensures r == Settle(fetched, "Something went wrong")
    {
      sent, r := Request(map[], false, fetched);
    }

    /** `createProduct` (`update` false) and `updateProduct` (`update`
        true): a multipart form whose only header is the bearer value,
        sent even when no token is stored. The ensures name the header map
        and the fallback messages as the request spells them; what they mean
        is stated by `BearerOf` and `Settle`, whose own contracts give it. */
    method SendProductForm(update: bool, fetched: Fetched) returns (sent: map<string, string>, r: Result<Body, string>)
      ensures sent == map[Authorization := BearerOf(GetToken())]
      ensures r == Settle(fetched, if update then "Failed to update product" else "Failed to create product")
    {
      sent := map[Authorization := BearerOf(GetToken())];
      r := Settle(fetched, if update then "Failed to update product" else "Failed to create product");
    }
  }
}
