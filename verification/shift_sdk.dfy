/**
 The ShiftSdkPhp client: it normalises its base URL and credentials once,
 obtains a bearer token from the `ex-app` API and sends authenticated GET and
 POST requests to endpoints under that prefix. The transport's answer to each
 request is a parameter, and each operation returns the request it sends.
 */
module ShiftSdk {
  import opened PhpString
  import opened Http
  import opened Errors

  /** The path segment of the external-application API. */
  const ApiPrefix := "ex-app"

  /** The characters the normalisers may strip from either end. */
  const Padding: set<char> := Whitespace + {'/'}

  /** __setApiBaseUrl: trim blanks, then every trailing slash. The result
      never ends with a slash and is a piece of the input with only blanks
      cut before it and only blanks and slashes cut after it. */
  function SetApiBaseUrl(s: string): (r: string)
    ensures r == [] || r[|r| - 1] != '/'
    ensures r == [] || r[0] !in Whitespace
    ensures exists i :: StrippedFrom(s, r, i, Whitespace, Padding)
  {
    BaseUrlIsPiece(s);
    RTrimSplit(Trim(s), {'/'});
    RTrim(Trim(s), {'/'})
  }

  /** __setEndPoint: trim blanks, then trailing slashes, then leading
      slashes. The result neither starts nor ends with a slash and is a
      piece of the input with only blanks and slashes cut around it. */
  function SetEndPoint(s: string): (r: string)
    ensures Unpadded(r, {'/'})
    ensures exists i :: StrippedFrom(s, r, i, Padding, Padding)
  {
    BothTrimsUnpadded(Trim(s), {'/'});
    EndPointIsPiece(s);
    LTrim(RTrim(Trim(s), {'/'}), {'/'})
  }

  /** Trimming blanks and then trailing slashes cuts only blanks before
      and blanks and slashes after. */
  lemma BaseUrlIsPiece(s: string)
    ensures exists i :: StrippedFrom(s, RTrim(Trim(s), {'/'}), i, Whitespace, Padding)
  {
    var t := Trim(s);
    var i := |RTrim(s, Whitespace)| - |t|;
    TrimIsPiece(s);
    StrippedWiden(s, t, i, Whitespace, Whitespace, Whitespace, Padding);
    RTrimPiece(s, t, i, {'/'}, Whitespace, Padding);
  }

  /** The endpoint normaliser only cuts blanks and slashes from the ends. */
  lemma EndPointIsPiece(s: string)
    ensures exists i :: StrippedFrom(s, LTrim(RTrim(Trim(s), {'/'}), {'/'}), i, Padding, Padding)
  {
    var u := RTrim(Trim(s), {'/'});
    BaseUrlIsPiece(s);
    var i :| StrippedFrom(s, u, i, Whitespace, Padding);
    StrippedWiden(s, u, i, Whitespace, Padding, Padding, Padding);
    LTrimPiece(s, u, i, {'/'}, Padding, Padding);
  }

  /** A base URL written as blanks, the URL, trailing slashes and blanks
      normalises to the URL itself, as long as the URL does not start with
      a blank or end with a blank or a slash. */
  lemma {:induction false} BaseUrlCanonical(pre: string, url: string, slashes: string, post: string)
    requires AllIn(pre, Whitespace) && AllIn(slashes, {'/'}) && AllIn(post, Whitespace)
    requires url == [] || (url[0] !in Whitespace && url[|url| - 1] !in Padding)
    ensures SetApiBaseUrl(pre + url + slashes + post) == url
  {
    var t := url + slashes;
    assert pre + url + slashes + post == pre + t + post;
    assert t != [] ==> t[0] !in Whitespace && t[|t| - 1] !in Whitespace;
    TrimAround(pre, t, post);
    RTrimAround(url, slashes, {'/'});
  }

  /** An endpoint written as blanks, leading slashes, the path, trailing
      slashes and blanks normalises to the path itself, as long as the path
      neither starts nor ends with a blank or a slash. With an empty path,
      this covers inputs such as " / " that the literal-empty guard of get
      and post lets through and that normalise to the empty path. */
  lemma {:induction false} EndPointCanonical(pre: string, lead: string, path: string, trail: string, post: string)
    requires AllIn(pre, Whitespace) && AllIn(lead, {'/'}) && AllIn(trail, {'/'}) && AllIn(post, Whitespace)
    requires path == [] || (path[0] !in Padding && path[|path| - 1] !in Padding)
    ensures SetEndPoint(pre + lead + path + trail + post) == path
  {
    EndPointCanonicalTrims(pre, lead, path, trail, post);
  }

  /** EndPointCanonical with the normaliser written out as its three trims. */
  lemma {:induction false} EndPointCanonicalTrims(pre: string, lead: string, path: string, trail: string, post: string)
    requires AllIn(pre, Whitespace) && AllIn(lead, {'/'}) && AllIn(trail, {'/'}) && AllIn(post, Whitespace)
    requires path == [] || (path[0] !in Padding && path[|path| - 1] !in Padding)
    ensures LTrim(RTrim(Trim(pre + lead + path + trail + post), {'/'}), {'/'}) == path
  {
    if path == [] {
      var t := lead + trail;
      assert pre + lead + path + trail + post == pre + t + post;
      AllInJoin(lead, trail, {'/'});
      assert t != [] ==> t[0] == '/' && t[|t| - 1] == '/';
      TrimAround(pre, t, post);
      assert [] + t == t;
      RTrimAround([], t, {'/'});
      LTrimAround([], [], {'/'});
    } else {
      var t := lead + path + trail;
      assert pre + lead + path + trail + post == pre + t + post;
      assert t[0] !in Whitespace && t[|t| - 1] !in Whitespace;
      TrimAround(pre, t, post);
      RTrimAround(lead + path, trail, {'/'});
      LTrimAround(lead, path, {'/'});
    }
  }

  /** The URL of the SDK's own test suite. */
  const ExampleUrl := "http://example.com"

  /** The blanks before, and the slashes and blanks after, ExampleUrl in
      the inputs of the SDK's own test of __setApiBaseUrl. */
  const BaseUrlTestPadding: set<(string, string, string)> :=
    {("", "", ""), ("", "/", ""), ("", "", " "), ("", "/", " "), (" ", "/", " ")}

  /** Every input of that test normalises to ExampleUrl. */
  lemma {:induction false} BaseUrlExamples(pre: string, slashes: string, post: string)
    requires (pre, slashes, post) in BaseUrlTestPadding
    ensures SetApiBaseUrl(pre + ExampleUrl + slashes + post) == ExampleUrl
  {
    assert ExampleUrl[0] == 'h' && ExampleUrl[|ExampleUrl| - 1] == 'm';
    assert AllIn(pre, Whitespace) && AllIn(slashes, {'/'}) && AllIn(post, Whitespace);
    BaseUrlCanonical(pre, ExampleUrl, slashes, post);
  }

  /** The endpoint of the SDK's own test suite. */
  const ExampleEndPoint := "endPoint"

  /** The blanks and slashes before, and the slashes and blanks after,
      ExampleEndPoint in the inputs of the SDK's own test of __setEndPoint. */
  const EndPointTestPadding: set<(string, string, string, string)> :=
    {("", "", "", ""), ("", "", "/", ""), ("", "/", "", " "), ("", "", "/", " "), (" ", "/", "/", " ")}

  /** Every input of that test normalises to ExampleEndPoint. */
  lemma {:induction false} EndPointExamples(pre: string, lead: string, trail: string, post: string)
    requires (pre, lead, trail, post) in EndPointTestPadding
    ensures SetEndPoint(pre + lead + ExampleEndPoint + trail + post) == ExampleEndPoint
  {
    assert ExampleEndPoint[0] == 'e' && ExampleEndPoint[|ExampleEndPoint| - 1] == 't';
    assert AllIn(pre, Whitespace) && AllIn(lead, {'/'}) && AllIn(trail, {'/'}) && AllIn(post, Whitespace);
    EndPointCanonical(pre, lead, ExampleEndPoint, trail, post);
  }

  /** The blanks around the key and the secret in the inputs of the SDK's
      own tests of getApiKey and getApiSecret. */
  const CredentialTestPadding: set<(string, string)> := {("", ""), (" ", ""), ("", " ")}

  /** Every input of those tests is stored, trimmed, as the bare value. */
  lemma {:induction false} CredentialExamples(pre: string, value: string, post: string)
    requires value in {"key", "secret"} && (pre, post) in CredentialTestPadding
    ensures Trim(pre + value + post) == value
  {
    assert value[0] in {'k', 's'} && value[|value| - 1] in {'y', 't'};
    assert AllIn(pre, Whitespace) && AllIn(post, Whitespace);
    TrimAround(pre, value, post);
  }

  /** Normalising a base URL twice can change it again: a blank in front
      of a trailing slash survives the first pass and not the second. */
  lemma BaseUrlNotIdempotent()
    ensures SetApiBaseUrl("a /") == "a "
    ensures SetApiBaseUrl(SetApiBaseUrl("a /")) == "a"
  {
    TrimAround("", "a /", "");
    assert "" + "a /" + "" == "a /" == "a " + "/";
    RTrimAround("a ", "/", {'/'});
    BaseUrlCanonical("", "a", "", " ");
    assert "" + "a" + "" + " " == "a ";
  }

  /** Normalising an endpoint twice can change it again: a blank behind a
      leading slash survives the first pass and not the second. */
  lemma EndPointNotIdempotent()
    ensures SetEndPoint("/ a") == " a"
    ensures SetEndPoint(SetEndPoint("/ a")) == "a"
  {
    SlashBlankTrims();
    EndPointCanonical(" ", "", "a", "", "");
    assert " " + "" + "a" + "" + "" == " a";
  }

  /** The first half of EndPointNotIdempotent, with the normaliser written
      out as its three trims. */
  lemma SlashBlankTrims()
    ensures LTrim(RTrim(Trim("/ a"), {'/'}), {'/'}) == " a"
  {
    TrimAround("", "/ a", "");
    assert "" + "/ a" + "" == "/ a" == "/ a" + "";
    RTrimAround("/ a", "", {'/'});
    assert "/ a" == "/" + " a";
    LTrimAround("/", " a", {'/'});
  }

  /** An endpoint made only of blanks, or only of slashes, passes the
      guard of get and post (which rejects only the empty string) and
      normalises to the empty path. */
  lemma {:induction false} BlankEndPointIsEmpty(e: string)
    requires AllIn(e, Whitespace) || AllIn(e, {'/'})
    ensures SetEndPoint(e) == ""
  {
    if AllIn(e, Whitespace) {
      assert e + [] + [] + [] + [] == e;
      EndPointCanonical(e, [], [], [], []);
    } else {
      assert [] + e + [] + [] + [] == e;
      EndPointCanonical([], e, [], [], []);
    }
  }

  /** The header every request asks for JSON with. */
  const AcceptJson: Header := ("Accept", "application/json")

  /** The scheme word in front of the token in the Authorization header. */
  const Bearer := "Bearer "

  /** The Authorization header for the stored token: the bearer scheme,
      then the token, which can be read back from the header's end; a token
      that was never set interpolates as the empty string. */
  function Authorization(token: Option<string>): (h: Header)
    ensures h.0 == "Authorization"
    ensures |h.1| >= |Bearer| && h.1[..|Bearer|] == Bearer
    ensures token.Some? ==> h.1[|Bearer|..] == token.value
    ensures token.None? ==> h.1 == Bearer
  {
    ("Authorization", Bearer + match token case None => "" case Some(t) => t)
  }

  /** The URL of a path under the ex-app prefix: the base, then the prefix
      between two slashes, then the path, which can be read back from the
      URL's end, so for a fixed base distinct paths give distinct URLs. */
  function ExAppUrl(base: string, path: string): (url: string)
    ensures |url| == |base| + |ApiPrefix| + 2 + |path|
    ensures url[..|base|] == base
    ensures url[|base|..|base| + |ApiPrefix| + 2] == "/" + ApiPrefix + "/"
    ensures url[|base| + |ApiPrefix| + 2..] == path
  {
    base + "/" + ApiPrefix + "/" + path
  }

  /** The client. The base URL and the credentials are fixed at
      construction; the token is the only state that changes. */
  class ShiftSdkPhp {
    const apiBaseUrl: string
    const apiKey: string
    const apiSecret: string
    /** The bearer token, unset until a createToken succeeds. */
    var token: Option<string>

    /** What construction guarantees of the fixed fields. */
    ghost predicate Valid() {
      && (apiBaseUrl == [] || apiBaseUrl[|apiBaseUrl| - 1] != '/')
      && Unpadded(apiKey, Whitespace)
      && Unpadded(apiSecret, Whitespace)
    }

    constructor (apiBaseUrl: string, apiKey: string, apiSecret: string)
      ensures this.apiBaseUrl == SetApiBaseUrl(apiBaseUrl)
      ensures this.apiKey == Trim(apiKey) && this.apiSecret == Trim(apiSecret)
      ensures token == None
      ensures Valid()
    {
      this.apiBaseUrl := SetApiBaseUrl(apiBaseUrl);
      this.apiKey := Trim(apiKey);
      this.apiSecret := Trim(apiSecret);
      token := None;
    }

    /** getApiBaseUrl: the normalised base URL, without a trailing slash. */
    function GetApiBaseUrl(): (url: string)
      requires Valid()
      ensures url == [] || url[|url| - 1] != '/'
    {
      apiBaseUrl
    }

    /** getApiKey: the trimmed key. */
    function GetApiKey(): (key: string)
      requires Valid()
      ensures Unpadded(key, Whitespace)
    {
      apiKey
    }

    /** getApiSecret: the trimmed secret. */
    function GetApiSecret(): (secret: string)
      requires Valid()
      ensures Unpadded(secret, Whitespace)
    {
      apiSecret
    }

    /** createToken: posts the key and secret, without a token, to
        ex-app/create-token. A token in the reply replaces the stored one;
        on every error the stored token stays as it was. */
    method CreateToken(outcome: Outcome) returns (sent: Request, result: Result<()>)
      modifies this
      ensures sent == Request(Verb.Post, ExAppUrl(apiBaseUrl, "create-token"), [AcceptJson],
                              [("key", apiKey), ("password", apiSecret)])
      ensures result.Ok? <==> ClassifyToken(outcome).Ok?
      ensures result.Err? ==> result.error == ClassifyToken(outcome).error
      ensures token == if ClassifyToken(outcome).Ok? then Some(ClassifyToken(outcome).value) else old(token)
    {
      sent := Request(Verb.Post, ExAppUrl(apiBaseUrl, "create-token"), [AcceptJson],
                      [("key", apiKey), ("password", apiSecret)]);
      match ClassifyToken(outcome) {
        case Ok(t) =>
          token := Some(t);
          result := Ok(());
        case Err(e) =>
          result := Err(e);
      }
    }

    /** post: rejects the empty endpoint without sending anything;
        otherwise posts data, with the stored token, to the normalised
        endpoint under ex-app and classifies the outcome. */
    method Post(endPoint: string, data: Params, outcome: Outcome) returns (sent: Option<Request>, result: Result<Decoded>)
      ensures sent.None? <==> endPoint == ""
      ensures endPoint == "" ==> result == Err(EmptyEndPoint)
      ensures endPoint != "" ==>
        sent == Some(Request(Verb.Post, ExAppUrl(apiBaseUrl, SetEndPoint(endPoint)), [AcceptJson, Authorization(token)], data))
      ensures endPoint != "" ==> result == ClassifyRequest(outcome)
    {
      if endPoint == "" {
        return None, Err(EmptyEndPoint);
      }
      var path := SetEndPoint(endPoint);
      sent := Some(Request(Verb.Post, ExAppUrl(apiBaseUrl, path), [AcceptJson, Authorization(token)], data));
      result := ClassifyRequest(outcome);
    }

    /** get: as post, with the parameters sent as the query of a GET. */
    method Get(endPoint: string, query: Params, outcome: Outcome) returns (sent: Option<Request>, result: Result<Decoded>)
      ensures sent.None? <==> endPoint == ""
      ensures endPoint == "" ==> result == Err(EmptyEndPoint)
      ensures endPoint != "" ==>
        sent == Some(Request(Verb.Get, ExAppUrl(apiBaseUrl, SetEndPoint(endPoint)), [AcceptJson, Authorization(token)], query))
      ensures endPoint != "" ==> result == ClassifyRequest(outcome)
    {
      if endPoint == "" {
        return None, Err(EmptyEndPoint);
      }
      var path := SetEndPoint(endPoint);
      sent := Some(Request(Verb.Get, ExAppUrl(apiBaseUrl, path), [AcceptJson, Authorization(token)], query));
      result := ClassifyRequest(outcome);
    }
  }

  /** The token's life in one client: a get before any createToken sends
      an empty bearer token; after a createToken that yields t it sends t;
      a second createToken replaces t only when it succeeds. */
  method TokenLifecycle(base: string, key: string, secret: string, t: string, renewal: Outcome,
                        endPoint: string, query: Params, reply: Outcome)
    returns (before: Option<Request>, after: Option<Request>)
    requires endPoint != ""
    ensures before.Some? && after.Some?
    ensures before.value.url == after.value.url == ExAppUrl(SetApiBaseUrl(base), SetEndPoint(endPoint))
    ensures before.value.headers == [AcceptJson, Authorization(None)]
    ensures after.value.headers == [AcceptJson, Authorization(Some(if ClassifyToken(renewal).Ok? then ClassifyToken(renewal).value else t))]
  {
    var sdk := new ShiftSdkPhp(base, key, secret);
    var result;
    before, result := sdk.Get(endPoint, query, reply);
    var tokenRequest, created := sdk.CreateToken(Succeeded(NonEmpty(Some(t))));
    tokenRequest, created := sdk.CreateToken(renewal);
    after, result := sdk.Get(endPoint, query, reply);
  }
}
