/**
 * The OAuth2 error value of niso (error.go): a protocol error code, a human
 * readable message, the underlying cause kept for diagnostics, and a private
 * redirect target and state. The error renders itself as a three-key response
 * mapping and as a redirect URL whose query carries that mapping.
 */
module Errors {
  import opened Wrappers

  // ---------------------------------------------------------------------------
  // Error codes
  // ---------------------------------------------------------------------------

  /** The ten error codes of sections 4.1.2.1 and 5.2 of RFC 6749. */
  datatype ErrorCode =
    | InvalidRequest
    | UnauthorizedClient
    | AccessDenied
    | UnsupportedResponseType
    | InvalidScope
    | ServerError
    | TemporarilyUnavailable
    | UnsupportedGrantType
    | InvalidGrant
    | InvalidClient

  /** The wire spelling of a code (the Go `ErrorCode` string constant). */
  function CodeString(c: ErrorCode): (s: string)
    ensures s != ""
  {
    match c
    case InvalidRequest => "invalid_request"
    case UnauthorizedClient => "unauthorized_client"
    case AccessDenied => "access_denied"
    case UnsupportedResponseType => "unsupported_response_type"
    case InvalidScope => "invalid_scope"
    case ServerError => "server_error"
    case TemporarilyUnavailable => "temporarily_unavailable"
    case UnsupportedGrantType => "unsupported_grant_type"
    case InvalidGrant => "invalid_grant"
    case InvalidClient => "invalid_client"
  }

  /** Reads a wire spelling back as a code; any other string is not a code. */
  function ParseCode(s: string): Option<ErrorCode>
  {
    if s == "invalid_request" then Some(InvalidRequest)
    else if s == "unauthorized_client" then Some(UnauthorizedClient)
    else if s == "access_denied" then Some(AccessDenied)
    else if s == "unsupported_response_type" then Some(UnsupportedResponseType)
    else if s == "invalid_scope" then Some(InvalidScope)
    else if s == "server_error" then Some(ServerError)
    else if s == "temporarily_unavailable" then Some(TemporarilyUnavailable)
    else if s == "unsupported_grant_type" then Some(UnsupportedGrantType)
    else if s == "invalid_grant" then Some(InvalidGrant)
    else if s == "invalid_client" then Some(InvalidClient)
    else None
  }

  /** Every code is read back from its spelling. */
  lemma ParseCodeString(c: ErrorCode)
    ensures ParseCode(CodeString(c)) == Some(c)
  {
  }

  /** ParseCode accepts exactly the ten spellings, each as its own code. */
  lemma ParseCodeSound(s: string, c: ErrorCode)
    ensures ParseCode(s) == Some(c) <==> s == CodeString(c)
  {
    if s == CodeString(c) {
      ParseCodeString(c);
    }
  }

  /** The ten spellings are pairwise distinct. */
  lemma CodeStringInjective(a: ErrorCode, b: ErrorCode)
    ensures CodeString(a) == CodeString(b) ==> a == b
  {
    ParseCodeString(a);
    ParseCodeString(b);
  }

  /** All ten codes, in the order error.go declares them. */
  const AllCodes: seq<ErrorCode> := [
    InvalidRequest, UnauthorizedClient, AccessDenied, UnsupportedResponseType,
    InvalidScope, ServerError, TemporarilyUnavailable, UnsupportedGrantType,
    InvalidGrant, InvalidClient
  ]

  /** The code set is closed: exactly ten codes, with ten distinct spellings. */
  lemma CodeSetClosed(c: ErrorCode)
    ensures c in AllCodes
    ensures |AllCodes| == 10
    ensures forall i, j :: 0 <= i < j < |AllCodes| ==> CodeString(AllCodes[i]) != CodeString(AllCodes[j])
  {
    forall i, j | 0 <= i < j < |AllCodes|
      ensures CodeString(AllCodes[i]) != CodeString(AllCodes[j])
    {
      CodeStringInjective(AllCodes[i], AllCodes[j]);
    }
  }

  // ---------------------------------------------------------------------------
  // Causes (the wrapped Go `error`)
  // ---------------------------------------------------------------------------

  /**
   * The error a NisoError keeps for diagnostics: one made from a message,
   * a message wrapped around an inner cause, or an error from elsewhere whose
   * text is all that is known of it.
   */
  datatype Cause =
    | Message(msg: string)
    | Wrapped(inner: Cause, msg: string)
    | Foreign(text: string)

  /** The text of a cause; a wrapping puts its message before the inner text. */
  function CauseText(c: Cause): string
  {
    match c
    case Message(m) => m
    case Wrapped(inner, m) => m + ": " + CauseText(inner)
    case Foreign(t) => t
  }

  /** Wrapping a cause with a message; wrapping a nil error gives nil. */
  function Wrap(err: Option<Cause>, msg: string): (r: Option<Cause>)
    ensures r.None? <==> err.None?
    ensures r.Some? ==> r.value.Wrapped? && r.value.inner == err.value && r.value.msg == msg
  {
    match err
    case None => None
    case Some(c) => Some(Wrapped(c, msg))
  }

  /** The text of a wrapped cause ends with the inner cause's text. */
  lemma WrapKeepsInnerText(c: Cause, msg: string)
    ensures var t := CauseText(Wrap(Some(c), msg).value);
      t == msg + ": " + CauseText(c) && t[|msg| + 2..] == CauseText(c)
  {
  }

  /** The innermost cause under any number of wrappings. */
  function RootCause(c: Cause): (r: Cause)
    ensures !r.Wrapped?
  {
    if c.Wrapped? then RootCause(c.inner) else c
  }

  /**
   * Wrapping keeps the original cause for diagnostics: whatever the number of
   * wrappings, the text ends with the text of the innermost cause.
   */
  lemma {:induction false} RootCauseTextIsSuffix(c: Cause)
    ensures |CauseText(RootCause(c))| <= |CauseText(c)|
    ensures CauseText(c)[|CauseText(c)| - |CauseText(RootCause(c))|..] == CauseText(RootCause(c))
  {
    if c.Wrapped? {
      RootCauseTextIsSuffix(c.inner);
      var t := CauseText(c.inner);
      assert CauseText(c) == c.msg + ": " + t;
      assert CauseText(c)[|CauseText(c)| - |t|..] == t;
    }
  }

  // ---------------------------------------------------------------------------
  // URLs
  // ---------------------------------------------------------------------------

  /** A parsed URL: everything but the query and fragment is kept as it is. */
  datatype Url = Url(
    scheme: string,
    host: string,
    path: string,
    query: map<string, seq<string>>,
    fragment: string)

  /** The failure a URL parser reports. */
  datatype UrlError = UrlError(text: string)

  /**
   * The query after merging the response mapping into it: each key whose value
   * is non-empty is set to that single value, every other key keeps its values.
   */
  function MergeNonEmpty(q: map<string, seq<string>>, d: map<string, string>): map<string, seq<string>>
  {
    map k | k in q.Keys + (set k | k in d && d[k] != "") ::
      if k in d && d[k] != "" then [d[k]] else q[k]
  }

  /** What the merged query holds at every key, in both directions. */
  lemma MergeNonEmptyAt(q: map<string, seq<string>>, d: map<string, string>, k: string)
    ensures var r := MergeNonEmpty(q, d);
      && (k in r <==> k in q || (k in d && d[k] != ""))
      && (k in d && d[k] != "" ==> r[k] == [d[k]])
      && (!(k in d && d[k] != "") && k in q ==> r[k] == q[k])
  {
  }

  /** The URL an error redirects to: the merged query and no fragment. */
  function Redirected(u: Url, d: map<string, string>): Url
  {
    u.(query := MergeNonEmpty(u.query, d), fragment := "")
  }

  // ---------------------------------------------------------------------------
  // The error value
  // ---------------------------------------------------------------------------

  /** Reads a response mapping back into its code, description and state. */
  function DecodeResponseDict(d: map<string, string>): Option<(ErrorCode, string, string)>
  {
    if "error" in d && "error_description" in d && "state" in d then
      match ParseCode(d["error"])
      case Some(c) => Some((c, d["error_description"], d["state"]))
      case None => None
    else None
  }

  /** An OAuth2 error; the setters fill in where and with what state it is sent. */
  class NisoError {
    var code: ErrorCode
    var err: Option<Cause>
    /** Human readable description, shown to the client. */
    var message: string
    /** Where the error response is redirected, or empty for none. */
    var redirectURI: string
    /** The state parameter passed back to the client. */
    var state: string

    /** A new error whose cause is made from its own message. */
    constructor New(code: ErrorCode, message: string)
      ensures this.code == code && this.message == message
      ensures err == Some(Message(message))
      ensures redirectURI == "" && state == ""
    {
      this.code := code;
      this.err := Some(Message(message));
      this.message := message;
      this.redirectURI := "";
      this.state := "";
    }

    /** A new error that wraps an existing (possibly nil) cause with its message. */
    constructor NewWrapped(code: ErrorCode, cause: Option<Cause>, message: string)
      ensures this.code == code && this.message == message
      ensures err == Wrap(cause, message)
      ensures redirectURI == "" && state == ""
    {
      this.code := code;
      this.err := Wrap(cause, message);
      this.message := message;
      this.redirectURI := "";
      this.state := "";
    }

    /** Sets where the error is redirected; no other field changes. */
    method SetRedirectURI(redirectURI: string)
      modifies this`redirectURI
      ensures this.redirectURI == redirectURI
    {
      this.redirectURI := redirectURI;
    }

    /** Sets the state echoed to the client; no other field changes. */
    method SetState(state: string)
      modifies this`state
      ensures this.state == state
    {
      this.state := state;
    }

    /** The diagnostic text: the code in parentheses, then the cause's text. */
    function Error(): (s: string)
      reads this
      requires err.Some?
      ensures |s| == |CodeString(code)| + 3 + |CauseText(err.value)|
      ensures s[..|CodeString(code)| + 3] == "(" + CodeString(code) + ") "
      ensures s[|CodeString(code)| + 3..] == CauseText(err.value)
    {
      "(" + CodeString(code) + ") " + CauseText(err.value)
    }

    /** The response mapping: always the three keys, even for an empty state. */
    function GetResponseDict(): (d: map<string, string>)
      reads this
      ensures d.Keys == {"error", "error_description", "state"}
      ensures d["error"] == CodeString(code)
      ensures d["error_description"] == message
      ensures d["state"] == state
    {
      map["error" := CodeString(code), "error_description" := message, "state" := state]
    }

    /**
     * The URL to redirect to: none when no redirect is set (without parsing),
     * the parse failure unchanged, otherwise the parsed URL with the non-empty
     * response values merged into its query and its fragment cleared.
     */
    method GetRedirectURI(parse: string -> Result<Url, UrlError>) returns (r: Result<Option<Url>, UrlError>)
      ensures redirectURI == "" ==> r == Ok(None)
      ensures redirectURI != "" && parse(redirectURI).Err? ==> r == Err(parse(redirectURI).error)
      ensures redirectURI != "" && parse(redirectURI).Ok? ==>
        r == Ok(Some(Redirected(parse(redirectURI).value, GetResponseDict())))
    {
      if redirectURI == "" {
        return Ok(None);
      }
      var parsed := parse(redirectURI);
      if parsed.Err? {
        return Err(parsed.error);
      }
      var u := parsed.value;
      var q := u.query;
      var dict := GetResponseDict();
      var todo := dict.Keys;
      while todo != {}
        invariant todo <= dict.Keys
        invariant forall k :: k in q <==> k in u.query || (k in dict && k !in todo && dict[k] != "")
        invariant forall k :: k in q ==> q[k] == if k in dict && k !in todo && dict[k] != "" then [dict[k]] else u.query[k]
        decreases todo
      {
        var k :| k in todo;
        if dict[k] != "" {
          q := q[k := [dict[k]]];
        }
        todo := todo - {k};
      }
      assert q == MergeNonEmpty(u.query, dict);
      u := u.(query := q, fragment := "");
      return Ok(Some(u));
    }
  }

  // ---------------------------------------------------------------------------
  // Properties of the rendered error
  // ---------------------------------------------------------------------------

  /** The response mapping determines the code, message and state it renders. */
  lemma ResponseDictRoundTrip(e: NisoError)
    ensures DecodeResponseDict(e.GetResponseDict()) == Some((e.code, e.message, e.state))
  {
    ParseCodeString(e.code);
  }

  /**
   * The redirect URL keeps the parsed scheme, host and path, has no fragment,
   * always carries the error code, carries the state and description exactly
   * when they are non-empty (otherwise the original parameter survives), and
   * keeps every other original parameter untouched.
   */
  lemma RedirectedQuery(e: NisoError, u: Url)
    ensures var r := Redirected(u, e.GetResponseDict());
      && r.scheme == u.scheme && r.host == u.host && r.path == u.path
      && r.fragment == ""
      && "error" in r.query && r.query["error"] == [CodeString(e.code)]
      && (e.state != "" ==> "state" in r.query && r.query["state"] == [e.state])
      && (e.state == "" ==> ("state" in r.query <==> "state" in u.query))
      && (e.state == "" && "state" in u.query ==> r.query["state"] == u.query["state"])
      && (e.message != "" ==> "error_description" in r.query && r.query["error_description"] == [e.message])
      && (e.message == "" ==> ("error_description" in r.query <==> "error_description" in u.query))
      && (e.message == "" && "error_description" in u.query ==>
            r.query["error_description"] == u.query["error_description"])
      && (forall k :: k in u.query && k !in e.GetResponseDict() ==> k in r.query && r.query[k] == u.query[k])
      && (forall k :: k in r.query ==> k in u.query || k in e.GetResponseDict())
  {
    var d := e.GetResponseDict();
    MergeNonEmptyAt(u.query, d, "error");
    MergeNonEmptyAt(u.query, d, "state");
    MergeNonEmptyAt(u.query, d, "error_description");
    forall k | k in u.query && k !in d
      ensures k in MergeNonEmpty(u.query, d) && MergeNonEmpty(u.query, d)[k] == u.query[k]
    {
      MergeNonEmptyAt(u.query, d, k);
    }
  }

  /** Rendering twice changes nothing more: merging the same mapping is idempotent. */
  lemma RedirectedIdempotent(u: Url, d: map<string, string>)
    ensures Redirected(Redirected(u, d), d) == Redirected(u, d)
  {
    var once := MergeNonEmpty(u.query, d);
    var twice := MergeNonEmpty(once, d);
    forall k | k in twice ensures k in once && twice[k] == once[k] {
      MergeNonEmptyAt(u.query, d, k);
      MergeNonEmptyAt(once, d, k);
    }
    forall k | k in once ensures k in twice {
      MergeNonEmptyAt(once, d, k);
    }
    assert twice == once;
  }
}
