/**
 * The request scenarios of test/strategy-test.js, stated about the model for
 * every token without spaces (the tests use `vF9dft4qmT`): the locator's
 * verdict on each request, and the dispositions whole strategies reach with
 * the verifiers used there.
 */
module Scenarios {
  import opened Wrappers
  import opened JsValues
  import opened SplitString
  import TokenPattern
  import opened Locator
  import opened Dispatcher
  import opened EmberAuth

  const CustomKey: string := "custom_key"

  /** A header value `scheme token`. */
  function Credentials(scheme: string, token: string): string
  {
    scheme + [' '] + token
  }

  function HeaderRequest(authorization: string): Request
  {
    Request(Some(map[AuthorizationHeader := authorization]), None, None)
  }

  function FieldMap(key: string, value: string): Option<Params>
  {
    Some(map[key := value])
  }

  /** A header whose scheme equals the key up to case carries its token. */
  lemma SchemeEqualUpToCase(scheme: string, tokenKey: string, token: string)
    requires |scheme| == |tokenKey|
    requires forall j :: 0 <= j < |tokenKey| ==> TokenPattern.Fold(scheme[j]) == TokenPattern.Fold(tokenKey[j])
    requires ' ' !in scheme && ' ' !in token && token != ""
    ensures Locate(HeaderRequest(Credentials(scheme, token)), tokenKey) == Found(token)
  {
    TokenPattern.SameUpToCaseMatches(tokenKey, scheme);
    HeaderAlone(HeaderRequest(Credentials(scheme, token)), scheme, token, tokenKey);
  }

  /** The upper-case scheme of the tests matches the default key. */
  lemma UpperSchemeResolves(token: string)
    requires token != "" && ' ' !in token
    ensures Locate(HeaderRequest(Credentials("AUTH_TOKEN", token)), DefaultTokenKey) == Found(token)
  {
    SchemeEqualUpToCase("AUTH_TOKEN", DefaultTokenKey, token);
  }

  /** The lower-case scheme matches the default key as well. */
  lemma LowerSchemeResolves(token: string)
    requires token != "" && ' ' !in token
    ensures Locate(HeaderRequest(Credentials("auth_token", token)), DefaultTokenKey) == Found(token)
  {
    SchemeEqualUpToCase("auth_token", DefaultTokenKey, token);
  }

  /** A custom key is matched by its upper-case scheme. */
  lemma CustomSchemeResolves(token: string)
    requires token != "" && ' ' !in token
    ensures Locate(HeaderRequest(Credentials("CUSTOM_KEY", token)), CustomKey) == Found(token)
  {
    SchemeEqualUpToCase("CUSTOM_KEY", CustomKey, token);
  }

  /** Body and query fields named by the key carry the token; a query field
      under another name is not looked at, so nothing is found. */
  lemma FieldsResolve(token: string)
    requires token != ""
    ensures Locate(Request(None, FieldMap(DefaultTokenKey, token), None), DefaultTokenKey) == Found(token)
    ensures Locate(Request(None, None, FieldMap(DefaultTokenKey, token)), DefaultTokenKey) == Found(token)
    ensures Locate(Request(None, FieldMap(CustomKey, token), None), CustomKey) == Found(token)
    ensures Locate(Request(None, None, FieldMap(CustomKey, token)), CustomKey) == Found(token)
    ensures Locate(Request(None, None, FieldMap(CustomKey, token)), DefaultTokenKey) == NotFound
  {
  }

  /** A request with no credentials at all finds nothing. */
  lemma NoCredentials(tokenKey: string)
    ensures Locate(Request(None, None, None), tokenKey) == NotFound
  {
  }

  /** A header that is only a scheme, such as `AUTH_TOKEN`, is malformed. */
  lemma SchemeOnlyMalformed(scheme: string, tokenKey: string)
    requires scheme != "" && ' ' !in scheme
    ensures Locate(HeaderRequest(scheme), tokenKey) == Malformed
  {
    CountZero(scheme, ' ');
    MalformedHeaderDecides(map[AuthorizationHeader := scheme], None, None, tokenKey);
  }

  /** A header and a query field carrying the same token conflict, for any
      scheme equal to the key up to case. */
  lemma HeaderAndQueryConflict(scheme: string, tokenKey: string, token: string)
    requires |scheme| == |tokenKey|
    requires forall j :: 0 <= j < |tokenKey| ==> TokenPattern.Fold(scheme[j]) == TokenPattern.Fold(tokenKey[j])
    requires ' ' !in scheme && ' ' !in token && token != ""
    ensures Locate(Request(Some(map[AuthorizationHeader := Credentials(scheme, token)]), None,
                           FieldMap(tokenKey, token)), tokenKey) == Conflict
  {
    TokenPattern.SameUpToCaseMatches(tokenKey, scheme);
    HeaderAndFieldConflict(Request(Some(map[AuthorizationHeader := Credentials(scheme, token)]), None,
                                   FieldMap(tokenKey, token)), scheme, token, tokenKey);
  }

  /** The test's request: header `AUTH_TOKEN <token>` and query
      `auth_token=<token>`. */
  lemma SameTokenTwiceConflicts(token: string)
    requires token != "" && ' ' !in token
    ensures Locate(Request(Some(map[AuthorizationHeader := Credentials("AUTH_TOKEN", token)]), None,
                           FieldMap(DefaultTokenKey, token)), DefaultTokenKey) == Conflict
  {
    HeaderAndQueryConflict("AUTH_TOKEN", DefaultTokenKey, token);
  }

  /** Two spaces make three pieces: malformed, even with a body token. */
  lemma DoubleSpaceMalformed(token: string)
    requires ' ' !in token
    ensures Locate(Request(Some(map[AuthorizationHeader := Credentials("AUTH_TOKEN", [' '] + token)]),
                           FieldMap(DefaultTokenKey, token), None), DefaultTokenKey) == Malformed
  {
    var h := Credentials("AUTH_TOKEN", [' '] + token);
    assert h == "AUTH_TOKEN" + ([' '] + ([' '] + token));
    CountZero("AUTH_TOKEN", ' ');
    CountZero(token, ' ');
    CountAppend("AUTH_TOKEN", [' '] + ([' '] + token), ' ');
    CountAppend([' '], [' '] + token, ' ');
    CountAppend([' '], token, ' ');
    MalformedHeaderDecides(map[AuthorizationHeader := h], FieldMap(DefaultTokenKey, token), None, DefaultTokenKey);
  }

  /** `AUTH_TOKEN ` has an empty token part: it offers nothing, so a body value
      does not conflict with it and becomes the token; alone it finds nothing. */
  lemma EmptyHeaderTokenYields(token: string)
    requires token != ""
    ensures Locate(Request(Some(map[AuthorizationHeader := Credentials("AUTH_TOKEN", "")]),
                           FieldMap(DefaultTokenKey, token), None), DefaultTokenKey) == Found(token)
    ensures Locate(HeaderRequest(Credentials("AUTH_TOKEN", "")), DefaultTokenKey) == NotFound
  {
    IgnoredHeader(Request(Some(map[AuthorizationHeader := Credentials("AUTH_TOKEN", "")]),
                          FieldMap(DefaultTokenKey, token), None), "AUTH_TOKEN", "", DefaultTokenKey);
    IgnoredHeader(HeaderRequest(Credentials("AUTH_TOKEN", "")), "AUTH_TOKEN", "", DefaultTokenKey);
  }

  /** The scheme test is containment: the key `tok` matches the scheme
      `auth_token`. */
  lemma KeyInsideScheme(token: string)
    requires token != "" && ' ' !in token
    ensures Locate(HeaderRequest(Credentials("auth_token", token)), "tok") == Found(token)
  {
    TokenPattern.EmbeddedMatches("tok", "auth_", "en");
    assert "auth_" + "tok" + "en" == "auth_token";
    HeaderAlone(HeaderRequest(Credentials("auth_token", token)), "auth_token", token, "tok");
  }

  /** A scheme that lacks the key, such as `Bearer`, is ignored: no token,
      and no error for the header either. */
  lemma ForeignSchemeIgnored(token: string)
    requires ' ' !in token
    ensures Locate(HeaderRequest(Credentials("Bearer", token)), DefaultTokenKey) == NotFound
  {
    TokenPattern.ShortLabelFails(DefaultTokenKey, "Bearer");
    IgnoredHeader(HeaderRequest(Credentials("Bearer", token)), "Bearer", token, DefaultTokenKey);
  }

  /** Construction without any verifier throws; a lone verifier gets the
      default key; an options object's key and flag are kept, and an empty
      key falls back to the default. */
  lemma Construction(f: Verifier)
    ensures Configure(Absent, None) == Err(MissingVerify)
    ensures Configure(Object(Options(Some(CustomKey), Undefined)), None) == Err(MissingVerify)
    ensures Configure(Function(f), None) == Ok(Config(f, "auth_token", Undefined))
    ensures Configure(Object(Options(Some(CustomKey), Bool(true))), Some(f))
         == Ok(Config(f, CustomKey, Bool(true)))
    ensures Configure(Object(Options(Some(""), Undefined)), Some(f)) == Ok(Config(f, "auth_token", Undefined))
  {
  }

  /** An accepting verifier: success with the user, called with the token
      alone, or with the request first when `passReqToCallback` is set. */
  method AcceptingVerifier(token: string)
    requires token != "" && ' ' !in token
  {
    var user := Obj(1);
    var accept: Verifier := (inv: Invocation) => CallbackArgs(Null, user, Undefined);
    var req := HeaderRequest(Credentials("AUTH_TOKEN", token));
    UpperSchemeResolves(token);

    var r := NewStrategy(Function(accept), None);
    var call, d := r.value.Authenticate(req);
    assert call == Some(WithToken(token)) && d == Success(user, Undefined);

    r := NewStrategy(Object(Options(None, Bool(true))), Some(accept));
    call, d := r.value.Authenticate(req);
    assert call == Some(WithRequest(req, token)) && d == Success(user, Undefined);
  }

  /** Extra info from the verifier reaches `success` unchanged. */
  method VerifierWithInfo(token: string)
    requires token != "" && ' ' !in token
  {
    var accept: Verifier := (inv: Invocation) => CallbackArgs(Null, Obj(1), Obj(2));
    var req := HeaderRequest(Credentials("AUTH_TOKEN", token));
    UpperSchemeResolves(token);
    var r := NewStrategy(Function(accept), None);
    var call, d := r.value.Authenticate(req);
    assert d == Success(Obj(1), Obj(2));
  }

  /** `done(null, false)` fails with 401; `done(err)` reaches `error`. */
  method RejectingAndFailingVerifiers(token: string)
    requires token != "" && ' ' !in token
  {
    var reject: Verifier := (inv: Invocation) => CallbackArgs(Null, Bool(false), Undefined);
    var fault: Verifier := (inv: Invocation) => CallbackArgs(Obj(3), Undefined, Undefined);
    var req := HeaderRequest(Credentials("AUTH_TOKEN", token));
    UpperSchemeResolves(token);

    var r := NewStrategy(Function(reject), None);
    var call, d := r.value.Authenticate(req);
    assert d == Fail(401);

    r := NewStrategy(Function(fault), None);
    call, d := r.value.Authenticate(req);
    assert d == Error(Obj(3));
  }

  /** With the token given twice, the verifier is never called. */
  method ConflictSkipsVerifier(token: string)
    requires token != "" && ' ' !in token
  {
    var fault: Verifier := (inv: Invocation) => CallbackArgs(Obj(3), Undefined, Undefined);
    SameTokenTwiceConflicts(token);
    var r := NewStrategy(Function(fault), None);
    var call, d := r.value.Authenticate(Request(Some(map[AuthorizationHeader := Credentials("AUTH_TOKEN", token)]),
                                                None, FieldMap(DefaultTokenKey, token)));
    assert call == None && d == Fail(400);

    r := NewStrategy(Absent, None);
    assert r == Err(MissingVerify);
  }
}
