/**
 * The token locator of `Strategy.prototype.authenticate`
 * (lib/passport-ember-auth/strategy.js): which of the three carriers, the
 * `Authorization` header, the body field and the query field named by the
 * token key, supplies the token.
 *
 * `Locate` is the reference definition, stated declaratively: a malformed
 * header decides alone; otherwise every carrier that supplies a non-empty
 * value contributes it, and exactly one contribution must exist. The
 * step-by-step code with its early returns is `EmberAuth.Strategy.Authenticate`,
 * which is proved to agree with it.
 */
module Locator {
  import opened Wrappers
  import opened JsValues
  import opened SplitString
  import TokenPattern

  /** A parsed parameter or header map; a missing key reads as `undefined`. */
  type Params = map<string, string>

  /** The request as the strategy reads it: three optional, already parsed maps. */
  datatype Request = Request(headers: Option<Params>, body: Option<Params>, query: Option<Params>)

  /** The header the locator inspects (Node lower-cases header names). */
  const AuthorizationHeader: string := "authorization"

  /** `m && m[key]` on a map that may be missing. */
  function Lookup(m: Option<Params>, key: string): Option<string>
  {
    if m.Some? && key in m.value then Some(m.value[key]) else None
  }

  /** Truthiness of a value that is `undefined` or a string. */
  predicate Supplied(v: Option<string>)
  {
    v.Some? && TruthyString(v.value)
  }

  function Header(req: Request): Option<string>
  {
    Lookup(req.headers, AuthorizationHeader)
  }

  /** A non-empty header that does not split on ' ' into exactly two pieces. */
  predicate HeaderMalformed(req: Request)
  {
    Supplied(Header(req)) && |Split(Header(req).value, ' ')| != 2
  }

  /** What a well-formed header contributes: its second piece, when the first
      piece matches the token key and the second piece is not empty. */
  function HeaderContribution(req: Request, tokenKey: string): seq<string>
  {
    if Supplied(Header(req)) && !HeaderMalformed(req) then
      var parts := Split(Header(req).value, ' ');
      if TokenPattern.Test(tokenKey, parts[0]) && TruthyString(parts[1]) then [parts[1]] else []
    else []
  }

  /** What a body or query map contributes under the token key. */
  function FieldContribution(m: Option<Params>, tokenKey: string): seq<string>
  {
    if Supplied(Lookup(m, tokenKey)) then [Lookup(m, tokenKey).value] else []
  }

  /** Every non-empty token the three carriers offer, in carrier order. */
  function Contributions(req: Request, tokenKey: string): (c: seq<string>)
    ensures |c| <= 3
    ensures forall i :: 0 <= i < |c| ==> c[i] != ""
  {
    HeaderContribution(req, tokenKey) + FieldContribution(req.body, tokenKey)
      + FieldContribution(req.query, tokenKey)
  }

  /** The locator's verdict. Every failure ends in `fail(400)`; the model
      keeps the three reasons apart. */
  datatype Located = Found(token: string) | Malformed | Conflict | NotFound

  /** Reference definition of the locator. */
  function Locate(req: Request, tokenKey: string): (r: Located)
    ensures r.Found? ==> r.token != ""
  {
    if HeaderMalformed(req) then Malformed
    else
      var c := Contributions(req, tokenKey);
      if |c| == 0 then NotFound
      else if |c| == 1 then Found(c[0])
      else Conflict
  }

  /** A non-empty header without exactly one space fails as malformed, whatever
      the body and query hold. */
  lemma MalformedHeaderDecides(headers: Params, body: Option<Params>, query: Option<Params>, tokenKey: string)
    requires AuthorizationHeader in headers && headers[AuthorizationHeader] != ""
    requires Count(headers[AuthorizationHeader], ' ') != 1
    ensures Locate(Request(Some(headers), body, query), tokenKey) == Malformed
  {
  }

  /** A header `scheme token` is well formed, and it offers `token` exactly
      when the key occurs in `scheme` (ignoring case) and `token` is not empty. */
  lemma {:induction false} WellFormedHeader(req: Request, scheme: string, token: string, tokenKey: string)
    requires Header(req) == Some(scheme + [' '] + token)
    requires ' ' !in scheme && ' ' !in token
    ensures !HeaderMalformed(req)
    ensures HeaderContribution(req, tokenKey)
         == if TokenPattern.Test(tokenKey, scheme) && token != "" then [token] else []
  {
    SplitTwo(scheme, token, ' ');
  }

  /** A matching header with a non-empty token and nothing in body or query
      yields that token. */
  lemma HeaderAlone(req: Request, scheme: string, token: string, tokenKey: string)
    requires Header(req) == Some(scheme + [' '] + token)
    requires ' ' !in scheme && ' ' !in token && token != ""
    requires TokenPattern.Test(tokenKey, scheme)
    requires !Supplied(Lookup(req.body, tokenKey)) && !Supplied(Lookup(req.query, tokenKey))
    ensures Locate(req, tokenKey) == Found(token)
  {
    WellFormedHeader(req, scheme, token, tokenKey);
  }

  /** A well-formed header whose scheme does not match, or whose token part is
      empty, is ignored: the result is the same as with no headers at all. */
  lemma IgnoredHeader(req: Request, scheme: string, token: string, tokenKey: string)
    requires Header(req) == Some(scheme + [' '] + token)
    requires ' ' !in scheme && ' ' !in token
    requires !TokenPattern.Test(tokenKey, scheme) || token == ""
    ensures Locate(req, tokenKey) == Locate(req.(headers := None), tokenKey)
  {
    WellFormedHeader(req, scheme, token, tokenKey);
  }

  /** An empty header is skipped, not malformed. */
  lemma EmptyHeaderSkipped(req: Request, tokenKey: string)
    requires Header(req) == Some("")
    ensures Locate(req, tokenKey) == Locate(req.(headers := None), tokenKey)
  {
  }

  /** With no usable header, a body value alone is the token. */
  lemma BodyAlone(req: Request, tokenKey: string)
    requires HeaderContribution(req, tokenKey) == [] && !HeaderMalformed(req)
    requires Supplied(Lookup(req.body, tokenKey)) && !Supplied(Lookup(req.query, tokenKey))
    ensures Locate(req, tokenKey) == Found(req.body.value[tokenKey])
  {
  }

  /** With no usable header, a query value alone is the token. */
  lemma QueryAlone(req: Request, tokenKey: string)
    requires HeaderContribution(req, tokenKey) == [] && !HeaderMalformed(req)
    requires !Supplied(Lookup(req.body, tokenKey)) && Supplied(Lookup(req.query, tokenKey))
    ensures Locate(req, tokenKey) == Found(req.query.value[tokenKey])
  {
  }

  /** Two carriers that both offer a token conflict, whichever two they are
      and even when the two values are equal. */
  lemma TwoCarriersConflict(req: Request, tokenKey: string)
    requires !HeaderMalformed(req)
    requires (HeaderContribution(req, tokenKey) != [] && Supplied(Lookup(req.body, tokenKey)))
          || (HeaderContribution(req, tokenKey) != [] && Supplied(Lookup(req.query, tokenKey)))
          || (Supplied(Lookup(req.body, tokenKey)) && Supplied(Lookup(req.query, tokenKey)))
    ensures Locate(req, tokenKey) == Conflict
  {
  }

  /** A matching header with a token, plus a body or query value under the
      key, is a conflict, whatever the two values are. */
  lemma HeaderAndFieldConflict(req: Request, scheme: string, token: string, tokenKey: string)
    requires Header(req) == Some(scheme + [' '] + token)
    requires ' ' !in scheme && ' ' !in token && token != ""
    requires TokenPattern.Test(tokenKey, scheme)
    requires Supplied(Lookup(req.body, tokenKey)) || Supplied(Lookup(req.query, tokenKey))
    ensures Locate(req, tokenKey) == Conflict
  {
    WellFormedHeader(req, scheme, token, tokenKey);
  }

  /** When no carrier offers a non-empty token, nothing is found. */
  lemma NothingSupplied(req: Request, tokenKey: string)
    requires !HeaderMalformed(req) && HeaderContribution(req, tokenKey) == []
    requires !Supplied(Lookup(req.body, tokenKey)) && !Supplied(Lookup(req.query, tokenKey))
    ensures Locate(req, tokenKey) == NotFound
  {
  }

  /** A found token is exactly what one carrier supplied: the second piece of
      the header, or the body or query value under the key. */
  lemma FoundComesFromOneCarrier(req: Request, tokenKey: string)
    requires Locate(req, tokenKey).Found?
    ensures var t := Locate(req, tokenKey).token;
      || (Header(req).Some? && |Split(Header(req).value, ' ')| == 2 && t == Split(Header(req).value, ' ')[1])
      || (Lookup(req.body, tokenKey) == Some(t))
      || (Lookup(req.query, tokenKey) == Some(t))
  {
  }
}
