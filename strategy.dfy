/**
 * The EmberAuth passport strategy (lib/passport-ember-auth/strategy.js):
 * construction, with its argument sniffing and defaults, and `authenticate`,
 * which locates the token step by step and hands it to the verifier.
 *
 * The verifier is the application's callback; here it is a total function
 * from the call it receives to the arguments it passes to `done`.
 */
module EmberAuth {
  import opened Wrappers
  import opened JsValues
  import opened SplitString
  import TokenPattern
  import opened Locator
  import opened Dispatcher

  /** The key used when the options give none (or give ""). */
  const DefaultTokenKey: string := "auth_token"

  /** How the verifier is called: `verify(token, done)`, or
      `verify(req, token, done)` when `passReqToCallback` is truthy. */
  datatype Invocation = WithToken(token: string) | WithRequest(req: Request, token: string)

  type Verifier = Invocation -> CallbackArgs

  /** The fields of the options object the strategy reads. */
  datatype Options = Options(tokenKey: Option<string>, passReqToCallback: Value)

  /** What the first constructor argument can be: missing (`undefined` or
      `null`), a function (the verifier itself), or an options object. */
  datatype FirstArg = Absent | Function(f: Verifier) | Object(options: Options)

  /** Why construction throws: no verifier, or a verifier given after an
      `undefined` options argument, whose `tokenKey` cannot be read. */
  datatype ConstructError = MissingVerify | OptionsNotObject

  /** The state a constructed strategy holds. */
  datatype Config = Config(verify: Verifier, tokenKey: string, passReqToCallback: Value)

  /** `options.tokenKey || 'auth_token'`. */
  function KeyOrDefault(tokenKey: Option<string>): (k: string)
    ensures k != ""
    ensures tokenKey.Some? && tokenKey.value != "" ==> k == tokenKey.value
    ensures tokenKey.None? || tokenKey.value == "" ==> k == DefaultTokenKey
  {
    if tokenKey.Some? && TruthyString(tokenKey.value) then tokenKey.value else DefaultTokenKey
  }

  /** What `new Strategy(options, verify)` produces, case by case. */
  function Configure(options: FirstArg, verify: Option<Verifier>): (r: Result<Config, ConstructError>)
    ensures r == Err(MissingVerify) <==> !options.Function? && verify.None?
    ensures r == Err(OptionsNotObject) <==> options.Absent? && verify.Some?
    ensures options.Function? ==>
      r.Ok? && r.value.verify == options.f && r.value.tokenKey == DefaultTokenKey
      && !Truthy(r.value.passReqToCallback)
    ensures options.Object? && verify.Some? ==>
      r.Ok? && r.value.verify == verify.value
      && r.value.tokenKey == KeyOrDefault(options.options.tokenKey)
      && r.value.passReqToCallback == options.options.passReqToCallback
    ensures r.Ok? ==> r.value.tokenKey != ""
  {
    match options
    case Function(f) => Ok(Config(f, KeyOrDefault(None), Undefined))
    case Absent => if verify.None? then Err(MissingVerify) else Err(OptionsNotObject)
    case Object(o) =>
      if verify.None? then Err(MissingVerify)
      else Ok(Config(verify.value, KeyOrDefault(o.tokenKey), o.passReqToCallback))
  }

  class Strategy {
    const verify: Verifier
    const tokenKey: string
    const passReqToCallback: Value

    /** The field assignments of the constructor, once the arguments are sorted out. */
    constructor (verify: Verifier, options: Options)
      ensures this.verify == verify
      ensures tokenKey == KeyOrDefault(options.tokenKey)
      ensures passReqToCallback == options.passReqToCallback
    {
      this.verify := verify;
      this.tokenKey := KeyOrDefault(options.tokenKey);
      this.passReqToCallback := options.passReqToCallback;
    }

    function Settings(): Config
    {
      Config(verify, tokenKey, passReqToCallback)
    }

    /** `authenticate(req)`: locate the token, failing with 400 on a malformed
        header, a conflict or no token; otherwise call the verifier once and
        settle the request from what it called back with. `call` is the
        verifier call made, `None` when it was not called. */
    method Authenticate(req: Request) returns (call: Option<Invocation>, d: Disposition)
      ensures !Locate(req, tokenKey).Found? ==> call == None && d == Fail(400)
      ensures Locate(req, tokenKey).Found? ==>
        var t := Locate(req, tokenKey).token;
        && call == Some(if Truthy(passReqToCallback) then WithRequest(req, t) else WithToken(t))
        && d == Verified(verify(call.value))
    {
      var token: Option<string> := None;

      var header := Lookup(req.headers, AuthorizationHeader);
      if Supplied(header) {
        var parts := Split(header.value, ' ');
        if |parts| == 2 {
          var key, credentials := parts[0], parts[1];
          if TokenPattern.Test(tokenKey, key) {
            token := Some(credentials);
          }
        } else {
          return None, Fail(400);
        }
      }
      assert Supplied(token) <==> HeaderContribution(req, tokenKey) != [];
      assert Supplied(token) ==> HeaderContribution(req, tokenKey) == [token.value];

      var bodyValue := Lookup(req.body, tokenKey);
      if Supplied(bodyValue) {
        if Supplied(token) {
          return None, Fail(400);
        }
        token := bodyValue;
      }

      var queryValue := Lookup(req.query, tokenKey);
      if Supplied(queryValue) {
        if Supplied(token) {
          return None, Fail(400);
        }
        token := queryValue;
      }

      if !Supplied(token) {
        return None, Fail(400);
      }

      if Truthy(passReqToCallback) {
        call := Some(WithRequest(req, token.value));
      } else {
        call := Some(WithToken(token.value));
      }
      d := Verified(verify(call.value));
    }
  }

  /** `new Strategy(options, verify)`: a function as first argument is the
      verifier and the options are `{}`; no verifier throws; otherwise the
      fields are assigned. */
  method NewStrategy(options: FirstArg, verify: Option<Verifier>) returns (r: Result<Strategy, ConstructError>)
    ensures Configure(options, verify).Err? ==> r == Err(Configure(options, verify).error)
    ensures Configure(options, verify).Ok? ==>
      r.Ok? && fresh(r.value) && r.value.Settings() == Configure(options, verify).value
  {
    var opts, fn := options, verify;
    if opts.Function? {
      fn := Some(opts.f);
      opts := Object(Options(None, Undefined));
    }
    if fn.None? {
      return Err(MissingVerify);
    }
    if opts.Absent? {
      return Err(OptionsNotObject);
    }
    var s := new Strategy(fn.value, opts.options);
    return Ok(s);
  }
}
