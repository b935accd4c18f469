/**
 * The outcome dispatcher: the inner `verified(err, user, info)` callback of
 * `Strategy.prototype.authenticate`, which turns what the verifier called
 * back with into exactly one of the three framework actions.
 */
module Dispatcher {
  import opened JsValues

  /** The arguments the verifier passes to `done`; missing ones are `undefined`. */
  datatype CallbackArgs = CallbackArgs(err: Value, user: Value, info: Value)

  /** The one action taken on the request: `success(user, info)`,
      `fail(status)` or `error(err)`. */
  datatype Disposition = Success(user: Value, info: Value) | Fail(status: int) | Error(err: Value)

  /** The `verified` callback. */
  function Verified(args: CallbackArgs): (d: Disposition)
    ensures d.Error? <==> Truthy(args.err)
    ensures d.Error? ==> d.err == args.err
    ensures d.Fail? <==> !Truthy(args.err) && !Truthy(args.user)
    ensures d.Fail? ==> d.status == 401
    ensures d.Success? <==> !Truthy(args.err) && Truthy(args.user)
    ensures d.Success? ==> d.user == args.user && d.info == args.info
  {
    if Truthy(args.err) then Error(args.err)
    else if !Truthy(args.user) then Fail(401)
    else Success(args.user, args.info)
  }

  /** The three ways a verifier is documented to finish: with an error, with
      no user, or with a user and optional extra info. */
  datatype Outcome = Errored(e: Value) | Rejected | Accepted(user: Value, info: Value)

  /** The documented calls of `done` for each outcome: `done(err)`,
      `done(null, false)` and `done(null, user, info)`. */
  function Done(o: Outcome): CallbackArgs
  {
    match o
    case Errored(e) => CallbackArgs(e, Undefined, Undefined)
    case Rejected => CallbackArgs(Null, Bool(false), Undefined)
    case Accepted(user, info) => CallbackArgs(Null, user, info)
  }

  /** A verifier that finishes in a documented way, with a truthy error or a
      truthy user where one is expected, gets the matching disposition: the
      error unchanged, 401, or the user with its info unchanged. */
  lemma DocumentedOutcomes(o: Outcome)
    requires o.Errored? ==> Truthy(o.e)
    requires o.Accepted? ==> Truthy(o.user)
    ensures Verified(Done(o)) == match o
      case Errored(e) => Error(e)
      case Rejected => Fail(401)
      case Accepted(user, info) => Success(user, info)
  {
  }
}
