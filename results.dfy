/**
 * `PexKitResult<T>`: a success carrying the decoded data and the response's
 * rate-limit information, or a failure carrying a `PexKitError`; and its
 * combinators, none of which ever changes which of the two a result is.
 */
module Results {
  import opened KotlinLang
  import opened Model
  import opened Errors

  datatype PexKitResult<+T> =
    | Success(data: T, rateLimit: RateLimitInfo)
    | Failure(error: PexKitError)
  {
    /** `getOrNull()`. */
    function GetOrNull(): (v: Option<T>)
      ensures v.Some? <==> this.Success?
      ensures v.Some? ==> v.value == data
    {
      match this
      case Success(d, _) => Some(d)
      case Failure(_) => None
    }

    /** `getOrDefault(default)`: the default is already evaluated, whatever the variant. */
    function GetOrDefault(default: T): (v: T)
      ensures this.Success? ==> v == data
      ensures this.Failure? ==> v == default
    {
      match this
      case Success(d, _) => d
      case Failure(_) => default
    }

    /** `getOrElse(fallback)`: the fallback is given the error, and only on failure. */
    function GetOrElse(fallback: PexKitError -> T): (v: T)
      ensures this.Success? ==> v == data
      ensures this.Failure? ==> v == fallback(error)
    {
      match this
      case Success(d, _) => d
      case Failure(e) => fallback(e)
    }

    /** `getOrThrow()`: the data, or the error thrown as a `PexKitException`. */
    function GetOrThrow(): (o: Thrown<T>)
      ensures this.Success? ==> o == Returned(data)
      ensures this.Failure? ==> o.Threw? && o.exception.error == error
    {
      match this
      case Success(d, _) => Returned(d)
      case Failure(e) => Threw(ToException(e))
    }

    /** `map(transform)`: a new payload with the same rate limit, or the same failure. */
    function Map<R>(transform: T -> R): (m: PexKitResult<R>)
      ensures m.Success? <==> this.Success?
      ensures this.Success? ==> m.data == transform(data) && m.rateLimit == rateLimit
      ensures this.Failure? ==> m == Failure(error)
    {
      match this
      case Success(d, rl) => Success(transform(d), rl)
      case Failure(e) => Failure(e)
    }

    /**
     * `onSuccess(action)`: the receiver itself, and the outcome of the action,
     * which runs on the data only for a success.
     */
    function OnSuccess<A>(action: T -> A): (h: Hooked<T, A>)
      ensures h.receiver == this
      ensures h.effect.Some? <==> this.Success?
      ensures h.effect.Some? ==> h.effect.value == action(data)
    {
      Hooked(this, if this.Success? then Some(action(data)) else None)
    }

    /**
     * `onFailure(action)`: the receiver itself, and the outcome of the action,
     * which runs on the error only for a failure.
     */
    function OnFailure<A>(action: PexKitError -> A): (h: Hooked<T, A>)
      ensures h.receiver == this
      ensures h.effect.Some? <==> this.Failure?
      ensures h.effect.Some? ==> h.effect.value == action(error)
    {
      Hooked(this, if this.Failure? then Some(action(error)) else None)
    }
  }

  /** What a call to `getOrThrow()` does: return a value or throw. */
  datatype Thrown<+T> = Returned(value: T) | Threw(exception: PexKitException)

  /**
   * The result of an `onSuccess`/`onFailure` call: the receiver it returns for
   * chaining, and the outcome of the callback when it was invoked.
   */
  datatype Hooked<+T, +A> = Hooked(receiver: PexKitResult<T>, effect: Option<A>)

  // ---------------------------------------------------------------------------
  // Laws

  /** `map` with the identity changes nothing. */
  lemma MapIdentity<T>(r: PexKitResult<T>)
    ensures r.Map(x => x) == r
  {
  }

  /** Mapping twice is mapping once with the composition. */
  lemma MapComposition<T, U, V>(r: PexKitResult<T>, f: T -> U, g: U -> V)
    ensures r.Map(f).Map(g) == r.Map(x => g(f(x)))
  {
  }

  /** A failure passes through any `map` as the same error. */
  lemma MapKeepsFailure<T, R>(r: PexKitResult<T>, f: T -> R)
    requires r.Failure?
    ensures r.Map(f) == Failure(r.error)
    ensures r.Map(f).error.message == r.error.message
  {
  }

  /** The fallback of `getOrElse` is never consulted on a success. */
  lemma GetOrElseIgnoresFallbackOnSuccess<T>(r: PexKitResult<T>, f: PexKitError -> T, g: PexKitError -> T)
    requires r.Success?
    ensures r.GetOrElse(f) == r.GetOrElse(g) == r.GetOrDefault(f(Unauthorized()))
  {
  }

  /** The unwrapping combinators agree with each other. */
  lemma UnwrapAgreement<T>(r: PexKitResult<T>, default: T)
    ensures r.GetOrNull() == (if r.GetOrThrow().Returned? then Some(r.GetOrThrow().value) else None)
    ensures r.GetOrDefault(default) == r.GetOrElse(_ => default)
    ensures r.GetOrThrow().Threw? ==>
      r.GetOrThrow().exception.Cause() == (if r.error.NetworkError? then Some(r.error.cause) else None)
  {
  }

  /** Chaining `onSuccess` then `onFailure` runs exactly one of the two actions. */
  lemma HooksRunExactlyOne<T, A>(r: PexKitResult<T>, onOk: T -> A, onErr: PexKitError -> A)
    ensures var h1 := r.OnSuccess(onOk);
      var h2 := h1.receiver.OnFailure(onErr);
      h2.receiver == r && (h1.effect.Some? != h2.effect.Some?)
  {
  }
}
