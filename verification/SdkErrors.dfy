/** How SDK errors become application errors (`handleSdkError`). */
module SdkErrors {
  import opened Wrappers

  datatype ErrorCode =
    | General | NoDataChange | ValidationError | EntityInUse | InsufficientBalance | UnmetPrerequisite
    | LimitExceeded | DataUnavailable | NotAuthorized | OtherCode

  datatype AppError =
    | AppValidation(message: string)
    | AppUnprocessable(message: string)
    | AppNotFound(id: string, resource: string)
    | AppUnauthorized(message: string)
    | AppInternal(message: string)

  /** Anything a promise may reject with; `foreignSigner` says that the message names a missing signing account. */
  datatype Thrown =
    | App(e: AppError)
    | Polymesh(code: ErrorCode, message: string, foreignSigner: bool)
    | JsError(message: string)
    | Unknown

  datatype Resource = Resource(id: string, resource: string)

  /** `handleSdkError` either returns an application error or throws one itself. */
  datatype Handled = Returned(e: AppError) | Raised(e: AppError)

  function HandleSdkError(err: Thrown, args: Option<Resource>): Handled {
    match err
    case App(e) => Returned(e)
    case Polymesh(code, message, foreignSigner) =>
      if code == General && foreignSigner then Raised(AppValidation(message))
      else (
        match code
        case NoDataChange => Returned(AppValidation(message))
        case ValidationError => Returned(AppValidation(message))
        case EntityInUse => Returned(AppValidation(message))
        case InsufficientBalance => Returned(AppUnprocessable(message))
        case UnmetPrerequisite => Returned(AppUnprocessable(message))
        case LimitExceeded => Returned(AppUnprocessable(message))
        case DataUnavailable =>
          if args.Some? then Returned(AppNotFound(args.value.id, args.value.resource))
          else Returned(AppNotFound(message, ""))
        case NotAuthorized => Returned(AppUnauthorized(message))
        case _ => Returned(AppInternal(message)))
    case JsError(message) => Returned(AppInternal(message))
    case Unknown => Returned(AppInternal("An unexpected error occurred"))
  }

  predicate ForeignSigner(err: Thrown) {
    err.Polymesh? && err.code == General && err.foreignSigner
  }

  /** The kind of error each thrown value becomes, kind by kind, and what it says. */
  predicate MapsTo(err: Thrown, args: Option<Resource>, e: AppError) {
    if err.App? then e == err.e
    else
      && (e.AppUnprocessable? <==>
            err.Polymesh? && (err.code == InsufficientBalance || err.code == UnmetPrerequisite || err.code == LimitExceeded))
      && (e.AppUnauthorized? <==> err.Polymesh? && err.code == NotAuthorized)
      && (e.AppNotFound? <==> err.Polymesh? && err.code == DataUnavailable)
      && (e.AppValidation? <==>
            ForeignSigner(err)
            || (err.Polymesh? && (err.code == NoDataChange || err.code == ValidationError || err.code == EntityInUse)))
      && (e.AppInternal? <==>
            err.JsError? || err.Unknown?
            || (err.Polymesh? && (err.code == OtherCode || (err.code == General && !err.foreignSigner))))
      && (e.AppNotFound? && args.Some? ==> e.id == args.value.id && e.resource == args.value.resource)
      && (e.AppNotFound? && args.None? ==> e.id == err.message && e.resource == "")
      && (!e.AppNotFound? ==> e.message == if err.Unknown? then "An unexpected error occurred" else err.message)
  }

  /** Every thrown value becomes the error the table calls for; only a missing signing account is raised. */
  lemma ErrorTable(err: Thrown, args: Option<Resource>)
    ensures MapsTo(err, args, HandleSdkError(err, args).e)
    ensures HandleSdkError(err, args).Raised? <==> ForeignSigner(err)
  {
  }

  /** `catch (e) { throw handleSdkError(e, args) }`: what the next catch sees, whether it was returned or raised. */
  function Rethrow(err: Thrown, args: Option<Resource>): Thrown {
    App(HandleSdkError(err, args).e)
  }

  /** A catch further out changes nothing, whatever its arguments: the first mapping stands. */
  function RethrowAll(err: Thrown, catches: seq<Option<Resource>>): Thrown
    decreases |catches|
  {
    if catches == [] then err else RethrowAll(Rethrow(err, catches[0]), catches[1..])
  }

  lemma {:induction false} FirstMappingStands(err: Thrown, catches: seq<Option<Resource>>)
    requires catches != []
    ensures RethrowAll(err, catches) == Rethrow(err, catches[0])
    ensures RethrowAll(err, catches).App? && MapsTo(err, catches[0], RethrowAll(err, catches).e)
    decreases |catches|
  {
    ErrorTable(err, catches[0]);
    if |catches| > 1 {
      FirstMappingStands(Rethrow(err, catches[0]), catches[1..]);
    }
  }
}
