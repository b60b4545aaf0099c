/**
 * The `POST` handler of the image-delete route: authenticate, read the
 * `imageKey` from the JSON body, strip the extension to get the media
 * host's public id, ask the host to destroy it, and answer with exactly one
 * response.
 */
module DeleteImageRoute {
  import opened Wrappers
  import opened Text

  /** A thrown value: an `Error` with a message, or anything else. */
  datatype Thrown = ErrorObject(message: string) | NonError

  /** `await req.json()`: the parsed body's `imageKey` (maybe absent), or what parsing threw. */
  datatype Body = Parsed(imageKey: Option<string>) | ParseThrew(thrown: Thrown)

  /** What `cloudinary.uploader.destroy(publicId)` did: resolved with a `result` string, or threw. */
  datatype DestroyOutcome = Destroyed(result: string) | DestroyThrew(thrown: Thrown)

  /** The response: a plain-text one with a status, or `NextResponse.json({ success: true })`. */
  datatype Reply = Text(status: int, text: string) | SuccessJson

  /** One request's handling: the reply and the public id `destroy` was called with, if it was. */
  datatype Handled = Handled(reply: Reply, destroyedId: Option<string>)

  function Status(r: Reply): int
  {
    match r
    case Text(status, _) => status
    case SuccessJson => 200
  }

  /** `imageKey.split(".")[0]`: the key up to its first dot. */
  function PublicId(imageKey: string): (id: string)
    ensures '.' !in id
    ensures |id| <= |imageKey| && imageKey[..|id|] == id
    ensures '.' !in imageKey ==> id == imageKey
    ensures '.' in imageKey ==> imageKey[|id|] == '.'
  {
    SplitPiecesFree(imageKey, '.');
    FirstPiece(imageKey, '.');
    Split(imageKey, '.')[0]
  }

  /** The 500 reply of the catch block. */
  function InternalError(thrown: Thrown): Reply
  {
    Text(500, "Internal Server Error: " + (if thrown.ErrorObject? then thrown.message else "Unknown error"))
  }

  /**
   * The handler. `userId` is what authentication produced, `body` the JSON
   * body, `destroy` the media host's answer for each public id.
   */
  function HandlePost(userId: Option<string>, body: Body, destroy: string -> DestroyOutcome): (h: Handled)
    ensures h.reply == Text(401, "Unauthorized") <==> userId.None? || userId.value == ""
    ensures Status(h.reply) == 400 <==>
      userId.Some? && userId.value != "" && body.Parsed? && (body.imageKey.None? || body.imageKey.value == "")
    ensures h.destroyedId.Some? <==>
      userId.Some? && userId.value != "" && body.Parsed? && body.imageKey.Some? && body.imageKey.value != ""
    ensures h.destroyedId.Some? ==> h.destroyedId.value == PublicId(body.imageKey.value)
    ensures h.reply.SuccessJson? <==> h.destroyedId.Some? && destroy(h.destroyedId.value) == Destroyed("ok")
    ensures h.destroyedId.Some? && destroy(h.destroyedId.value).Destroyed? && destroy(h.destroyedId.value).result != "ok"
        ==> h.reply == Text(500, "Failed to delete image")
    ensures h.destroyedId.Some? && destroy(h.destroyedId.value).DestroyThrew?
        ==> h.reply == InternalError(destroy(h.destroyedId.value).thrown)
    ensures userId.Some? && userId.value != "" && body.ParseThrew? ==> h.reply == InternalError(body.thrown)
  {
    if userId.None? || userId.value == "" then
      Handled(Text(401, "Unauthorized"), None)
    else match body
      case ParseThrew(thrown) => Handled(InternalError(thrown), None)
      case Parsed(imageKey) =>
        if imageKey.None? || imageKey.value == "" then
          Handled(Text(400, "Image key is required"), None)
        else
          var publicId := PublicId(imageKey.value);
          match destroy(publicId)
          case DestroyThrew(thrown) => Handled(InternalError(thrown), Some(publicId))
          case Destroyed(result) =>
            if result == "ok" then Handled(SuccessJson, Some(publicId))
            else Handled(Text(500, "Failed to delete image"), Some(publicId))
  }

  /** Without a user the body is never looked at and nothing is destroyed. */
  lemma UnauthorizedIgnoresBody(userId: Option<string>, b1: Body, b2: Body,
                                d1: string -> DestroyOutcome, d2: string -> DestroyOutcome)
    requires userId.None? || userId.value == ""
    ensures HandlePost(userId, b1, d1) == HandlePost(userId, b2, d2)
    ensures HandlePost(userId, b1, d1).destroyedId.None?
  {
  }

  /**
   * A throw from the media host surfaces as a 500 whose text carries its
   * message, or "Unknown error", after `destroy` was called.
   */
  lemma DestroyThrowBecomes500(userId: string, imageKey: string, destroy: string -> DestroyOutcome, thrown: Thrown)
    requires userId != "" && imageKey != ""
    requires destroy(PublicId(imageKey)) == DestroyThrew(thrown)
    ensures var h := HandlePost(Some(userId), Parsed(Some(imageKey)), destroy);
      && h.reply == InternalError(thrown)
      && Status(h.reply) == 500
      && h.destroyedId == Some(PublicId(imageKey))
  {
  }

  /** A body that cannot be parsed surfaces as the same 500, and nothing is destroyed. */
  lemma ParseThrowBecomes500(userId: string, thrown: Thrown, destroy: string -> DestroyOutcome)
    requires userId != ""
    ensures HandlePost(Some(userId), ParseThrew(thrown), destroy) == Handled(InternalError(thrown), None)
    ensures Status(InternalError(thrown)) == 500
  {
  }

  /** Every reply has one of the four statuses. */
  lemma StatusesAreFixed(userId: Option<string>, body: Body, destroy: string -> DestroyOutcome)
    ensures Status(HandlePost(userId, body, destroy).reply) in {200, 400, 401, 500}
  {
  }
}
