/**
 * What the hotel and room listing forms share: the request and toast values
 * they emit, the image key taken from an uploaded image's URL, the image
 * state cell with its upload and remove handlers, and the dialog flag the
 * hotel form toggles and hands to the room form as `handleDialogueOpen`.
 */
module FormShared {
  import opened Wrappers
  import opened Text

  datatype Verb = Post | Patch

  /** One axios call made by a handler: verb, path and body. */
  datatype Request<B> = Request(verb: Verb, path: string, body: B)

  datatype ToastVariant = SuccessToast | DestructiveToast

  /** A toast shown to the user. */
  datatype Toast = Toast(variant: ToastVariant, description: string)

  /** The path the image handlers post the key to. */
  const DeletePath: string := "/api/uploadthing/delete"

  /**
   * `src.substring(src.lastIndexOf("/") + 1)`: the text after the last `/`,
   * or all of `src` when it has none.
   */
  function ImageKey(src: string): (key: string)
    ensures '/' !in key
    ensures |key| <= |src| && src[|src| - |key|..] == key
    ensures '/' !in src ==> key == src
    ensures '/' in src ==> src[|src| - |key| - 1] == '/'
  {
    src[LastIndexOf(src, '/') + 1..]
  }

  /** `image?.substring(...)`: no key at all while the image is undefined. */
  function RemovalKey(image: Option<string>): (key: Option<string>)
    ensures image.None? ==> key.None?
    ensures image.Some? ==> key == Some(ImageKey(image.value))
  {
    match image
    case None => None
    case Some(src) => Some(ImageKey(src))
  }

  /** `if (!imageKey) return`: the handler goes on only with a non-empty key. */
  predicate HasRemovableKey(image: Option<string>)
  {
    var key := RemovalKey(image);
    key.Some? && key.value != ""
  }

  /** An image ending in `/` has an empty key and cannot be removed. */
  lemma TrailingSlashNotRemovable(src: string)
    requires src != [] && src[|src| - 1] == '/'
    ensures !HasRemovableKey(Some(src))
  {
    assert LastIndexOf(src, '/') == |src| - 1;
  }

  /** The toasts each form shows for its image handlers (their wording differs between the forms). */
  datatype ImageMessages = ImageMessages(uploaded: string, uploadFailed: string, removed: string, removeFailed: string)

  /** The `image` state cell and the form's `image` value, which the handlers set together. */
  class ImageField {
    var image: Option<string>
    var formValue: string
    const messages: ImageMessages

    /** Whenever the state holds a string, the form value is that string. */
    ghost predicate Valid()
      reads this
    {
      image.Some? ==> formValue == image.value
    }

    /** The state starts as the existing listing's image (undefined for a new one), the form value likewise or `""`. */
    constructor (existing: Option<string>, messages: ImageMessages)
      ensures Valid()
      ensures image == existing && this.messages == messages
      ensures formValue == if existing.Some? then existing.value else ""
    {
      image := existing;
      formValue := if existing.Some? then existing.value else "";
      this.messages := messages;
    }

    /**
     * `handleImageUpload` once the upload settled: `Some(url)` is the
     * returned `secure_url`, `None` an upload that threw.
     */
    method ApplyUpload(secureUrl: Option<string>) returns (toast: Toast)
      requires Valid()
      modifies this
      ensures Valid()
      ensures secureUrl.Some? ==> image == secureUrl && formValue == secureUrl.value
      ensures secureUrl.Some? ==> toast == Toast(SuccessToast, messages.uploaded)
      ensures secureUrl.None? ==> image == old(image) && formValue == old(formValue)
      ensures secureUrl.None? ==> toast == Toast(DestructiveToast, messages.uploadFailed)
    {
      if secureUrl.Some? {
        image := secureUrl;
        formValue := secureUrl.value;
        toast := Toast(SuccessToast, messages.uploaded);
      } else {
        toast := Toast(DestructiveToast, messages.uploadFailed);
      }
    }

    /**
     * `handleRemoveImage`: with no usable key nothing happens; otherwise the
     * key is posted to the delete route and, if that succeeded, the image is
     * cleared.
     */
    method Remove(deleteSucceeds: bool) returns (request: Option<Request<string>>, toast: Option<Toast>)
      requires Valid()
      modifies this
      ensures Valid()
      ensures request.Some? <==> HasRemovableKey(old(image))
      ensures request.Some? ==> request.value == Request(Post, DeletePath, RemovalKey(old(image)).value)
      ensures request.None? ==> toast.None?
      ensures request.Some? && deleteSucceeds ==> image == Some("") && formValue == ""
      ensures request.Some? && deleteSucceeds ==> toast == Some(Toast(SuccessToast, messages.removed))
      ensures request.Some? && !deleteSucceeds ==> toast == Some(Toast(DestructiveToast, messages.removeFailed))
      ensures request.None? || !deleteSucceeds ==> image == old(image) && formValue == old(formValue)
    {
      var imageKey := RemovalKey(image);
      if imageKey.None? || imageKey.value == "" {
        return None, None;
      }
      request := Some(Request(Post, DeletePath, imageKey.value));
      if deleteSucceeds {
        image := Some("");
        formValue := "";
        toast := Some(Toast(SuccessToast, messages.removed));
      } else {
        toast := Some(Toast(DestructiveToast, messages.removeFailed));
      }
    }
  }

  /** The hotel form's `open` state: whether the add-room dialog is shown. */
  class DialogState {
    var open: bool

    constructor ()
      ensures !open
    {
      open := false;
    }

    /** `handleDialogueOpen`: `setOpen((prev) => !prev)`. */
    method Toggle()
      modifies this
      ensures open == !old(open)
    {
      open := !open;
    }

    /** `onOpenChange={setOpen}`: the dialog reports its new visibility. */
    method SetOpen(v: bool)
      modifies this
      ensures open == v
    {
      open := v;
    }
  }

  /** Two toggles restore the dialog flag. */
  method ToggleTwice(dialog: DialogState)
    modifies dialog
    ensures dialog.open == old(dialog.open)
  {
    dialog.Toggle();
    dialog.Toggle();
  }
}
