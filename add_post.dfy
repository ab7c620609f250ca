/**
 * The post composer: an image that must be present, a caption, and a
 * simulated submission that ends the loading state after a delay.
 */
module AddPost {
  import opened Js

  class PostComposer {
    var selectedImage: Option<string>
    var caption: string
    var isLoading: bool
    /** How many delayed submission completions were scheduled and have not fired yet. */
    var pendingSubmits: nat

    /** The composer opens with no image, no caption and nothing submitting. */
    constructor ()
      ensures selectedImage == None && caption == ""
      ensures !isLoading && pendingSubmits == 0
    {
      selectedImage := None;
      caption := "";
      isLoading := false;
      pendingSubmits := 0;
    }

    /** A picked file's data URL, or a placeholder URL, becomes the image. */
    method SelectImage(url: string)
      modifies this`selectedImage
      ensures selectedImage == Some(url)
    {
      selectedImage := Some(url);
    }

    /** Typing replaces the caption. */
    method SetCaption(value: string)
      modifies this`caption
      ensures caption == value
    {
      caption := value;
    }

    /**
     * Share Post: without an image the post is turned away with nothing
     * changed; otherwise loading starts and its completion is scheduled. The
     * image and the caption are never touched.
     */
    method HandleSubmit() returns (accepted: bool)
      modifies this`isLoading, this`pendingSubmits
      ensures accepted <==> HasImage(old(selectedImage))
      ensures !accepted ==> isLoading == old(isLoading) && pendingSubmits == old(pendingSubmits)
      ensures accepted ==> isLoading && pendingSubmits == old(pendingSubmits) + 1
      ensures accepted ==> !CanSubmit() && !CanCancel()
    {
      if !HasImage(selectedImage) {
        return false;
      }
      isLoading := true;
      pendingSubmits := pendingSubmits + 1;
      accepted := true;
    }

    /** The delayed completion: loading ends (and the page navigates home). */
    method CompleteSubmit()
      requires pendingSubmits > 0
      modifies this`isLoading, this`pendingSubmits
      ensures !isLoading && pendingSubmits == old(pendingSubmits) - 1
      ensures CanCancel()
      ensures CanSubmit() == HasImage(selectedImage)
    {
      isLoading := false;
      pendingSubmits := pendingSubmits - 1;
    }

    /** Cancel resets the form: no image and an empty caption. */
    method HandleCancel()
      modifies this`selectedImage, this`caption
      ensures selectedImage == None && caption == ""
    {
      selectedImage := None;
      caption := "";
    }

    /** The remove button drops the image and keeps the caption. */
    method RemoveImage()
      modifies this`selectedImage
      ensures selectedImage == None
    {
      selectedImage := None;
    }

    /** Whether Share Post is enabled. */
    function CanSubmit(): bool
      reads this
    {
      !(isLoading || !HasImage(selectedImage))
    }

    /** Whether Cancel is enabled. */
    function CanCancel(): bool
      reads this
    {
      !isLoading
    }
  }

  /**
   * Pressing Share Post while it is enabled: the post is always accepted, the
   * image and caption stay, and both Share Post and Cancel are disabled until
   * the completion fires.
   */
  method PressSharePost(p: PostComposer) returns (accepted: bool)
    requires p.CanSubmit()
    modifies p
    ensures accepted && p.isLoading
    ensures !p.CanSubmit() && !p.CanCancel()
    ensures p.selectedImage == old(p.selectedImage) && p.caption == old(p.caption)
    ensures p.pendingSubmits == old(p.pendingSubmits) + 1
  {
    accepted := p.HandleSubmit();
  }
}
