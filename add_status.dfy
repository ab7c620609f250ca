/**
 * The status composer: an optional image, free text, a background colour
 * from a fixed palette, and a simulated upload whose interval publishes
 * 10, 20, ..., 100 before a delayed completion ends the loading state.
 */
module AddStatus {
  import opened Js

  /** How much one interval tick adds to the upload counter. */
  const Step: int := 10
  /** The counter value at which the interval stops. */
  const Full: int := 100

  /** The palette of background colours, in the order the buttons are drawn. */
  const ColorOptions: seq<string> :=
    ["#000000", "#E53E3E", "#38A169", "#3182CE", "#805AD5", "#D69E2E", "#DD6B20", "#718096"]

  /** The colour a new status starts with. */
  const DefaultColor: string := "#000000"

  /**
   * The guard of `handleSubmit`: no truthy image and no truthy text. Text is
   * not trimmed, so a status of spaces only is not empty.
   */
  predicate IsEmptyStatus(image: Option<string>, text: string) {
    !HasImage(image) && !Truthy(text)
  }

  /** The counter an upload interval holds after `n` ticks. */
  function ProgressAfter(n: nat): int {
    Step * n
  }

  /** The counter of an interval that is still running: a multiple of the step below the full mark. */
  predicate IsRunningCounter(c: int) {
    0 <= c < Full && c % Step == 0
  }

  /**
   * The empty check does not trim: any non-empty text made of whitespace
   * only, with no image, passes it, although `trim` would make it blank.
   */
  lemma WhitespaceStatusIsNotEmpty(t: string)
    requires t != ""
    requires forall k :: 0 <= k < |t| ==> IsWhitespace(t[k])
    ensures !IsEmptyStatus(None, t)
    ensures IsBlank(t)
  {
    BlankIffAllWhitespace(t);
  }

  class StatusComposer {
    var selectedImage: Option<string>
    var text: string
    var bgColor: string
    var isLoading: bool
    var progress: int
    /** The counter (`currentProgress`) of every upload interval still running, oldest first. */
    var uploads: seq<int>
    /** How many delayed completions were scheduled and have not fired yet. */
    var pendingCompletions: nat

    ghost predicate Valid()
      reads this
    {
      && (forall k :: 0 <= k < |uploads| ==> IsRunningCounter(uploads[k]))
      && 0 <= progress <= Full && progress % Step == 0
      && bgColor in ColorOptions
    }

    /** The composer opens empty, black, and not uploading. */
    constructor ()
      ensures Valid()
      ensures selectedImage == None && text == "" && bgColor == DefaultColor
      ensures !isLoading && progress == 0 && uploads == [] && pendingCompletions == 0
    {
      selectedImage := None;
      text := "";
      bgColor := DefaultColor;
      isLoading := false;
      progress := 0;
      uploads := [];
      pendingCompletions := 0;
    }

    /** A picked file's data URL, or a placeholder URL, becomes the image. */
    method SelectImage(url: string)
      modifies this`selectedImage
      ensures selectedImage == Some(url)
    {
      selectedImage := Some(url);
    }

    /** Typing replaces the text. */
    method SetText(value: string)
      modifies this`text
      ensures text == value
    {
      text := value;
    }

    /** The remove button drops the image; text and colour stay. */
    method RemoveImage()
      modifies this`selectedImage
      ensures selectedImage == None
    {
      selectedImage := None;
    }

    /** Clicking the `i`-th palette button. */
    method SelectColor(i: nat)
      requires i < |ColorOptions|
      requires Valid()
      modifies this`bgColor
      ensures Valid()
      ensures bgColor == ColorOptions[i]
    {
      bgColor := ColorOptions[i];
    }

    /**
     * Share: an empty status is turned away with nothing changed; otherwise
     * loading starts and a new interval begins counting from 0. The shown
     * `progress` is not reset here.
     */
    method HandleSubmit() returns (accepted: bool)
      requires Valid()
      modifies this`isLoading, this`uploads
      ensures Valid()
      ensures accepted <==> !IsEmptyStatus(old(selectedImage), old(text))
      ensures !accepted ==> isLoading == old(isLoading) && uploads == old(uploads)
      ensures accepted ==> isLoading && uploads == old(uploads) + [0]
      ensures accepted ==> !CanShare()
    {
      if !HasImage(selectedImage) && !Truthy(text) {
        return false;
      }
      isLoading := true;
      uploads := uploads + [0];
      accepted := true;
    }

    /**
     * One tick of the `k`-th running interval: its counter grows by 10 and is
     * published; on reaching 100 the interval stops and schedules the completion.
     */
    method Tick(k: nat) returns (finished: bool)
      requires Valid()
      requires k < |uploads|
      modifies this`progress, this`uploads, this`pendingCompletions
      ensures Valid()
      ensures progress == old(uploads[k]) + Step
      ensures old(uploads[k]) < progress <= Full
      ensures finished <==> progress == Full
      ensures finished ==> uploads == old(uploads[..k] + uploads[k + 1..])
      ensures finished ==> pendingCompletions == old(pendingCompletions) + 1
      ensures !finished ==> uploads == old(uploads)[k := progress]
      ensures !finished ==> pendingCompletions == old(pendingCompletions)
    {
      var current := uploads[k] + Step;
      progress := current;
      if current >= Full {
        uploads := uploads[..k] + uploads[k + 1..];
        pendingCompletions := pendingCompletions + 1;
        finished := true;
      } else {
        uploads := uploads[k := current];
        finished := false;
      }
    }

    /** The delayed completion: loading ends (and the page navigates home). */
    method CompleteUpload()
      requires pendingCompletions > 0
      modifies this`isLoading, this`pendingCompletions
      ensures !isLoading && pendingCompletions == old(pendingCompletions) - 1
      ensures CanShare() == !IsEmptyStatus(selectedImage, text)
    {
      isLoading := false;
      pendingCompletions := pendingCompletions - 1;
    }

    /** Whether Share is enabled. */
    function CanShare(): bool
      reads this
    {
      !(isLoading || (!HasImage(selectedImage) && !Truthy(text)))
    }
  }

  /**
   * Pressing Share while it is enabled: the status is always accepted, a new
   * interval starts from 0, and the button disables itself.
   */
  method PressShare(c: StatusComposer) returns (accepted: bool)
    requires c.Valid() && c.CanShare()
    modifies c
    ensures c.Valid()
    ensures accepted && c.isLoading && !c.CanShare()
    ensures c.uploads == old(c.uploads) + [0]
    ensures c.selectedImage == old(c.selectedImage) && c.text == old(c.text)
    ensures c.progress == old(c.progress)
  {
    accepted := c.HandleSubmit();
  }

  /**
   * Share followed by the new interval's ticks, with no other interval
   * ticking in between, up to the moment the interval stops. An accepted
   * status publishes exactly ten values to `progress`, 10, 20, ..., 100: they
   * strictly increase, all but the last are below 100, and the last is 100,
   * at which point the completion is scheduled. A rejected status publishes
   * nothing and changes nothing.
   */
  method RunUpload(c: StatusComposer) returns (accepted: bool, published: seq<int>)
    requires c.Valid()
    modifies c
    ensures c.Valid()
    ensures accepted <==> !IsEmptyStatus(old(c.selectedImage), old(c.text))
    ensures !accepted ==> published == [] && c.uploads == old(c.uploads)
    ensures !accepted ==> c.isLoading == old(c.isLoading) && c.progress == old(c.progress)
    ensures accepted ==> |published| == 10
    ensures forall k :: 0 <= k < |published| ==> published[k] == ProgressAfter(k + 1)
    ensures forall k :: 0 <= k < |published| - 1 ==> published[k] < Full
    ensures accepted ==> published[|published| - 1] == Full == c.progress
    ensures forall j, k :: 0 <= j < k < |published| ==> published[j] < published[k]
    ensures accepted ==> c.isLoading && c.uploads == old(c.uploads)
    ensures c.pendingCompletions == old(c.pendingCompletions) + (if accepted then 1 else 0)
    ensures c.selectedImage == old(c.selectedImage) && c.text == old(c.text)
    ensures c.bgColor == old(c.bgColor)
  {
    accepted := c.HandleSubmit();
    published := [];
    if !accepted {
      return;
    }
    var k := |c.uploads| - 1;
    var done := false;
    while !done
      invariant c.Valid() && c.isLoading
      invariant k == |old(c.uploads)|
      invariant !done ==> |published| < 10 && c.uploads == old(c.uploads) + [ProgressAfter(|published|)]
      invariant done ==> |published| == 10 && c.uploads == old(c.uploads) && c.progress == Full
      invariant forall i :: 0 <= i < |published| ==> published[i] == ProgressAfter(i + 1)
      invariant c.pendingCompletions == old(c.pendingCompletions) + (if done then 1 else 0)
      invariant c.selectedImage == old(c.selectedImage) && c.text == old(c.text)
      invariant c.bgColor == old(c.bgColor)
      decreases 10 - |published|
    {
      done := c.Tick(k);
      published := published + [c.progress];
    }
  }
}
