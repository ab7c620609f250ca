/**
 * The interaction state of one feed post: the like toggle and its counter,
 * the bookmark toggle, the comment panel toggle and the comment draft.
 */
module Post {
  import opened Js

  class PostCard {
    /** The post's `id` and `likes` props; they never change while the card is shown. */
    const id: int
    const likes: int

    var liked: bool
    var saved: bool
    var likesCount: int
    var showComments: bool
    var comment: string

    /** The counter shows the initial likes plus the viewer's own like. */
    ghost predicate Valid()
      reads this
    {
      likesCount == likes + (if liked then 1 else 0)
    }

    /** The state a freshly rendered post starts in. */
    constructor (id: int, likes: int)
      ensures Valid()
      ensures this.id == id && this.likes == likes
      ensures !liked && !saved && !showComments
      ensures likesCount == likes && comment == ""
    {
      this.id := id;
      this.likes := likes;
      liked := false;
      saved := false;
      likesCount := likes;
      showComments := false;
      comment := "";
    }

    /** The heart button: a like adds one to the counter, an unlike takes it back. */
    method HandleLike()
      requires Valid()
      modifies this`liked, this`likesCount
      ensures Valid()
      ensures liked == !old(liked)
      ensures likesCount == if old(liked) then old(likesCount) - 1 else old(likesCount) + 1
      ensures likesCount >= likes
    {
      if liked {
        likesCount := likesCount - 1;
      } else {
        likesCount := likesCount + 1;
      }
      liked := !liked;
    }

    /** The bookmark button flips `saved` and nothing else. */
    method HandleSave()
      modifies this`saved
      ensures saved == !old(saved)
    {
      saved := !saved;
    }

    /** The comment icon and the "View all comments" link both flip the panel. */
    method ToggleComments()
      modifies this`showComments
      ensures showComments == !old(showComments)
    {
      showComments := !showComments;
    }

    /** Typing in the comment box replaces the draft. */
    method SetComment(value: string)
      modifies this`comment
      ensures comment == value
    {
      comment := value;
    }

    /** The Post button is enabled exactly when the draft holds a visible character. */
    function CanPost(): (r: bool)
      reads this
      ensures r <==> exists k :: 0 <= k < |comment| && !IsWhitespace(comment[k])
    {
      BlankIffAllWhitespace(comment);
      !IsBlank(comment)
    }

    /**
     * Submitting the comment form: a draft with a visible character is posted
     * and cleared; a blank or whitespace-only draft is left as it is.
     */
    method HandleSubmitComment() returns (posted: bool)
      modifies this`comment
      ensures posted == !IsBlank(old(comment))
      ensures posted ==> comment == ""
      ensures !posted ==> comment == old(comment)
    {
      posted := !IsBlank(comment);
      if posted {
        comment := "";
      }
    }
  }

  /** Liking twice in a row gives back both the flag and the counter. */
  method LikeTwiceRestores(p: PostCard)
    requires p.Valid()
    modifies p
    ensures p.Valid()
    ensures p.liked == old(p.liked) && p.likesCount == old(p.likesCount)
    ensures p.saved == old(p.saved) && p.showComments == old(p.showComments)
    ensures p.comment == old(p.comment)
  {
    p.HandleLike();
    p.HandleLike();
  }

  /** Saving twice in a row is the identity on the whole card. */
  method SaveTwiceRestores(p: PostCard)
    modifies p
    ensures p.saved == old(p.saved) && p.liked == old(p.liked)
    ensures p.likesCount == old(p.likesCount) && p.showComments == old(p.showComments)
    ensures p.comment == old(p.comment)
  {
    p.HandleSave();
    p.HandleSave();
  }
}
