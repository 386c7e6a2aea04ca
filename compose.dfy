/**
 * The compose overlay (components/CreateModal.tsx): step 1 picks an image,
 * step 2 shows it with a caption box and the Share button, which builds the
 * new post handed to the feed.
 */
module Compose {
  import opened Options
  import opened Types
  import Decimal
  import Fixtures
  import Feed
  import Auth

  /** The image a post gets when no file was read. */
  const PlaceholderImage := "https://picsum.photos/600/600"

  /** `selectedFile || placeholder`: an absent or empty file falls back to the placeholder. */
  function ImageOrPlaceholder(selectedFile: Option<string>): (url: string)
    ensures selectedFile.Some? && selectedFile.value != "" ==> url == selectedFile.value
    ensures selectedFile.None? || selectedFile.value == "" ==> url == PlaceholderImage
  {
    if selectedFile.Some? && selectedFile.value != "" then selectedFile.value else PlaceholderImage
  }

  /**
   * `handleShare`: a fresh, unliked, unsaved photo with no likes and no
   * comments, always authored by the seed identity "me", whoever is signed in.
   */
  function NewPost(now: nat, selectedFile: Option<string>, caption: string): (p: Post)
    ensures p.id == "p" + Decimal.NatToString(now)
    ensures p.userId == Fixtures.CurrentUser.id && p.caption == caption
    ensures p.imageUrl == ImageOrPlaceholder(selectedFile)
    ensures p.likes == 0 && p.comments == [] && !p.isLiked && !p.isSaved
    ensures p.timestamp == "Just now" && p.kind == Photo && p.location.None?
  {
    Post("p" + Decimal.NatToString(now), Fixtures.CurrentUser.id, ImageOrPlaceholder(selectedFile),
         caption, 0, [], "Just now", false, false, None, Photo)
  }

  /** Posts shared at different clock readings have different ids. */
  lemma NewPostIdsDiffer(now1: nat, now2: nat, f1: Option<string>, f2: Option<string>, c1: string, c2: string)
    requires now1 != now2
    ensures NewPost(now1, f1, c1).id != NewPost(now2, f2, c2).id
  {
    var a := Decimal.NatToString(now1);
    var b := Decimal.NatToString(now2);
    if a == b {
      Decimal.NatToStringInjective(now1, now2);
    }
    assert ("p" + a)[1..] == a && ("p" + b)[1..] == b;
  }

  /**
   * Once shared and put first in the feed, the post is on the seed
   * identity's ("me") profile, which is the signed-in user's only after a
   * log-in, and a first like click on it gives one like.
   */
  lemma SharedPostInFeed(now: nat, selectedFile: Option<string>, caption: string, posts: seq<Post>)
    ensures var p := NewPost(now, selectedFile, caption);
      && p in Feed.PostsBy([p] + posts, Fixtures.CurrentUser.id)
      && Feed.ToggleLike([p] + posts, p.id)[0].likes == 1
      && Feed.ToggleLike([p] + posts, p.id)[0].isLiked
  {
    var p := NewPost(now, selectedFile, caption);
    assert ([p] + posts)[0] == p;
  }

  /** A user who signed up never finds their own shared post on their profile: it is filed under "me". */
  lemma SharedPostMissingAfterSignup(now: nat, selectedFile: Option<string>, caption: string, posts: seq<Post>,
                                     username: string, fullName: string, email: string, signupNow: nat)
    ensures var u := Auth.MockUser(Auth.SignupView, username, fullName, email, signupNow);
      var p := NewPost(now, selectedFile, caption);
      p !in Feed.PostsBy([p] + posts, u.id)
  {
    Auth.SignupIdIsFresh(username, fullName, email, signupNow);
  }

  datatype ComposeState = ComposeState(step: nat, selectedFile: Option<string>, caption: string, closed: bool)

  class CreateModal {
    var step: nat
    var selectedFile: Option<string>
    var caption: string
    /** Set once the overlay has asked its owner to close it (`onClose`). */
    var closed: bool

    function State(): ComposeState
      reads this
    {
      ComposeState(step, selectedFile, caption, closed)
    }

    /** Only steps 1 and 2 exist. */
    predicate Valid()
      reads this
    {
      step == 1 || step == 2
    }

    /** The Share button (and the back arrow) are offered in step 2 only; step 1 offers the close button. */
    predicate ShareOffered()
      reads this
    {
      step == 2
    }

    constructor ()
      ensures Valid() && State() == ComposeState(1, None, "", false)
    {
      step := 1;
      selectedFile := None;
      caption := "";
      closed := false;
    }

    /** A file was read (`handleFileSelect`'s onload): it becomes the selection and step 2 shows. */
    method FileLoaded(dataUrl: string)
      requires Valid()
      modifies this
      ensures Valid() && ShareOffered()
      ensures State() == old(State()).(selectedFile := Some(dataUrl), step := 2)
    {
      selectedFile := Some(dataUrl);
      step := 2;
    }

    /** The back arrow of step 2: back to step 1, keeping the selected file and the caption. */
    method Back()
      requires Valid() && ShareOffered()
      modifies this
      ensures Valid() && !ShareOffered()
      ensures State() == old(State()).(step := 1)
    {
      step := 1;
    }

    /** The close button of step 1. */
    method Close()
      requires Valid() && !ShareOffered()
      modifies this
      ensures Valid()
      ensures State() == old(State()).(closed := true)
    {
      closed := true;
    }

    /** Typing in the caption box. */
    method SetCaption(text: string)
      requires Valid()
      modifies this
      ensures Valid()
      ensures State() == old(State()).(caption := text)
    {
      caption := text;
    }

    /** The Share button: the post handed to `onPost`, built from the selection and the caption. */
    method Share(now: nat) returns (p: Post)
      requires Valid() && ShareOffered()
      ensures p == NewPost(now, selectedFile, caption)
      ensures p.likes == 0 && p.comments == [] && !p.isLiked && !p.isSaved
      ensures selectedFile.Some? && selectedFile.value != "" ==> p.imageUrl == selectedFile.value
    {
      p := NewPost(now, selectedFile, caption);
    }
  }
}
