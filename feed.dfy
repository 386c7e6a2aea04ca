/**
 * The pure list transforms behind the application's store handlers
 * (App.tsx): every one is a map or a filter over the post list or the user
 * directory, keyed by id. Ids are not assumed unique: every entry carrying
 * the id is affected.
 */
module Feed {
  import opened Options
  import opened Types
  import opened Lists
  import Fixtures

  function PostHasId(id: string): Post -> bool {
    (p: Post) => p.id == id
  }

  function PostHasOtherId(id: string): Post -> bool {
    (p: Post) => p.id != id
  }

  function UserHasId(id: string): User -> bool {
    (u: User) => u.id == id
  }

  // ---------------------------------------------------------------- likes

  /** One post after a like click: the flag flips and the count follows it by one. */
  function LikeToggled(p: Post): (r: Post)
    ensures r.isLiked == !p.isLiked
    ensures r.likes == if r.isLiked then p.likes + 1 else p.likes - 1
    ensures r.(isLiked := p.isLiked, likes := p.likes) == p
  {
    var isNowLiked := !p.isLiked;
    p.(isLiked := isNowLiked, likes := if isNowLiked then p.likes + 1 else p.likes - 1)
  }

  /** `handleLikePost`: every post with the id is toggled, every other post and the order are kept. */
  function ToggleLike(posts: seq<Post>, id: string): (r: seq<Post>)
    ensures |r| == |posts|
    ensures forall i :: 0 <= i < |posts| && posts[i].id == id ==> r[i] == LikeToggled(posts[i])
    ensures forall i :: 0 <= i < |posts| && posts[i].id != id ==> r[i] == posts[i]
  {
    MapWhere(posts, PostHasId(id), LikeToggled)
  }

  /** Liking twice restores both the flag and the count of a post. */
  lemma LikeToggledTwice(p: Post)
    ensures LikeToggled(LikeToggled(p)) == p
  {
  }

  /** Toggling a like twice restores the whole post list. */
  lemma ToggleLikeTwice(posts: seq<Post>, id: string)
    ensures ToggleLike(ToggleLike(posts, id), id) == posts
  {
    var once := ToggleLike(posts, id);
    var twice := ToggleLike(once, id);
    forall i | 0 <= i < |posts|
      ensures twice[i] == posts[i]
    {
      if posts[i].id == id {
        LikeToggledTwice(posts[i]);
      }
    }
  }

  /** An id that no post carries leaves the list unchanged. */
  lemma ToggleLikeAbsent(posts: seq<Post>, id: string)
    requires forall p :: p in posts ==> p.id != id
    ensures ToggleLike(posts, id) == posts
  {
    var r := ToggleLike(posts, id);
    forall i | 0 <= i < |posts| ensures r[i] == posts[i] {
      assert posts[i] in posts;
    }
  }

  // ---------------------------------------------------------------- saves

  /** One post after a save click: only the saved flag flips. */
  function SaveToggled(p: Post): (r: Post)
    ensures r.isSaved == !p.isSaved
    ensures r.(isSaved := p.isSaved) == p
  {
    p.(isSaved := !p.isSaved)
  }

  /** `handleSavePost`: every post with the id has its saved flag flipped, nothing else changes. */
  function ToggleSave(posts: seq<Post>, id: string): (r: seq<Post>)
    ensures |r| == |posts|
    ensures forall i :: 0 <= i < |posts| && posts[i].id == id ==> r[i] == SaveToggled(posts[i])
    ensures forall i :: 0 <= i < |posts| && posts[i].id != id ==> r[i] == posts[i]
  {
    MapWhere(posts, PostHasId(id), SaveToggled)
  }

  /** `n` save clicks on the same post, one after the other. */
  function SaveClicks(posts: seq<Post>, id: string, n: nat): (r: seq<Post>)
    ensures |r| == |posts|
  {
    if n == 0 then posts else ToggleSave(SaveClicks(posts, id, n - 1), id)
  }

  /** However many save clicks, no like count, like flag, id or author moves. */
  lemma {:induction false} SaveClicksKeepLikes(posts: seq<Post>, id: string, n: nat)
    ensures forall i :: 0 <= i < |posts| ==>
      var q := SaveClicks(posts, id, n)[i];
      q.likes == posts[i].likes && q.isLiked == posts[i].isLiked && q.id == posts[i].id && q.userId == posts[i].userId
  {
    if n > 0 {
      SaveClicksKeepLikes(posts, id, n - 1);
    }
  }

  // ---------------------------------------------------------------- directory

  /** `handleUpdateProfile` on the directory: every entry with the updated id becomes the updated record. */
  function ReplaceUser(users: seq<User>, updated: User): (r: seq<User>)
    ensures |r| == |users|
    ensures forall i :: 0 <= i < |users| && users[i].id == updated.id ==> r[i] == updated
    ensures forall i :: 0 <= i < |users| && users[i].id != updated.id ==> r[i] == users[i]
  {
    MapWhere(users, UserHasId(updated.id), _ => updated)
  }

  /** After a profile update, looking the id up in the directory finds the updated record. */
  lemma ReplaceUserLookup(users: seq<User>, updated: User)
    requires exists u :: u in users && u.id == updated.id
    ensures updated in ReplaceUser(users, updated)
    ensures forall u :: u in ReplaceUser(users, updated) && u.id == updated.id ==> u == updated
  {
    var r := ReplaceUser(users, updated);
    var u :| u in users && u.id == updated.id;
    var k :| 0 <= k < |users| && users[k] == u;
    assert r[k] == updated;
  }
  /**
   * An updated record whose id no directory entry carries (a signed-up
   * user, whose id is made from the clock) leaves the directory as it was.
   */
  lemma ReplaceUserAbsent(users: seq<User>, updated: User)
    requires forall u :: u in users ==> u.id != updated.id
    ensures ReplaceUser(users, updated) == users
  {
    var r := ReplaceUser(users, updated);
    forall k | 0 <= k < |users| ensures r[k] == users[k] {
      assert users[k] in users;
    }
  }


  /** One user after a ban click: only the banned flag flips (absent reads as not banned). */
  function BanToggled(u: User): (r: User)
    ensures r.isBanned == !u.isBanned
    ensures r.(isBanned := u.isBanned) == u
  {
    u.(isBanned := !u.isBanned)
  }

  /** `handleBanUser`: every user with the id has the banned flag flipped, nothing else changes. */
  function ToggleBan(users: seq<User>, id: string): (r: seq<User>)
    ensures |r| == |users|
    ensures forall i :: 0 <= i < |users| && users[i].id == id ==> r[i] == BanToggled(users[i])
    ensures forall i :: 0 <= i < |users| && users[i].id != id ==> r[i] == users[i]
  {
    MapWhere(users, UserHasId(id), BanToggled)
  }

  /** Banning twice restores the directory. */
  lemma ToggleBanTwice(users: seq<User>, id: string)
    ensures ToggleBan(ToggleBan(users, id), id) == users
  {
    var twice := ToggleBan(ToggleBan(users, id), id);
    forall i | 0 <= i < |users| ensures twice[i] == users[i] {
    }
  }

  // ---------------------------------------------------------------- deletion

  /** `handleDeletePost`: every post with the id is removed; the rest stay, in order. */
  function DeletePost(posts: seq<Post>, id: string): (r: seq<Post>)
    ensures forall p :: p in r ==> p.id != id
    ensures forall p :: p in posts && p.id != id ==> p in r
    ensures IsSubsequence(r, posts)
    ensures |r| == |posts| - Count(posts, PostHasId(id))
  {
    FilterLength(posts, PostHasOtherId(id), PostHasId(id));
    Filter(posts, PostHasOtherId(id))
  }

  /** A second delete of the same id changes nothing. */
  lemma DeletePostTwice(posts: seq<Post>, id: string)
    ensures DeletePost(DeletePost(posts, id), id) == DeletePost(posts, id)
  {
    FilterIdempotent(posts, PostHasOtherId(id));
  }

  /** With unique ids, deleting a present id removes exactly one post. */
  lemma DeleteUniquePost(posts: seq<Post>, id: string)
    requires Count(posts, PostHasId(id)) == 1
    ensures |DeletePost(posts, id)| == |posts| - 1
    ensures exists p :: p in posts && p.id == id
  {
  }

  // ---------------------------------------------------------------- profile

  /** The post was written by the user with the id. */
  function PostByUser(userId: string): Post -> bool {
    (p: Post) => p.userId == userId
  }

  /** The posts shown on a profile page: every one authored by the given user, in feed order. */
  function PostsBy(posts: seq<Post>, userId: string): (r: seq<Post>)
    ensures forall p :: p in r <==> p in posts && p.userId == userId
    ensures IsSubsequence(r, posts)
    ensures |r| == Count(posts, PostByUser(userId))
  {
    Filter(posts, PostByUser(userId))
  }

  // ---------------------------------------------------------------- seed example

  /** The seed post p2 (3500 likes, liked) drops to 3499 and unliked, and a second click restores it. */
  lemma SeedPostLikeExample()
    ensures ToggleLike(Fixtures.MockPosts, "p2")[1].likes == 3499
    ensures !ToggleLike(Fixtures.MockPosts, "p2")[1].isLiked
    ensures ToggleLike(ToggleLike(Fixtures.MockPosts, "p2"), "p2") == Fixtures.MockPosts
  {
    ToggleLikeTwice(Fixtures.MockPosts, "p2");
  }
}
