/**
 * The root component's state (App.tsx): the signed-in user, the feed, the
 * user directory, the active tab and the overlay flags, with the handlers
 * that update them. Each handler replaces the affected fields by a pure
 * function of their old values (module Feed); everything else is kept.
 */
module AppShell {
  import opened Options
  import opened Types
  import Feed
  import Fixtures
  import Lists

  /** All fields of the root component at one moment. */
  datatype Snapshot = Snapshot(
    user: Option<User>,
    activeTab: NavTab,
    isCreateOpen: bool,
    isEditProfileOpen: bool,
    activeStoryId: Option<string>,
    isDarkMode: bool,
    isMenuOpen: bool,
    posts: seq<Post>,
    allUsers: seq<User>)

  /** The page the main area renders. */
  datatype Screen =
    | AuthScreen
    | HomeScreen | ExploreScreen | ReelsScreen | MessagesScreen | ProfileScreen
    | SettingsScreen | NotificationsScreen | AdminScreen
    | NoPage

  /**
   * The auth gate and the tab switch: without a user only the sign-in page
   * shows; the admin page shows only to an administrator, and a tab without
   * a page (CREATE, or ADMIN for a non-administrator) leaves the area empty.
   */
  function ScreenOf(s: Snapshot): (r: Screen)
    ensures r == AuthScreen <==> s.user.None?
    ensures r == AdminScreen <==> s.user.Some? && s.user.value.isAdmin && s.activeTab == Admin
    ensures s.user.Some? && s.activeTab == Create ==> r == NoPage
  {
    if s.user.None? then AuthScreen
    else match s.activeTab
      case Home => HomeScreen
      case Search => ExploreScreen
      case Reels => ReelsScreen
      case Messages => MessagesScreen
      case Profile => ProfileScreen
      case Settings => SettingsScreen
      case Notifications => NotificationsScreen
      case Admin => if s.user.value.isAdmin then AdminScreen else NoPage
      case Create => NoPage
  }

  /** The story overlay shows while a non-empty story id is selected. */
  function StoryViewerShown(s: Snapshot): (shown: bool)
    ensures shown ==> s.activeStoryId.Some?
    ensures s.activeStoryId == Some("") ==> !shown
    ensures s.activeStoryId.None? ==> !shown
    ensures forall id :: s.activeStoryId == Some(id) && id != "" ==> shown
  {
    s.activeStoryId.Some? && s.activeStoryId.value != ""
  }

  /** The signed-in user and every directory entry with the same id are the same record. */
  function ProfileInSync(s: Snapshot): (inSync: bool)
    ensures s.user.None? ==> inSync
    ensures inSync && s.user.Some? && (exists u :: u in s.allUsers && u.id == s.user.value.id) ==>
      s.user.value in s.allUsers
  {
    s.user.Some? ==> forall u :: u in s.allUsers && u.id == s.user.value.id ==> u == s.user.value
  }

  class App {
    var user: Option<User>
    var activeTab: NavTab
    var isCreateOpen: bool
    var isEditProfileOpen: bool
    var activeStoryId: Option<string>
    var isDarkMode: bool
    var isMenuOpen: bool
    var posts: seq<Post>
    var allUsers: seq<User>

    function State(): Snapshot
      reads this
    {
      Snapshot(user, activeTab, isCreateOpen, isEditProfileOpen, activeStoryId,
               isDarkMode, isMenuOpen, posts, allUsers)
    }

    /** CREATE is never the active tab: choosing it opens the compose overlay instead. */
    predicate Valid()
      reads this
    {
      activeTab != Create
    }

    /** The initial state: signed out, on HOME, no overlay, the seed feed and directory. */
    constructor ()
      ensures Valid()
      ensures State() == Snapshot(None, Home, false, false, None, false, false,
                                  Fixtures.MockPosts, Fixtures.MockUsers + [Fixtures.CurrentUser])
    {
      user := None;
      activeTab := Home;
      isCreateOpen := false;
      isEditProfileOpen := false;
      activeStoryId := None;
      isDarkMode := false;
      isMenuOpen := false;
      posts := Fixtures.MockPosts;
      allUsers := Fixtures.MockUsers + [Fixtures.CurrentUser];
    }

    /** The sign-in page's `onLogin`: the synthesised user becomes the current user. */
    method Login(u: User)
      requires Valid() && user.None?
      modifies this
      ensures Valid()
      ensures State() == old(State()).(user := Some(u))
      ensures ScreenOf(State()) != AuthScreen
    {
      user := Some(u);
    }

    /** `handleLikePost`. */
    method LikePost(postId: string)
      requires Valid() && user.Some?
      modifies this
      ensures Valid()
      ensures State() == old(State()).(posts := Feed.ToggleLike(old(posts), postId))
    {
      posts := Feed.ToggleLike(posts, postId);
    }

    /** `handleSavePost`. */
    method SavePost(postId: string)
      requires Valid() && user.Some?
      modifies this
      ensures Valid()
      ensures State() == old(State()).(posts := Feed.ToggleSave(old(posts), postId))
    {
      posts := Feed.ToggleSave(posts, postId);
    }

    /** `handleNavClick`: CREATE opens the compose overlay and keeps the tab; any other tab becomes active. */
    method NavClick(tab: NavTab)
      requires Valid() && user.Some?
      modifies this
      ensures Valid()
      ensures tab == Create ==> State() == old(State()).(isCreateOpen := true)
      ensures tab != Create ==> State() == old(State()).(activeTab := tab)
    {
      if tab == Create {
        isCreateOpen := true;
      } else {
        activeTab := tab;
      }
    }

    /** `handleLogout`: no user, back to HOME, menu closed; the gate then shows the sign-in page. */
    method Logout()
      requires Valid() && user.Some?
      modifies this
      ensures Valid()
      ensures State() == old(State()).(user := None, activeTab := Home, isMenuOpen := false)
      ensures ScreenOf(State()) == AuthScreen
    {
      user := None;
      activeTab := Home;
      isMenuOpen := false;
    }

    /** `addNewPost`: the post goes first, the overlay closes and the feed is shown. */
    method AddNewPost(newPost: Post)
      requires Valid() && user.Some?
      modifies this
      ensures Valid()
      ensures State() == old(State()).(posts := [newPost] + old(posts), isCreateOpen := false, activeTab := Home)
      ensures posts[0] == newPost && posts[1..] == old(posts)
      ensures ScreenOf(State()) == HomeScreen
    {
      posts := [newPost] + posts;
      isCreateOpen := false;
      activeTab := Home;
    }

    /** `handleUpdateProfile`: the current user and its directory entries become the updated record. */
    method UpdateProfile(updatedUser: User)
      requires Valid() && user.Some?
      modifies this
      ensures Valid()
      ensures State() == old(State()).(user := Some(updatedUser),
                                       allUsers := Feed.ReplaceUser(old(allUsers), updatedUser))
      ensures ProfileInSync(State())
    {
      user := Some(updatedUser);
      allUsers := Feed.ReplaceUser(allUsers, updatedUser);
    }

    /** `handleBanUser`. */
    method BanUser(userId: string)
      requires Valid() && user.Some?
      modifies this
      ensures Valid()
      ensures State() == old(State()).(allUsers := Feed.ToggleBan(old(allUsers), userId))
    {
      allUsers := Feed.ToggleBan(allUsers, userId);
    }

    /** `handleDeletePost`. */
    method DeletePost(postId: string)
      requires Valid() && user.Some?
      modifies this
      ensures Valid()
      ensures State() == old(State()).(posts := Feed.DeletePost(old(posts), postId))
    {
      posts := Feed.DeletePost(posts, postId);
    }

    /** The "More" button: the menu opens or closes. */
    method ToggleMenu()
      requires Valid() && user.Some?
      modifies this
      ensures Valid()
      ensures State() == old(State()).(isMenuOpen := !old(isMenuOpen))
    {
      isMenuOpen := !isMenuOpen;
    }

    /** The menu's Settings entry: SETTINGS becomes active and the menu closes. */
    method OpenSettingsFromMenu()
      requires Valid() && user.Some?
      modifies this
      ensures Valid()
      ensures State() == old(State()).(activeTab := Settings, isMenuOpen := false)
    {
      activeTab := Settings;
      isMenuOpen := false;
    }

    /** A story click on the feed selects that story; the viewer's close clears it. */
    method SelectStory(storyId: Option<string>)
      requires Valid() && user.Some?
      modifies this
      ensures Valid()
      ensures State() == old(State()).(activeStoryId := storyId)
    {
      activeStoryId := storyId;
    }

    /** The compose overlay's close button. */
    method CloseCreate()
      requires Valid() && user.Some?
      modifies this
      ensures Valid()
      ensures State() == old(State()).(isCreateOpen := false)
    {
      isCreateOpen := false;
    }

    /** The profile page's edit button opens the editor; its close button closes it. */
    method SetEditProfileOpen(open: bool)
      requires Valid() && user.Some?
      modifies this
      ensures Valid()
      ensures State() == old(State()).(isEditProfileOpen := open)
    {
      isEditProfileOpen := open;
    }

    /** The settings page's theme switch. */
    method ToggleTheme()
      requires Valid() && user.Some?
      modifies this
      ensures Valid()
      ensures State() == old(State()).(isDarkMode := !old(isDarkMode))
    {
      isDarkMode := !isDarkMode;
    }

    /** The posts the profile page lists: every one of the signed-in user's own, in feed order. */
    function ProfilePosts(): (r: seq<Post>)
      reads this
      requires user.Some?
      ensures forall p :: p in r <==> p in posts && p.userId == user.value.id
      ensures Lists.IsSubsequence(r, posts)
      ensures |r| == Lists.Count(posts, Feed.PostByUser(user.value.id))
    {
      Feed.PostsBy(posts, user.value.id)
    }
  }
}
