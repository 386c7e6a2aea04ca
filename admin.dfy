/**
 * The administrator's page (pages/AdminPage.tsx): dashboard figures, the
 * user search, the ban button and the report actions. The page is handed
 * the directory and the feed; the reports it shows are always the seed
 * reports, which nothing on the page resolves.
 */
module AdminViews {
  import opened Types
  import opened Lists
  import Feed
  import Fixtures

  // ---------------------------------------------------------------- dashboard

  datatype Stats = Stats(totalUsers: nat, totalPosts: nat, activeReports: nat)

  function IsPending(): Report -> bool {
    (r: Report) => r.status == Pending
  }

  /** The dashboard: users and posts as given, and the reports still pending. */
  function Dashboard(users: seq<User>, posts: seq<Post>, reports: seq<Report>): (s: Stats)
    ensures s.totalUsers == |users| && s.totalPosts == |posts|
    ensures s.activeReports <= |reports|
    ensures s.activeReports == |Filter(reports, IsPending())|
    ensures s.activeReports == 0 <==> forall r :: r in reports ==> r.status != Pending
  {
    Stats(|users|, |posts|, Count(reports, IsPending()))
  }

  /** Two of the three seed reports are pending. */
  lemma SeedDashboard()
    ensures Dashboard(Fixtures.MockUsers, Fixtures.MockPosts, Fixtures.MockReports) == Stats(4, 3, 2)
  {
    SeedReportsPending(Fixtures.MockUsers, Fixtures.MockPosts);
  }

  /**
   * The page reads the seed reports itself, so whatever the directory and
   * the feed, two reports are pending, even after a report's Delete.
   */
  lemma SeedReportsPending(users: seq<User>, posts: seq<Post>)
    ensures Dashboard(users, posts, Fixtures.MockReports).activeReports == 2
  {
    var rs := Fixtures.MockReports;
    assert rs[1..][1..][1..] == [];
    assert Count(rs, IsPending()) == 1 + Count(rs[1..], IsPending());
  }

  /** Deleting a post that exactly one entry carries takes one off the post total and nothing else. */
  lemma DashboardAfterUniqueDelete(users: seq<User>, posts: seq<Post>, reports: seq<Report>, id: string)
    requires Count(posts, Feed.PostHasId(id)) == 1
    ensures var before := Dashboard(users, posts, reports);
      Dashboard(users, Feed.DeletePost(posts, id), reports) == before.(totalPosts := before.totalPosts - 1)
  {
    Feed.DeleteUniquePost(posts, id);
  }

  // ---------------------------------------------------------------- search

  /** ASCII lower-casing of one character. */
  function LowerChar(c: char): char {
    if 'A' <= c <= 'Z' then (c as int + 32) as char else c
  }

  /** `toLowerCase`, over ASCII letters. */
  function Lower(s: string): (r: string)
    ensures |r| == |s|
    ensures forall i :: 0 <= i < |s| ==> r[i] == LowerChar(s[i])
  {
    if s == [] then [] else [LowerChar(s[0])] + Lower(s[1..])
  }

  /** Lower-casing what is already lower case changes nothing. */
  lemma LowerIdempotent(s: string)
    ensures Lower(Lower(s)) == Lower(s)
  {
    var once := Lower(s);
    var twice := Lower(once);
    forall i | 0 <= i < |s| ensures twice[i] == once[i] {
    }
  }

  /** The needle occurs in the hay starting at position `i`. */
  predicate OccursAt(hay: string, needle: string, i: nat) {
    i + |needle| <= |hay| && hay[i..i + |needle|] == needle
  }

  /** `hay.includes(needle)`: the needle occurs somewhere in the hay, as a contiguous run. */
  function Contains(hay: string, needle: string): (b: bool)
    ensures b <==> exists i: nat :: OccursAt(hay, needle, i)
    decreases |hay|
  {
    if |needle| > |hay| then false
    else if hay[..|needle|] == needle then
      assert OccursAt(hay, needle, 0);
      true
    else
      var rest := Contains(hay[1..], needle);
      assert forall i: nat :: OccursAt(hay[1..], needle, i) <==> OccursAt(hay, needle, i + 1);
      assert rest ==> exists i: nat :: OccursAt(hay, needle, i) by {
        if rest {
          var i: nat :| OccursAt(hay[1..], needle, i);
          assert OccursAt(hay, needle, i + 1);
        }
      }
      assert (exists i: nat :: OccursAt(hay, needle, i)) ==> rest by {
        if exists i: nat :: OccursAt(hay, needle, i) {
          var i: nat :| OccursAt(hay, needle, i);
          assert i != 0;
          assert OccursAt(hay[1..], needle, i - 1);
        }
      }
      rest
  }

  /** The user's lower-cased name contains the given (already lower-cased) search text. */
  function NameContains(needle: string): User -> bool {
    (u: User) => Contains(Lower(u.username), needle)
  }

  /** `filteredUsers`: the users whose name contains the search term, ignoring case, in directory order. */
  function FilterUsers(users: seq<User>, searchTerm: string): (r: seq<User>)
    ensures forall u :: u in r <==> u in users && Contains(Lower(u.username), Lower(searchTerm))
    ensures IsSubsequence(r, users)
    ensures |r| == Count(users, NameContains(Lower(searchTerm)))
  {
    Filter(users, NameContains(Lower(searchTerm)))
  }

  /** An empty search lists every user. */
  lemma EmptySearchKeepsAll(users: seq<User>)
    ensures FilterUsers(users, "") == users
  {
    forall u | u in users ensures NameContains(Lower(""))(u) {
      assert OccursAt(Lower(u.username), Lower(""), 0);
    }
    FilterAll(users, NameContains(Lower("")));
  }

  /** Searching for the lower-cased term gives the same list as the term itself. */
  lemma SearchIgnoresCase(users: seq<User>, searchTerm: string)
    ensures FilterUsers(users, Lower(searchTerm)) == FilterUsers(users, searchTerm)
  {
    LowerIdempotent(searchTerm);
  }

  // ---------------------------------------------------------------- user rows

  /** The row's action button. */
  function BanButtonLabel(u: User): (text: string)
    ensures text == "Unban" <==> u.isBanned
    ensures text == "Ban" <==> !u.isBanned
  {
    if u.isBanned then "Unban" else "Ban"
  }

  /** The row's status badge. */
  function StatusBadge(u: User): (badge: string)
    ensures badge == "Banned" <==> u.isBanned
    ensures badge == "Active" <==> !u.isBanned
  {
    if u.isBanned then "Banned" else "Active"
  }

  /** The button offers "Unban" exactly for a banned user, whose badge reads "Banned"; a ban click flips both. */
  lemma BanLabelsAgree(u: User)
    ensures BanButtonLabel(u) == "Unban" <==> u.isBanned
    ensures StatusBadge(u) == "Banned" <==> u.isBanned
    ensures BanButtonLabel(u) == "Unban" <==> StatusBadge(u) == "Banned"
    ensures BanButtonLabel(Feed.BanToggled(u)) != BanButtonLabel(u)
    ensures StatusBadge(Feed.BanToggled(u)) != StatusBadge(u)
  {
  }

  // ---------------------------------------------------------------- reports

  /** A report's Delete button: the post list after deleting by the report's target id, whatever its type. */
  function DeleteFromReport(posts: seq<Post>, report: Report): (r: seq<Post>)
    ensures r == Feed.DeletePost(posts, report.targetId)
    ensures forall p :: p in r ==> p.id != report.targetId
  {
    Feed.DeletePost(posts, report.targetId)
  }

  /** Deleting on a report about a user changes the feed only when some post shares the user's id. */
  lemma {:induction false} UserReportDeleteKeepsPosts(posts: seq<Post>, report: Report)
    requires report.targetType == UserTarget
    requires forall p :: p in posts ==> p.id != report.targetId
    ensures DeleteFromReport(posts, report) == posts
  {
    FilterAll(posts, Feed.PostHasOtherId(report.targetId));
  }
}
