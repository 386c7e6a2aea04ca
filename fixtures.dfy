/** The seed data the application starts from (constants.ts). */
module Fixtures {
  import opened Options
  import opened Types

  /**
   * The seed identity "me", an administrator: every mock log-in and
   * sign-up is built from it (a log-in keeps its id, a sign-up gets a
   * fresh one), and every shared post names it as author.
   */
  const CurrentUser := User(
    "me", "vibesnap_admin", "VibeSnap Admin", "https://picsum.photos/seed/me/150/150",
    true, 1250, 450, 12,
    "Welcome to VibeSnap! \U{1F31F}\nSharing moments that matter.",
    None, Some("admin@vibesnap.com"), Some("+1 555 0199 888"), Some("https://vibesnap.com"),
    Some("Prefer not to say"), true, false)

  /** A directory user with no optional field set. */
  function SeedUser(id: string, username: string, fullName: string, verified: bool,
                    followers: int, following: int, posts: int, bio: string): User
  {
    User(id, username, fullName, "https://picsum.photos/seed/" + id + "/150/150",
         verified, followers, following, posts, bio, None, None, None, None, None, false, false)
  }

  const MockUsers := [
    SeedUser("u1", "alex_wanderer", "Alex Explore", false, 8500, 200, 340, "Chasing sunsets \U{1F304}"),
    SeedUser("u2", "tech_insider", "Tech Insider", true, 50000, 50, 1200, "Future is here \U{1F680}"),
    SeedUser("u3", "culinary_arts", "Chef Bella", false, 12000, 400, 560, "Taste the world \U{1F35C}"),
    SeedUser("u4", "fitness_pro", "Marcus Fit", true, 98000, 100, 890, "No pain no gain \U{1F4AA}")
  ]

  /** One story per directory user, `s0` .. `s3`. */
  const MockStories := [
    Story("s0", "u1", "https://picsum.photos/seed/story0/400/800", false, "2h"),
    Story("s1", "u2", "https://picsum.photos/seed/story1/400/800", false, "3h"),
    Story("s2", "u3", "https://picsum.photos/seed/story2/400/800", false, "4h"),
    Story("s3", "u4", "https://picsum.photos/seed/story3/400/800", false, "5h")
  ]

  const MockPosts := [
    Post("p1", "u1", "https://picsum.photos/seed/p1/600/600",
         "Golden hour in Santorini \U{1F305} #travel #vibes", 1240,
         [Comment("c1", "u2", "tech_insider", "Incredible colors!", "2h", 12)],
         "2 hours ago", false, false, Some("Santorini, Greece"), Photo),
    Post("p2", "u2", "https://picsum.photos/seed/p2/600/700",
         "Unboxing the future. This device changes everything. \U{1F4F1}", 3500, [],
         "5 hours ago", true, true, Some("San Francisco, CA"), Photo),
    Post("p3", "u3", "https://picsum.photos/seed/p3/600/600",
         "Freshly made basil pesto pasta. Recipe in bio! \U{1F35D}", 890, [],
         "1 day ago", false, false, None, Photo)
  ]

  const MockReports := [
    Report("rep1", "p1", PostTarget, "Inappropriate content", Pending, "2023-10-27", "u2"),
    Report("rep2", "u3", UserTarget, "Spam / Bot", Resolved, "2023-10-25", "u4"),
    Report("rep3", "p3", PostTarget, "Misinformation", Pending, "2023-10-28", "u1")
  ]

  /** A seed text message; its time comes from the clock, so it is a parameter. */
  function SeedMessage(id: string, senderId: string, text: string, isoTime: string): Message {
    Message(id, senderId, Some(text), None, None, isoTime, senderId == "me", TextMessage)
  }

  /** The seed conversations: c1 with u1 and c2 with u2, each message stamped with a clock-derived ISO time. */
  function MockChats(t1: string, t2: string, t3: string, t4: string, t5: string): seq<ChatThread> {
    [ ChatThread("c1", "u1", "See you next week!", 1, "Now", [
        SeedMessage("m1", "u1", "Hey! Are you coming?", t1),
        SeedMessage("m2", "me", "Yes, absolutely.", t2),
        SeedMessage("m3", "u1", "See you next week!", t3)]),
      ChatThread("c2", "u2", "Thanks for the feedback.", 0, "2h", [
        SeedMessage("m1", "me", "Loved the new review!", t4),
        SeedMessage("m2", "u2", "Thanks for the feedback.", t5)])
    ]
  }
}
