/**
 * The records of the application (types.ts). Optional fields are `Option`s,
 * except the two optional flags `isAdmin` and `isBanned`, which every reader
 * negates or tests for truth, so an absent flag is modelled as `false`.
 * Numbers are unbounded integers: the source never guards them.
 */
module Types {
  import opened Options

  datatype User = User(
    id: string,
    username: string,
    fullName: string,
    avatar: string,
    isVerified: bool,
    followers: int,
    following: int,
    posts: int,
    bio: string,
    password: Option<string>,
    email: Option<string>,
    phone: Option<string>,
    website: Option<string>,
    gender: Option<string>,
    isAdmin: bool,
    isBanned: bool)

  datatype Comment = Comment(
    id: string,
    userId: string,
    username: string,
    text: string,
    timestamp: string,
    likes: int)

  datatype PostKind = Photo | Video | Album

  datatype Post = Post(
    id: string,
    userId: string,
    imageUrl: string,
    caption: string,
    likes: int,
    comments: seq<Comment>,
    timestamp: string,
    isLiked: bool,
    isSaved: bool,
    location: Option<string>,
    kind: PostKind)

  datatype Story = Story(
    id: string,
    userId: string,
    imageUrl: string,
    isViewed: bool,
    timestamp: string)

  /** The `type` tag of a message. */
  datatype MessageKind = TextMessage | ImageMessage | AudioMessage

  /** The tag as the source spells it ('text', 'image', 'audio'). */
  function KindName(k: MessageKind): string {
    match k
    case TextMessage => "text"
    case ImageMessage => "image"
    case AudioMessage => "audio"
  }

  datatype Message = Message(
    id: string,
    senderId: string,
    text: Option<string>,
    audioUrl: Option<string>,
    imageUrl: Option<string>,
    timestamp: string,
    isOwn: bool,
    kind: MessageKind)

  /** A conversation with one counterpart user (`userId`). */
  datatype ChatThread = ChatThread(
    id: string,
    userId: string,
    lastMessage: string,
    unreadCount: int,
    timestamp: string,
    messages: seq<Message>)

  datatype ReportTarget = PostTarget | UserTarget

  datatype ReportStatus = Pending | Resolved | Dismissed

  datatype Report = Report(
    id: string,
    targetId: string,
    targetType: ReportTarget,
    reason: string,
    status: ReportStatus,
    timestamp: string,
    reportedBy: string)

  datatype NavTab = Home | Search | Reels | Notifications | Messages | Create | Profile | Settings | Admin
}
