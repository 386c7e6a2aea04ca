/**
 * The direct-message page (pages/MessagesPage.tsx): the thread list, the
 * message a send builds, the scripted reply, the thread update both go
 * through, and the recording timer's m:ss label.
 */
module Chat {
  import opened Options
  import opened Types
  import opened Lists
  import Decimal
  import Fixtures

  /** The path every voice note points to. */
  const MockAudioUrl := "mock_audio.mp3"

  /** The scripted reply's text, character for character as the source file holds it. */
  const ReplyText := "That looks great! \U{00F0}\U{0178}\U{2018}"

  const JustNow := "Just now"

  /** Exactly the payload field that matches the type tag is present. */
  predicate WellFormed(m: Message) {
    && (m.text.Some? <==> m.kind == TextMessage)
    && (m.imageUrl.Some? <==> m.kind == ImageMessage)
    && (m.audioUrl.Some? <==> m.kind == AudioMessage)
  }

  // ---------------------------------------------------------------- one thread

  /** The preview line a thread shows for its latest message. */
  function Preview(m: Message): (s: string)
    ensures m.kind == TextMessage ==> s == m.text.GetOr("")
    ensures m.kind != TextMessage ==> s == "Sent an " + KindName(m.kind)
  {
    if m.kind == TextMessage then
      (if m.text.Some? && m.text.value != "" then m.text.value else "")
    else "Sent an " + KindName(m.kind)
  }

  /** A thread after a message is appended to it. */
  function Appended(t: ChatThread, m: Message): (r: ChatThread)
    ensures |r.messages| == |t.messages| + 1
    ensures r.messages[..|t.messages|] == t.messages && r.messages[|t.messages|] == m
    ensures r.lastMessage == Preview(m) && r.timestamp == JustNow
    ensures r.id == t.id && r.userId == t.userId && r.unreadCount == t.unreadCount
  {
    t.(messages := t.messages + [m], lastMessage := Preview(m), timestamp := JustNow)
  }

  function ThreadHasId(id: string): ChatThread -> bool {
    (t: ChatThread) => t.id == id
  }

  function AppendTo(m: Message): ChatThread -> ChatThread {
    (t: ChatThread) => Appended(t, m)
  }

  /** `updateThreadMessages`: the message lands at the end of every thread with the id; other threads stay. */
  function UpdateThreadMessages(threads: seq<ChatThread>, threadId: string, m: Message): (r: seq<ChatThread>)
    ensures |r| == |threads|
    ensures forall i :: 0 <= i < |threads| && threads[i].id == threadId ==> r[i] == Appended(threads[i], m)
    ensures forall i :: 0 <= i < |threads| && threads[i].id != threadId ==> r[i] == threads[i]
  {
    MapWhere(threads, ThreadHasId(threadId), AppendTo(m))
  }

  /** Thread ids survive an update, so a thread can be found again by the same id. */
  lemma UpdateKeepsIds(threads: seq<ChatThread>, threadId: string, m: Message)
    ensures forall i :: 0 <= i < |threads| ==> UpdateThreadMessages(threads, threadId, m)[i].id == threads[i].id
  {
  }

  // ---------------------------------------------------------------- messages

  /** The message a send builds; the clock reading makes its id and the ISO time its timestamp. */
  function NewMessage(kind: MessageKind, content: string, now: nat, isoTime: string): (m: Message)
    ensures WellFormed(m)
    ensures m.senderId == "me" && m.isOwn && m.kind == kind && m.timestamp == isoTime
    ensures kind == TextMessage ==> m.text == Some(content)
    ensures kind == ImageMessage ==> m.imageUrl == Some(content)
    ensures kind == AudioMessage ==> m.audioUrl == Some(MockAudioUrl)
    ensures m.id == "m" + Decimal.NatToString(now)
  {
    Message(
      "m" + Decimal.NatToString(now),
      "me",
      if kind == TextMessage then Some(content) else None,
      if kind == AudioMessage then Some(MockAudioUrl) else None,
      if kind == ImageMessage then Some(content) else None,
      isoTime,
      true,
      kind)
  }

  /** The first thread with the id (`threads.find`), or None when no thread has it. */
  function FindThread(threads: seq<ChatThread>, id: string): (r: Option<ChatThread>)
    ensures r.Some? <==> exists t :: t in threads && t.id == id
    ensures r.Some? ==> exists k :: 0 <= k < |threads| && threads[k] == r.value && r.value.id == id &&
                                   forall j :: 0 <= j < k ==> threads[j].id != id
  {
    if threads == [] then None
    else if threads[0].id == id then Some(threads[0])
    else FindThread(threads[1..], id)
  }

  /** The first user with the id (`MOCK_USERS.find`), or None when no user has it. */
  function FindUser(users: seq<User>, id: string): (r: Option<User>)
    ensures r.Some? <==> exists u :: u in users && u.id == id
    ensures r.Some? ==> exists k :: 0 <= k < |users| && users[k] == r.value && r.value.id == id &&
                                   forall j :: 0 <= j < k ==> users[j].id != id
  {
    if users == [] then None
    else if users[0].id == id then Some(users[0])
    else FindUser(users[1..], id)
  }

  /** Some seed user (`MOCK_USERS`) carries the id. */
  predicate IsSeedUserId(id: string) {
    exists u :: u in Fixtures.MockUsers && u.id == id
  }

  /**
   * Who the scripted reply comes from (`activeUser?.id || 'unknown'`): the
   * counterpart of the first thread with the id when that counterpart is a
   * seed user with a non-empty id, and "unknown" in every other case.
   */
  function ReplySender(threads: seq<ChatThread>, threadId: string): (s: string)
    ensures var t := FindThread(threads, threadId);
      t.Some? && IsSeedUserId(t.value.userId) && t.value.userId != "" ==> s == t.value.userId
    ensures var t := FindThread(threads, threadId);
      !(t.Some? && IsSeedUserId(t.value.userId) && t.value.userId != "") ==> s == "unknown"
  {
    match FindThread(threads, threadId)
    case None => "unknown"
    case Some(t) =>
      match FindUser(Fixtures.MockUsers, t.userId)
      case None => "unknown"
      case Some(u) => if u.id != "" then u.id else "unknown"
  }

  /** The scripted reply, built when its timer fires: a fixed text message from the counterpart. */
  function ReplyMessage(senderId: string, now: nat, isoTime: string): (m: Message)
    ensures WellFormed(m) && m.kind == TextMessage && !m.isOwn
    ensures m.text == Some(ReplyText) && m.senderId == senderId
    ensures m.id == "m" + Decimal.NatToString(now + 1) && m.timestamp == isoTime
  {
    Message("m" + Decimal.NatToString(now + 1), senderId, Some(ReplyText), None, None, isoTime, false, TextMessage)
  }

  // ---------------------------------------------------------------- formatTime

  /** The seconds of a duration as two digits, zero-padded below 10. */
  function PaddedSeconds(secs: nat): (s: string)
    requires secs < 60
    ensures |s| == 2 && Decimal.AllDigits(s) && Decimal.ParseNat(s) == secs
  {
    Decimal.ParseNatToString(secs);
    if secs < 10 then
      assert ("0" + Decimal.NatToString(secs))[..1] == "0";
      "0" + Decimal.NatToString(secs)
    else
      Decimal.TwoDigitNumeral(secs);
      Decimal.NatToString(secs)
  }

  /** `formatTime`: whole minutes, a colon, then the remaining seconds on two digits. */
  function FormatTime(seconds: nat): (s: string)
    ensures s == Decimal.NatToString(seconds / 60) + ":" + PaddedSeconds(seconds % 60)
  {
    var mins := seconds / 60;
    var secs := seconds % 60;
    Decimal.NatToString(mins) + ":" + (if secs < 10 then "0" else "") + Decimal.NatToString(secs)
  }

  /** Reads an m:ss label back into seconds; None for anything else. */
  function ParseTime(s: string): (r: Option<nat>)
  {
    if |s| >= 4 && s[|s| - 3] == ':' && Decimal.AllDigits(s[..|s| - 3]) && Decimal.AllDigits(s[|s| - 2..])
    then Some(60 * Decimal.ParseNat(s[..|s| - 3]) + Decimal.ParseNat(s[|s| - 2..]))
    else None
  }

  /** The label's minutes times 60 plus its seconds give back the duration: formatting loses nothing. */
  lemma FormatTimeRoundTrip(seconds: nat)
    ensures ParseTime(FormatTime(seconds)) == Some(seconds)
  {
    var mm := Decimal.NatToString(seconds / 60);
    var ss := PaddedSeconds(seconds % 60);
    var s := FormatTime(seconds);
    assert s == mm + ":" + ss;
    assert s[..|s| - 3] == mm;
    assert s[|s| - 2..] == ss;
    Decimal.ParseNatToString(seconds / 60);
  }

  // ---------------------------------------------------------------- the page

  /** A reply scheduled by a send: the thread it goes to and who it comes from, both fixed at send time. */
  datatype PendingReply = PendingReply(threadId: string, senderId: string)

  datatype ChatState = ChatState(
    threads: seq<ChatThread>,
    activeThreadId: Option<string>,
    inputText: string,
    isRecording: bool,
    recordingDuration: nat,
    pendingReplies: seq<PendingReply>)

  /** `!activeThreadId`: JavaScript treats both a missing id and the empty id as no thread. */
  function NoActiveThread(id: Option<string>): (b: bool)
    ensures id == None ==> b
    ensures id == Some("") ==> b
    ensures b ==> id.None? || id.value == ""
  {
    id.None? || id.value == ""
  }

  class MessagesPage {
    var threads: seq<ChatThread>
    var activeThreadId: Option<string>
    var inputText: string
    var isRecording: bool
    var recordingDuration: nat
    /** Replies whose two-second timers are running; every timer has the same delay, so they fire in this order. */
    var pendingReplies: seq<PendingReply>

    function State(): ChatState
      reads this
    {
      ChatState(threads, activeThreadId, inputText, isRecording, recordingDuration, pendingReplies)
    }

    /** The duration counter runs only while recording. */
    predicate Valid()
      reads this
    {
      !isRecording ==> recordingDuration == 0
    }

    /** Opens on the seed threads (`MOCK_CHATS`), with no thread selected; the seed messages' times are parameters. */
    constructor (t1: string, t2: string, t3: string, t4: string, t5: string)
      ensures Valid()
      ensures State() == ChatState(Fixtures.MockChats(t1, t2, t3, t4, t5), None, "", false, 0, [])
    {
      threads := Fixtures.MockChats(t1, t2, t3, t4, t5);
      activeThreadId := None;
      inputText := "";
      isRecording := false;
      recordingDuration := 0;
      pendingReplies := [];
    }

    /** A click on a thread in the list, or the back arrow (None). */
    method SelectThread(id: Option<string>)
      requires Valid()
      modifies this
      ensures Valid()
      ensures State() == old(State()).(activeThreadId := id)
    {
      activeThreadId := id;
    }

    /** Typing in the message box. */
    method SetInputText(text: string)
      requires Valid()
      modifies this
      ensures Valid()
      ensures State() == old(State()).(inputText := text)
    {
      inputText := text;
    }

    /**
     * `handleSendMessage`: without an active thread nothing happens;
     * otherwise the message is appended to the active thread, the box is
     * cleared and one reply from the counterpart is scheduled.
     */
    method SendMessage(kind: MessageKind, content: string, now: nat, isoTime: string)
      requires Valid()
      requires kind == TextMessage ==> content == inputText
      modifies this
      ensures Valid()
      ensures NoActiveThread(old(activeThreadId)) ==> State() == old(State())
      ensures !NoActiveThread(old(activeThreadId)) ==>
        var tid := old(activeThreadId).value;
        State() == old(State()).(
          threads := UpdateThreadMessages(old(threads), tid, NewMessage(kind, content, now, isoTime)),
          inputText := "",
          pendingReplies := old(pendingReplies) + [PendingReply(tid, ReplySender(old(threads), tid))])
    {
      if NoActiveThread(activeThreadId) {
        return;
      }
      var tid := activeThreadId.value;
      var reply := PendingReply(tid, ReplySender(threads, tid));
      threads := UpdateThreadMessages(threads, tid, NewMessage(kind, content, now, isoTime));
      inputText := "";
      pendingReplies := pendingReplies + [reply];
    }

    /** The oldest reply timer fires: the reply goes to the thread it was scheduled for. */
    method DeliverReply(now: nat, isoTime: string)
      requires Valid() && pendingReplies != []
      modifies this
      ensures Valid()
      ensures var p := old(pendingReplies)[0];
        State() == old(State()).(
          threads := UpdateThreadMessages(old(threads), p.threadId, ReplyMessage(p.senderId, now, isoTime)),
          pendingReplies := old(pendingReplies)[1..])
    {
      var p := pendingReplies[0];
      threads := UpdateThreadMessages(threads, p.threadId, ReplyMessage(p.senderId, now, isoTime));
      pendingReplies := pendingReplies[1..];
    }

    /** The microphone button. */
    method StartRecording()
      requires Valid()
      modifies this
      ensures Valid()
      ensures State() == old(State()).(isRecording := true)
    {
      isRecording := true;
    }

    /** One second of recording: the counter goes up while recording and is otherwise left at 0. */
    method RecordingTick()
      requires Valid()
      modifies this
      ensures Valid()
      ensures State() == old(State()).(recordingDuration := if old(isRecording) then old(recordingDuration) + 1 else 0)
    {
      if isRecording {
        recordingDuration := recordingDuration + 1;
      }
    }

    /** `handleStopRecording`: the counter resets and a voice note is sent. */
    method StopRecording(now: nat, isoTime: string)
      requires Valid()
      modifies this
      ensures Valid() && !isRecording && recordingDuration == 0
      ensures var s := old(State()).(isRecording := false, recordingDuration := 0);
        NoActiveThread(s.activeThreadId) ==> State() == s
      ensures var s := old(State()).(isRecording := false, recordingDuration := 0);
        !NoActiveThread(s.activeThreadId) ==>
        var tid := s.activeThreadId.value;
        State() == s.(
          threads := UpdateThreadMessages(s.threads, tid, NewMessage(AudioMessage, "Voice Note", now, isoTime)),
          inputText := "",
          pendingReplies := s.pendingReplies + [PendingReply(tid, ReplySender(s.threads, tid))])
    {
      isRecording := false;
      recordingDuration := 0;
      SendMessage(AudioMessage, "Voice Note", now, isoTime);
    }

    /** The recording timer's label. */
    function RecordingLabel(): (s: string)
      reads this
      ensures ParseTime(s) == Some(recordingDuration)
    {
      FormatTimeRoundTrip(recordingDuration);
      FormatTime(recordingDuration)
    }
  }

  /**
   * The seed thread c1 is with seed user u1: a text sent there becomes its
   * preview at once, marked "Just now", and the scripted reply that follows
   * is one more message, from u1. Thread c2 is untouched.
   */
  lemma SeedThreadExchange(text: string, now: nat, isoTime: string, replyNow: nat, replyIso: string,
                           t1: string, t2: string, t3: string, t4: string, t5: string)
    ensures var seed := Fixtures.MockChats(t1, t2, t3, t4, t5);
      var sent := UpdateThreadMessages(seed, "c1", NewMessage(TextMessage, text, now, isoTime));
      var replied := UpdateThreadMessages(sent, "c1", ReplyMessage(ReplySender(seed, "c1"), replyNow, replyIso));
      && ReplySender(seed, "c1") == "u1" == seed[0].userId
      && sent[0].lastMessage == text && sent[0].timestamp == JustNow
      && |replied[0].messages| == |seed[0].messages| + 2
      && replied[0].messages[|replied[0].messages| - 1].senderId == "u1"
      && replied[0].lastMessage == ReplyText
      && replied[1] == seed[1]
  {
    var seed := Fixtures.MockChats(t1, t2, t3, t4, t5);
    assert Fixtures.MockUsers[0] in Fixtures.MockUsers;
    assert FindThread(seed, "c1") == Some(seed[0]);
  }

  /** The same exchange driven through the page: open c1, send, let the reply timer fire. */
  method SeedConversation(text: string, now: nat, isoTime: string, replyNow: nat, replyIso: string,
                          t1: string, t2: string, t3: string, t4: string, t5: string)
    returns (c1: ChatThread)
    ensures c1.id == "c1" && |c1.messages| == 5
    ensures c1.messages[3].senderId == "me" && c1.messages[3].text == Some(text)
    ensures c1.messages[4].senderId == "u1" && c1.messages[4].text == Some(ReplyText)
  {
    var page := new MessagesPage(t1, t2, t3, t4, t5);
    page.SelectThread(Some("c1"));
    page.SetInputText(text);
    page.SendMessage(TextMessage, page.inputText, now, isoTime);
    assert page.inputText == "";
    page.DeliverReply(replyNow, replyIso);
    SeedThreadExchange(text, now, isoTime, replyNow, replyIso, t1, t2, t3, t4, t5);
    c1 := page.threads[0];
  }
}
