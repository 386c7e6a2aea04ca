/**
 * The full-screen story viewer (components/StoryViewer.tsx): a position in
 * the story list and a progress percentage that a 50 ms timer advances by 2.
 */
module Stories {
  import opened Types

  /** `stories.findIndex(s => s.id === id)`: the first position with the id, or -1. */
  function FindIndex(stories: seq<Story>, id: string): (k: int)
    ensures -1 <= k < |stories|
    ensures k == -1 <==> forall s :: s in stories ==> s.id != id
    ensures k >= 0 ==> stories[k].id == id && forall j :: 0 <= j < k ==> stories[j].id != id
  {
    if stories == [] then -1
    else if stories[0].id == id then 0
    else
      var k := FindIndex(stories[1..], id);
      if k == -1 then -1 else k + 1
  }

  /** The position the viewer opens on: the chosen story's, or the first when no story has the id. */
  function StartIndex(stories: seq<Story>, initialStoryId: string): (r: nat)
    requires |stories| > 0
    ensures r < |stories|
    ensures (exists s :: s in stories && s.id == initialStoryId) ==>
      stories[r].id == initialStoryId && forall j :: 0 <= j < r ==> stories[j].id != initialStoryId
    ensures (forall s :: s in stories ==> s.id != initialStoryId) ==> r == 0
  {
    var k := FindIndex(stories, initialStoryId);
    if k >= 0 then k else 0
  }

  /** The width, in percent, of the bar at position `idx`: full before the current story, empty after it. */
  function BarWidth(idx: nat, currentIndex: nat, progress: int): (w: int)
    ensures idx < currentIndex ==> w == 100
    ensures idx == currentIndex ==> w == progress
    ensures idx > currentIndex ==> w == 0
    ensures 0 <= progress <= 100 ==> 0 <= w <= 100
  {
    if idx < currentIndex then 100 else if idx == currentIndex then progress else 0
  }

  /** With progress in [0, 100], every bar is within [0, 100] and the bars never grow from left to right. */
  lemma BarWidthsDescend(i: nat, j: nat, currentIndex: nat, progress: int)
    requires 0 <= progress <= 100 && i <= j
    ensures 0 <= BarWidth(j, currentIndex, progress) <= BarWidth(i, currentIndex, progress) <= 100
  {
  }

  class StoryViewer {
    const stories: seq<Story>
    var currentIndex: nat
    var progress: int
    /** Set once the viewer has asked its owner to close it (`onClose`). */
    var closed: bool

    /** The position stays on a story; progress is an even percentage from 0 to 100. */
    predicate Valid()
      reads this
    {
      && currentIndex < |stories|
      && 0 <= progress <= 100
      && progress % 2 == 0
    }

    /** The source reads `stories[currentIndex]` at once, so it needs at least one story. */
    constructor (stories: seq<Story>, initialStoryId: string)
      requires |stories| > 0
      ensures Valid() && this.stories == stories
      ensures currentIndex == StartIndex(stories, initialStoryId) && progress == 0 && !closed
    {
      this.stories := stories;
      currentIndex := StartIndex(stories, initialStoryId);
      progress := 0;
      closed := false;
    }

    /** `handleNext`: on to the next story with progress restarted, or close on the last one. */
    method Next()
      requires Valid()
      modifies this
      ensures Valid()
      ensures old(currentIndex) < |stories| - 1 ==>
        currentIndex == old(currentIndex) + 1 && progress == 0 && closed == old(closed)
      ensures old(currentIndex) == |stories| - 1 ==>
        currentIndex == old(currentIndex) && progress == old(progress) && closed
    {
      if currentIndex < |stories| - 1 {
        currentIndex := currentIndex + 1;
        progress := 0;
      } else {
        closed := true;
      }
    }

    /** `handlePrev`: back one story with progress restarted; on the first story nothing happens. */
    method Prev()
      requires Valid()
      modifies this
      ensures Valid()
      ensures old(currentIndex) > 0 ==>
        currentIndex == old(currentIndex) - 1 && progress == 0 && closed == old(closed)
      ensures old(currentIndex) == 0 ==>
        currentIndex == 0 && progress == old(progress) && closed == old(closed)
    {
      if currentIndex > 0 {
        currentIndex := currentIndex - 1;
        progress := 0;
      }
    }

    /** One timer tick: a full bar moves on (as `handleNext`) and restarts at 0; otherwise progress grows by 2. */
    method Tick()
      requires Valid()
      modifies this
      ensures Valid()
      ensures old(progress) >= 100 ==> progress == 0
      ensures old(progress) >= 100 && old(currentIndex) < |stories| - 1 ==>
        currentIndex == old(currentIndex) + 1 && closed == old(closed)
      ensures old(progress) >= 100 && old(currentIndex) == |stories| - 1 ==>
        currentIndex == old(currentIndex) && closed
      ensures old(progress) < 100 ==>
        progress == old(progress) + 2 && currentIndex == old(currentIndex) && closed == old(closed)
    {
      if progress >= 100 {
        Next();
        progress := 0;
      } else {
        progress := progress + 2;
      }
    }

    /** The width of the bar at position `idx`, within [0, 100]. */
    function Width(idx: nat): (w: int)
      reads this
      requires Valid()
      ensures 0 <= w <= 100
      ensures idx < currentIndex ==> w == 100
      ensures idx == currentIndex ==> w == progress
      ensures idx > currentIndex ==> w == 0
    {
      BarWidth(idx, currentIndex, progress)
    }
  }
}
