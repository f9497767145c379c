/**
 * The iTunes-style player: eight demo tracks, next and previous with wrap-around, track
 * selection, play/pause, the `m:ss` time labels, and a window dragged by its title bar
 * with no maximize state and no resize.
 */
module ITunesPlayer {
  import opened Optional
  import opened JsString
  import opened Storage
  import opened WindowGeometry
  import opened JsArray

  datatype Track = Track(id: int, title: string, artist: string, album: string,
                         duration: string, durationSeconds: int)

  /** The player's playlist. */
  const DemoTracks: seq<Track> := [
    Track(1, "Late Night Drive", "You", "Demos Vol. 1", "3:42", 222),
    Track(2, "Sunrise Memories", "You", "Demos Vol. 1", "4:15", 255),
    Track(3, "City Lights", "You", "Demos Vol. 1", "3:58", 238),
    Track(4, "Echoes", "You", "Demos Vol. 1", "5:02", 302),
    Track(5, "Fading Away", "You", "Demos Vol. 1", "4:30", 270),
    Track(6, "New Beginnings", "You", "Demos Vol. 2", "3:22", 202),
    Track(7, "Daydream", "You", "Demos Vol. 2", "4:45", 285),
    Track(8, "Midnight Blues", "You", "Demos Vol. 2", "5:18", 318)
  ]

  /** The size the player is centred with when it opens. */
  const PlayerSize: Size := Size(800.0, 520.0)

  function TrackId(t: Track): int {
    t.id
  }

  /** `tracks.findIndex(t => t.id === id)`: the index of the first track with the id, or -1. */
  function TrackIndex(tracks: seq<Track>, id: int): (r: int)
    ensures -1 <= r < |tracks|
    ensures r == -1 <==> forall i :: 0 <= i < |tracks| ==> tracks[i].id != id
    ensures r != -1 ==> tracks[r].id == id && forall i :: 0 <= i < r ==> tracks[i].id != id
  {
    FindIndexBy(tracks, TrackId, id)
  }

  /** Each demo track is found at its own index: the ids are 1 to 8 in order. */
  lemma DemoTrackIndex(k: int)
    requires 0 <= k < |DemoTracks|
    ensures TrackIndex(DemoTracks, DemoTracks[k].id) == k
  {
    assert forall i :: 0 <= i < |DemoTracks| ==> DemoTracks[i].id == i + 1;
  }

  /** `handleNext`'s index: one past the current index, wrapping from the last track to the
      first; a track that is not found (index -1) gives the first. */
  function NextIndex(currentIndex: int, count: nat): (r: int)
    requires count > 0 && -1 <= currentIndex < count
    ensures 0 <= r < count
    ensures currentIndex == count - 1 ==> r == 0
    ensures currentIndex < count - 1 ==> r == currentIndex + 1
  {
    (currentIndex + 1) % count
  }

  /** `handlePrev`'s index: one before the current index, wrapping from the first track to
      the last; a track that is not found (index -1) gives -2, which names no track. */
  function PrevIndex(currentIndex: int, count: nat): (r: int)
    requires count > 0 && -1 <= currentIndex < count
    ensures 0 <= currentIndex ==> 0 <= r < count
    ensures currentIndex == 0 ==> r == count - 1
    ensures currentIndex != 0 ==> r == currentIndex - 1
  {
    if currentIndex == 0 then count - 1 else currentIndex - 1
  }

  /** Previous undoes next, and next undoes previous, on every index of the list. */
  lemma NextPrevInverse(i: int, count: nat)
    requires count > 0 && 0 <= i < count
    ensures PrevIndex(NextIndex(i, count), count) == i
    ensures NextIndex(PrevIndex(i, count), count) == i
  {
  }

  /** A track whose label is its minute count, a colon and the two digits of its seconds
      below 60 is labelled with its formatted length. */
  lemma LabelledTrack(t: Track, mins: nat, secs: nat)
    requires secs < 60 && t.durationSeconds == 60 * mins + secs
    requires t.duration == NatToString(mins) + ":" + [DigitChar(secs / 10), DigitChar(secs % 10)]
    ensures t.duration == FormatDuration(t.durationSeconds)
  {
    FormatDurationDigits(t.durationSeconds, mins, secs);
  }

  /** Every demo track's duration label is `formatTime` of its length in seconds
      (`formatTime` is the same code as `formatDuration`). */
  lemma DemoDurationsFormatted(k: int)
    requires 0 <= k < |DemoTracks|
    ensures DemoTracks[k].duration == FormatDuration(DemoTracks[k].durationSeconds)
  {
    if k == 0 {
      LabelledTrack(DemoTracks[k], 3, 42);
    } else if k == 1 {
      LabelledTrack(DemoTracks[k], 4, 15);
    } else if k == 2 {
      LabelledTrack(DemoTracks[k], 3, 58);
    } else if k == 3 {
      LabelledTrack(DemoTracks[k], 5, 2);
    } else if k == 4 {
      LabelledTrack(DemoTracks[k], 4, 30);
    } else if k == 5 {
      LabelledTrack(DemoTracks[k], 3, 22);
    } else if k == 6 {
      LabelledTrack(DemoTracks[k], 4, 45);
    } else {
      LabelledTrack(DemoTracks[k], 5, 18);
    }
  }

  /** Every demo track lasts at least a second. */
  lemma DemoDurationsPositive()
    ensures forall t :: t in DemoTracks ==> t.durationSeconds > 0
  {
  }

  /** The percentage of a track of `seconds` seconds that one second of playback is: a
      positive share, and a whole track's worth after `seconds` of them. */
  function SecondShare(seconds: int): (r: real)
    requires seconds > 0
    ensures r > 0.0 && r * seconds as real == 100.0
  {
    100.0 / seconds as real
  }

  /** The player: the open flag its parent keeps, playback state and window position. */
  class Player {
    var isOpen: bool
    var isPlaying: bool
    var currentTrack: Track
    var progress: real
    var volume: int
    var isClosing: bool
    var position: Point
    var isDragging: bool
    var dragOffset: Point

    /** The current track is one of the playlist's. */
    ghost predicate Valid()
      reads this
    {
      currentTrack in DemoTracks
    }

    /** The state the player is mounted in: closed, paused on the first track. */
    constructor ()
      ensures Valid()
      ensures !isOpen && !isPlaying && currentTrack == DemoTracks[0] && progress == 0.0
      ensures volume == 70 && !isClosing && !isDragging
      ensures position == Point(0.0, 0.0) && dragOffset == Point(0.0, 0.0)
    {
      isOpen, isPlaying, currentTrack, progress := false, false, DemoTracks[0], 0.0;
      volume, isClosing := 70, false;
      position, isDragging, dragOffset := Point(0.0, 0.0), false, Point(0.0, 0.0);
    }

    /** What is drawn: nothing while closed, else the player at its position. */
    function Rendered(): (r: Option<Point>)
      reads this
      ensures r.None? <==> !isOpen
      ensures r.Some? ==> r.value == position
    {
      if !isOpen then None else Some(position)
    }

    /** The dock opens the player; the open effect, which runs when the open flag changes,
        centres an 800×520 window. Opening an open player changes nothing. */
    method Open(viewport: Size)
      modifies this`isOpen, this`position
      ensures isOpen
      ensures !old(isOpen) ==> position == Centred(viewport, PlayerSize, Point(0.0, 0.0))
      ensures old(isOpen) ==> position == old(position)
    {
      if !isOpen {
        isOpen := true;
        position := Centred(viewport, PlayerSize, Point(0.0, 0.0));
      }
    }

    /** `handlePlayPause`: flips playing and paused, and nothing else. */
    method PlayPause()
      modifies this`isPlaying
      ensures isPlaying == !old(isPlaying)
    {
      isPlaying := !isPlaying;
    }

    /** `handleNext`: the track after the current one, wrapping to the first, from the
        start. */
    method Next()
      requires Valid()
      modifies this`currentTrack, this`progress
      ensures Valid()
      ensures currentTrack == DemoTracks[NextIndex(TrackIndex(DemoTracks, old(currentTrack).id), |DemoTracks|)]
      ensures progress == 0.0
    {
      var currentIndex := TrackIndex(DemoTracks, currentTrack.id);
      var nextIndex := (currentIndex + 1) % |DemoTracks|;
      currentTrack := DemoTracks[nextIndex];
      progress := 0.0;
    }

    /** `handlePrev`: the track before the current one, wrapping to the last, from the
        start. */
    method Prev()
      requires Valid()
      modifies this`currentTrack, this`progress
      ensures Valid()
      ensures currentTrack == DemoTracks[PrevIndex(TrackIndex(DemoTracks, old(currentTrack).id), |DemoTracks|)]
      ensures progress == 0.0
    {
      var currentIndex := TrackIndex(DemoTracks, currentTrack.id);
      var prevIndex := if currentIndex == 0 then |DemoTracks| - 1 else currentIndex - 1;
      currentTrack := DemoTracks[prevIndex];
      progress := 0.0;
    }

    /** One second of the playback interval, which exists only while playing: a track at
        or past 100% moves on to the next track from the start, any other advances by the
        share of the track one second is. Paused, nothing changes. */
    method Tick()
      requires Valid()
      modifies this`currentTrack, this`progress
      ensures Valid()
      ensures !isPlaying ==> currentTrack == old(currentTrack) && progress == old(progress)
      ensures isPlaying && old(progress) >= 100.0 ==>
        currentTrack == DemoTracks[NextIndex(TrackIndex(DemoTracks, old(currentTrack).id), |DemoTracks|)] &&
        progress == 0.0
      ensures isPlaying && old(progress) < 100.0 ==>
        currentTrack == old(currentTrack) &&
        progress == old(progress) + SecondShare(currentTrack.durationSeconds)
    {
      if isPlaying {
        if progress >= 100.0 {
          Next();
        } else {
          DemoDurationsPositive();
          progress := progress + SecondShare(currentTrack.durationSeconds);
        }
      }
    }

    /** `handleTrackSelect` for a track clicked in the playlist: it becomes current and
        plays from the start. */
    method SelectTrack(track: Track)
      requires track in DemoTracks
      modifies this`currentTrack, this`progress, this`isPlaying
      ensures Valid()
      ensures currentTrack == track && progress == 0.0 && isPlaying
    {
      currentTrack := track;
      progress := 0.0;
      isPlaying := true;
    }

    /** `handleMouseDown` on the title bar of the drawn player: record the pointer's
        offset from its corner and start dragging. There is no maximize guard. */
    method MouseDown(pointer: Point, rect: Rect)
      modifies this`dragOffset, this`isDragging
      ensures isOpen ==> dragOffset == Point(pointer.x - rect.left, pointer.y - rect.top) && isDragging
      ensures !isOpen ==> dragOffset == old(dragOffset) && isDragging == old(isDragging)
    {
      if isOpen {
        dragOffset := Point(pointer.x - rect.left, pointer.y - rect.top);
        isDragging := true;
      }
    }

    /** `handleMouseMove`: while dragging, the corner follows the pointer at the recorded
        offset. */
    method MouseMove(pointer: Point)
      modifies this`position
      ensures isDragging ==> position == Point(pointer.x - dragOffset.x, pointer.y - dragOffset.y)
      ensures !isDragging ==> position == old(position)
    {
      if isDragging {
        position := Point(pointer.x - dragOffset.x, pointer.y - dragOffset.y);
      }
    }

    /** `handleMouseUp`: ends the drag. */
    method MouseUp()
      modifies this`isDragging
      ensures !isDragging
    {
      isDragging := false;
    }

    /** `handleClose`, first half: start the closing animation. */
    method BeginClose()
      modifies this`isClosing
      ensures isClosing
    {
      isClosing := true;
    }

    /** `handleClose`, second half: clear the closing flag and call `onClose`, whose
        handler in the page clears the open flag. */
    method FinishClose()
      modifies this`isClosing, this`isOpen
      ensures !isClosing && !isOpen && Rendered() == None
    {
      isClosing := false;
      isOpen := false;
    }
  }

  /** Next then previous comes back to the same track. */
  method NextThenPrev(p: Player)
    requires p.Valid()
    modifies p
    ensures p.Valid() && p.currentTrack == old(p.currentTrack) && p.progress == 0.0
  {
    var k :| 0 <= k < |DemoTracks| && DemoTracks[k] == p.currentTrack;
    DemoTrackIndex(k);
    p.Next();
    DemoTrackIndex(NextIndex(k, |DemoTracks|));
    p.Prev();
    NextPrevInverse(k, |DemoTracks|);
  }

  /** Previous then next comes back to the same track. */
  method PrevThenNext(p: Player)
    requires p.Valid()
    modifies p
    ensures p.Valid() && p.currentTrack == old(p.currentTrack) && p.progress == 0.0
  {
    var k :| 0 <= k < |DemoTracks| && DemoTracks[k] == p.currentTrack;
    DemoTrackIndex(k);
    p.Prev();
    DemoTrackIndex(PrevIndex(k, |DemoTracks|));
    p.Next();
    NextPrevInverse(k, |DemoTracks|);
  }

  /** Playlist steps from a fresh player: previous from the first track wraps to "Midnight
      Blues", next from there wraps back to "Late Night Drive", and selecting "Echoes"
      plays it. */
  method PlaylistSession() returns (wrapped: string, back: string, selected: string, playing: bool)
    ensures wrapped == "Midnight Blues" && back == "Late Night Drive"
    ensures selected == "Echoes" && playing
  {
    var p := new Player();
    DemoTrackIndex(0);
    p.Prev();
    wrapped := p.currentTrack.title;
    DemoTrackIndex(7);
    p.Next();
    back := p.currentTrack.title;
    p.SelectTrack(DemoTracks[3]);
    selected := p.currentTrack.title;
    playing := p.isPlaying;
  }

  /** Window steps: the player opens centred at (560, 280) in a 1920×1080 viewport, a drag
      moves it with the pointer, and once closed nothing is drawn. */
  method WindowSession() returns (centred: Point, dragged: Point, afterClose: Option<Point>)
    ensures centred == Point(560.0, 280.0)
    ensures dragged == Point(660.0, 330.0)
    ensures afterClose == None
  {
    var p := new Player();
    p.Open(Size(1920.0, 1080.0));
    centred := p.position;
    p.MouseDown(Point(600.0, 290.0), Rect(560.0, 280.0, 800.0, 520.0));
    p.MouseMove(Point(700.0, 340.0));
    p.MouseUp();
    dragged := p.position;
    p.BeginClose();
    p.FinishClose();
    afterClose := p.Rendered();
  }

}
