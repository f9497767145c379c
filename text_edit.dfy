/**
 * The TextEdit window: the shared window controller with at least 600×400 and 800×600 by
 * default, and the notes list it edits. A save updates the current note in place, puts a
 * deleted current note back, or appends a new one; a blank editor saves nothing, and every
 * stored title is non-blank. The clock readings (`Date.now()` and ISO timestamps) and the
 * answer to the delete confirmation are parameters.
 */
module TextEdit {
  import opened Optional
  import opened JsString
  import opened WindowGeometry
  import opened JsArray

  const MinWidth: real := 600.0
  const MinHeight: real := 400.0
  const DefaultSize: Size := Size(800.0, 600.0)
  const CentreOffset: Point := Point(0.0, 0.0)

  datatype Note = Note(id: string, title: string, content: string, createdAt: string, updatedAt: string)

  /** The timestamp of both fixture notes. */
  const FixtureDate: string := "2025-12-07T00:00:00.000Z"

  /** The notes the editor starts with. */
  const InitialNotes: seq<Note> := [
    Note("where-have-i-been", "Where Have I Been ?",
         "I took some time to really develop my skills and work on executing on a bigger level.\n\nI was so sick of the rat race that I was running on instagram, and tiktok, and etc\n\nSo being able to make stuff like this where I can just post my ideas, demos, and be in touch with other like minded people has been helping\n\nMy next album is gonna be 100% produced by myself but until then here are some new demos and ideas I've been working on.\n\nBest,\n\nKaleab Samuel\n\n12/07/2025",
         FixtureDate, FixtureDate),
    Note("admin-notes", "Admin Notes",
         "This is prelaunch version 0.1 of the website it doesnt even have a name yet but new updates will be taking place.\n\nFor now thanks for visiting the website",
         FixtureDate, FixtureDate)
  ]

  const Untitled: string := "Untitled"

  /** Every stored note has a non-blank title. */
  ghost predicate TitlesStored(notes: seq<Note>) {
    forall n :: n in notes ==> !IsBlank(n.title)
  }

  /** The title a save stores: the trimmed title, or "Untitled" when that is empty. */
  function StoredTitle(title: string): string {
    if Trim(title) == [] then Untitled else Trim(title)
  }

  /** A stored title is never blank and is already trimmed; it is "Untitled" exactly for
      a blank title and the trimmed title otherwise. */
  lemma StoredTitleShape(title: string)
    ensures var r := StoredTitle(title);
      && !IsBlank(r) && Trim(r) == r
      && (IsBlank(title) ==> r == Untitled)
      && (!IsBlank(title) ==> r == Trim(title))
  {
    TrimEmptyIffBlank(title);
    if Trim(title) == [] {
      assert !IsWhiteSpace(Untitled[0]);
      TrimOfTrimmed(Untitled);
    } else {
      TrimIdempotent(title);
      TrimEmptyIffBlank(Trim(title));
    }
  }

  function NoteId(n: Note): string {
    n.id
  }

  /** `notes.findIndex(n => n.id === id)`: the index of the first note with the id, or -1
      when there is none. */
  function FindIndex(notes: seq<Note>, id: string): (r: int)
    ensures -1 <= r < |notes|
    ensures r == -1 <==> forall i :: 0 <= i < |notes| ==> notes[i].id != id
    ensures r != -1 ==> notes[r].id == id && forall i :: 0 <= i < r ==> notes[i].id != id
  {
    FindIndexBy(notes, NoteId, id)
  }

  /** `notes.filter(n => n.id !== id)`: the notes whose id differs, in their order. */
  function WithoutId(notes: seq<Note>, id: string): (r: seq<Note>)
    ensures |r| <= |notes|
    ensures forall n :: n in r <==> n in notes && n.id != id
  {
    if notes == [] then []
    else if notes[0].id == id then WithoutId(notes[1..], id)
    else [notes[0]] + WithoutId(notes[1..], id)
  }

  /** Filtering keeps the order of what it keeps: filtering a list cut in two is filtering
      each part. */
  lemma {:induction false} WithoutIdAppend(a: seq<Note>, b: seq<Note>, id: string)
    ensures WithoutId(a + b, id) == WithoutId(a, id) + WithoutId(b, id)
  {
    if a != [] {
      assert (a + b)[0] == a[0];
      assert (a + b)[1..] == a[1..] + b;
      WithoutIdAppend(a[1..], b, id);
      if a[0].id != id {
        calc {
          WithoutId(a + b, id);
          [a[0]] + WithoutId(a[1..] + b, id);
          [a[0]] + (WithoutId(a[1..], id) + WithoutId(b, id));
          ([a[0]] + WithoutId(a[1..], id)) + WithoutId(b, id);
          WithoutId(a, id) + WithoutId(b, id);
        }
      }
    } else {
      assert a + b == b;
    }
  }

  /** Filtering out an id no note has changes nothing. */
  lemma {:induction false} WithoutAbsentId(notes: seq<Note>, id: string)
    requires FindIndex(notes, id) == -1
    ensures WithoutId(notes, id) == notes
  {
    if notes != [] {
      assert FindIndex(notes[1..], id) == -1;
      WithoutAbsentId(notes[1..], id);
    }
  }

  /** `!title.trim() && !content.trim()`: the editor holds nothing worth saving. */
  predicate Blank(title: string, content: string) {
    Trim(title) == [] && Trim(content) == []
  }

  /** The notes list and current note after a save. */
  datatype Saved = Saved(notes: seq<Note>, current: Option<Note>)

  /** A stored note with the editor's title and content written over it at time `now`;
      its id and creation time are kept. */
  function Rewritten(n: Note, title: string, content: string, now: string): Note {
    n.(title := StoredTitle(title), content := content, updatedAt := now)
  }

  /** What `handleSave` leaves behind, for the editor's notes, current note, title and
      content, with `now` the ISO time and `clockId` the `Date.now()` text it reads. */
  function SaveResult(notes: seq<Note>, current: Option<Note>, title: string, content: string,
                      now: string, clockId: string): Saved
  {
    if Blank(title, content) then
      Saved(notes, current)
    else
      match current
      case Some(note) =>
        var i := FindIndex(notes, note.id);
        if i != -1 then
          Saved(notes[i := Rewritten(notes[i], title, content, now)], current)
        else
          var createdAt := if note.createdAt == [] then now else note.createdAt;
          Saved(notes + [Note(note.id, StoredTitle(title), content, createdAt, now)], current)
      case None =>
        var added := Note(clockId, StoredTitle(title), content, now, now);
        Saved(notes + [added], Some(added))
  }

  /** A blank editor (title and content both white space) saves nothing. */
  lemma SaveBlank(notes: seq<Note>, current: Option<Note>, title: string, content: string,
                  now: string, clockId: string)
    requires IsBlank(title) && IsBlank(content)
    ensures SaveResult(notes, current, title, content, now, clockId) == Saved(notes, current)
  {
    TrimEmptyIffBlank(title);
    TrimEmptyIffBlank(content);
  }

  /** Saving a note that is in the list rewrites only its entry: the list keeps its length
      and every other entry, the entry keeps its id and creation time and takes the stored
      title, the content and `now`; the current note stays. */
  lemma SaveUpdatesInPlace(notes: seq<Note>, current: Option<Note>, title: string, content: string,
                           now: string, clockId: string)
    requires !(IsBlank(title) && IsBlank(content))
    requires current.Some? && FindIndex(notes, current.value.id) != -1
    ensures var r := SaveResult(notes, current, title, content, now, clockId);
            var i := FindIndex(notes, current.value.id);
            && r.current == current
            && |r.notes| == |notes|
            && (forall j :: 0 <= j < |notes| && j != i ==> r.notes[j] == notes[j])
            && r.notes[i].id == notes[i].id == current.value.id
            && r.notes[i].createdAt == notes[i].createdAt
            && r.notes[i].title == StoredTitle(title) && r.notes[i].content == content
            && r.notes[i].updatedAt == now
  {
    TrimEmptyIffBlank(title);
    TrimEmptyIffBlank(content);
  }

  /** Saving a current note that is no longer in the list (it was deleted) appends it again
      with its id, the stored title, the content and its creation time (or `now` when it
      has none); the current note stays. */
  lemma SaveRestoresDeleted(notes: seq<Note>, current: Option<Note>, title: string, content: string,
                            now: string, clockId: string)
    requires !(IsBlank(title) && IsBlank(content))
    requires current.Some? && FindIndex(notes, current.value.id) == -1
    ensures var r := SaveResult(notes, current, title, content, now, clockId);
            && r.current == current
            && |r.notes| == |notes| + 1 && r.notes[..|notes|] == notes
            && r.notes[|notes|].id == current.value.id
            && r.notes[|notes|].createdAt == (if current.value.createdAt == [] then now else current.value.createdAt)
            && r.notes[|notes|].title == StoredTitle(title) && r.notes[|notes|].content == content
            && r.notes[|notes|].updatedAt == now
  {
    TrimEmptyIffBlank(title);
    TrimEmptyIffBlank(content);
    var r := SaveResult(notes, current, title, content, now, clockId);
    assert r.notes[..|notes|] == notes;
  }

  /** Saving with no current note appends a note with the clock text as its id, created
      and updated `now`, and makes it the current note. */
  lemma SaveAppendsNew(notes: seq<Note>, title: string, content: string, now: string, clockId: string)
    requires !(IsBlank(title) && IsBlank(content))
    ensures var r := SaveResult(notes, None, title, content, now, clockId);
            && |r.notes| == |notes| + 1 && r.notes[..|notes|] == notes
            && r.notes[|notes|] == Note(clockId, StoredTitle(title), content, now, now)
            && r.current == Some(r.notes[|notes|])
  {
    TrimEmptyIffBlank(title);
    TrimEmptyIffBlank(content);
    var r := SaveResult(notes, None, title, content, now, clockId);
    assert r.notes[..|notes|] == notes;
  }

  /** Writing a note with a non-blank title over an entry keeps every title non-blank. */
  lemma ReplaceKeepsTitlesStored(notes: seq<Note>, i: int, n: Note)
    requires TitlesStored(notes) && 0 <= i < |notes| && !IsBlank(n.title)
    ensures TitlesStored(notes[i := n])
  {
    forall m | m in notes[i := n]
      ensures !IsBlank(m.title)
    {
      var j :| 0 <= j < |notes| && notes[i := n][j] == m;
      if j != i {
        assert m in notes;
      }
    }
  }

  /** A save keeps every stored title non-blank. */
  lemma SaveKeepsTitlesStored(notes: seq<Note>, current: Option<Note>, title: string, content: string,
                              now: string, clockId: string)
    requires TitlesStored(notes)
    ensures TitlesStored(SaveResult(notes, current, title, content, now, clockId).notes)
  {
    StoredTitleShape(title);
    if !Blank(title, content) && current.Some? {
      var i := FindIndex(notes, current.value.id);
      if i != -1 {
        ReplaceKeepsTitlesStored(notes, i, Rewritten(notes[i], title, content, now));
      }
    }
  }

  /** Two lists with the same ids at the same indices have the same first index for every id. */
  lemma FindIndexSameIds(a: seq<Note>, b: seq<Note>, id: string)
    requires |a| == |b| && forall j :: 0 <= j < |a| ==> a[j].id == b[j].id
    ensures FindIndex(a, id) == FindIndex(b, id)
  {
    var k := FindIndex(a, id);
    if k == -1 {
      assert forall j :: 0 <= j < |b| ==> b[j].id != id by {
        forall j | 0 <= j < |b|
          ensures b[j].id != id
        {
          assert a[j].id != id;
        }
      }
    } else {
      assert b[k].id == id;
      assert forall j :: 0 <= j < k ==> b[j].id != id by {
        forall j | 0 <= j < k
          ensures b[j].id != id
        {
          assert a[j].id != id;
        }
      }
    }
  }

  /** In a list whose first `|notes|` entries have no note with the id, followed by one
      that has it, the first index of the id is `|notes|`. */
  lemma FindIndexAppended(notes: seq<Note>, n: Note)
    requires FindIndex(notes, n.id) == -1
    ensures FindIndex(notes + [n], n.id) == |notes|
  {
    var all := notes + [n];
    assert all[|notes|].id == n.id;
    assert forall j :: 0 <= j < |notes| ==> all[j].id != n.id by {
      forall j | 0 <= j < |notes|
        ensures all[j].id != n.id
      {
        assert all[j] == notes[j];
      }
    }
  }

  /** A save that rewrote the entry at `i` finds the same entry again, and writing the same
      title and content over it at a `later` time changes only its update time. */
  lemma ResaveRewritten(notes: seq<Note>, i: int, title: string, content: string, now: string, later: string)
    requires 0 <= i < |notes| && FindIndex(notes, notes[i].id) == i
    ensures var saved := notes[i := Rewritten(notes[i], title, content, now)];
            FindIndex(saved, notes[i].id) == i &&
            saved[i := Rewritten(saved[i], title, content, later)] == saved[i := saved[i].(updatedAt := later)]
  {
    var saved := notes[i := Rewritten(notes[i], title, content, now)];
    FindIndexSameIds(saved, notes, notes[i].id);
  }

  /** A save that appended `n` finds it at the end, and writing the same title and content
      over it at a `later` time changes only its update time. */
  lemma ResaveAppended(notes: seq<Note>, n: Note, title: string, content: string, later: string)
    requires FindIndex(notes, n.id) == -1
    requires n.title == StoredTitle(title) && n.content == content
    ensures FindIndex(notes + [n], n.id) == |notes|
    ensures (notes + [n])[|notes| := Rewritten(n, title, content, later)]
            == (notes + [n])[|notes| := n.(updatedAt := later)]
  {
    FindIndexAppended(notes, n);
  }

  /** Saving again with nothing edited in between, as the blur saves of the title and the
      content do, duplicates no note and keeps the current note: it finds the note the first
      save stored and only moves that note's update time to the second save's clock text
      `later`; every other note, every id, title and content stays. With the same clock text
      the second save changes nothing. This holds provided the clock text of a first save
      with no current note names no note already stored. */
  lemma SaveTwice(notes: seq<Note>, current: Option<Note>, title: string, content: string,
                  now: string, clockId: string, later: string, laterClockId: string)
    requires current.None? ==> FindIndex(notes, clockId) == -1
    ensures var r := SaveResult(notes, current, title, content, now, clockId);
            var r2 := SaveResult(r.notes, r.current, title, content, later, laterClockId);
            && r2.current == r.current
            && (Blank(title, content) ==> r2.notes == r.notes)
            && (!Blank(title, content) ==>
                  r.current.Some? &&
                  var i := FindIndex(r.notes, r.current.value.id);
                  0 <= i < |r.notes| && r2.notes == r.notes[i := r.notes[i].(updatedAt := later)])
            && (later == now ==> r2 == r)
  {
    var r := SaveResult(notes, current, title, content, now, clockId);
    if !Blank(title, content) {
      match current
      case Some(note) =>
        var i := FindIndex(notes, note.id);
        if i != -1 {
          var saved := notes[i := Rewritten(notes[i], title, content, now)];
          assert r == Saved(saved, current);
          ResaveRewritten(notes, i, title, content, now, later);
          assert SaveResult(saved, current, title, content, later, laterClockId)
              == Saved(saved[i := Rewritten(saved[i], title, content, later)], current);
          assert saved[i].updatedAt == now;
        } else {
          var createdAt := if note.createdAt == [] then now else note.createdAt;
          var n := Note(note.id, StoredTitle(title), content, createdAt, now);
          assert r == Saved(notes + [n], current);
          ResaveAppended(notes, n, title, content, later);
          assert SaveResult(notes + [n], current, title, content, later, laterClockId)
              == Saved((notes + [n])[|notes| := Rewritten(n, title, content, later)], current);
        }
      case None =>
        var n := Note(clockId, StoredTitle(title), content, now, now);
        assert r == Saved(notes + [n], Some(n));
        ResaveAppended(notes, n, title, content, later);
        assert SaveResult(notes + [n], Some(n), title, content, later, laterClockId)
            == Saved((notes + [n])[|notes| := Rewritten(n, title, content, later)], Some(n));
    }
  }

  /** Appending a note with another id does not make an absent id present. */
  lemma FindIndexAppendedOther(notes: seq<Note>, n: Note, id: string)
    requires FindIndex(notes, id) == -1 && n.id != id
    ensures FindIndex(notes + [n], id) == -1
  {
    var all := notes + [n];
    forall j | 0 <= j < |all|
      ensures all[j].id != id
    {
      if j < |notes| {
        assert all[j] == notes[j];
      }
    }
  }

  /** The note a new-note action opens is not yet in the list, when its clock text differs
      from the one the preceding save used and from every stored or current id. */
  lemma NewNoteNotYetStored(notes: seq<Note>, current: Option<Note>, title: string, content: string,
                            now: string, saveClockId: string, newClockId: string)
    requires newClockId != saveClockId && FindIndex(notes, newClockId) == -1
    requires current.Some? ==> current.value.id != newClockId
    ensures FindIndex(SaveResult(notes, current, title, content, now, saveClockId).notes, newClockId) == -1
  {
    if !Blank(title, content) {
      match current
      case Some(note) =>
        var i := FindIndex(notes, note.id);
        if i != -1 {
          FindIndexSameIds(notes[i := Rewritten(notes[i], title, content, now)], notes, newClockId);
        } else {
          var createdAt := if note.createdAt == [] then now else note.createdAt;
          FindIndexAppendedOther(notes, Note(note.id, StoredTitle(title), content, createdAt, now), newClockId);
        }
      case None =>
        FindIndexAppendedOther(notes, Note(saveClockId, StoredTitle(title), content, now, now), newClockId);
    }
  }

  /** Both fixture notes have a non-blank title. */
  lemma InitialTitlesStored()
    ensures TitlesStored(InitialNotes)
  {
    assert !IsWhiteSpace(InitialNotes[0].title[0]) && !IsWhiteSpace(InitialNotes[1].title[0]);
  }

  /** Whether a click, given as the tag names from its target up to the window, raises the
      window: not on a button, input, link or text area. */
  function ClickRaises(ancestry: seq<string>): (r: bool)
    requires |ancestry| > 0
    ensures r <==> "BUTTON" !in ancestry && "INPUT" !in ancestry && "A" !in ancestry && "TEXTAREA" !in ancestry
  {
    RaisesFocus(ancestry, ControlTags + {"TEXTAREA"})
  }

  /** The editor: its window, the notes list, the note being edited (if any) and the title
      and content fields. */
  class TextEditor {
    const window: FloatingWindow
    var notes: seq<Note>
    var currentNote: Option<Note>
    var title: string
    var content: string

    ghost predicate Valid()
      reads this, window
    {
      window.Valid() && TitlesStored(notes)
    }

    constructor ()
      ensures Valid() && fresh(window) && window.Mounted()
      ensures window.minWidth == MinWidth && window.minHeight == MinHeight
      ensures window.defaultSize == DefaultSize && window.centreOffset == CentreOffset
      ensures notes == InitialNotes && currentNote == None && title == [] && content == []
    {
      window := new FloatingWindow(MinWidth, MinHeight, DefaultSize, CentreOffset);
      notes := InitialNotes;
      currentNote := None;
      title := [];
      content := [];
      InitialTitlesStored();
    }

    /** The parent opens the editor. The window opens as every window does and, as the
        open flag changed, the load effect puts back the fixture notes, the only notes the
        no-op persistence ever returns. Opening an open editor changes nothing. */
    method Open(viewport: Size)
      requires Valid()
      modifies window`isOpen, window`position, this`notes
      ensures Valid() && window.isOpen
      ensures old(window.isOpen) ==> notes == old(notes) && window.position == old(window.position)
      ensures !old(window.isOpen) ==> notes == InitialNotes
      ensures !old(window.isOpen) && window.isMaximized ==> window.position == Point(0.0, 0.0)
      ensures !old(window.isOpen) && !window.isMaximized && window.HasSavedPosition() ==>
        window.position == window.savedPosition
      ensures !old(window.isOpen) && !window.isMaximized && !window.HasSavedPosition() && !window.isMinimized ==>
        window.position == Centred(viewport, window.savedSize, window.centreOffset)
    {
      if !window.isOpen {
        notes := InitialNotes;
        InitialTitlesStored();
      }
      window.Open(viewport);
    }

    /** The title field's `onChange`. */
    method EditTitle(value: string)
      modifies this`title
      ensures title == value
    {
      title := value;
    }

    /** The text area's `onChange`. */
    method EditContent(value: string)
      modifies this`content
      ensures content == value
    {
      content := value;
    }

    /** `handleSave`: copy the list, then write the current note at its index, put it back
        at the end, or append a fresh note that becomes current; nothing when both fields
        are blank. */
    method Save(now: string, clockId: string)
      requires Valid()
      modifies this`notes, this`currentNote
      ensures Valid()
      ensures notes == SaveResult(old(notes), old(currentNote), title, content, now, clockId).notes
      ensures currentNote == SaveResult(old(notes), old(currentNote), title, content, now, clockId).current
    {
      if Blank(title, content) {
        return;
      }
      var updated := notes;
      var current := currentNote;
      if current.Some? {
        var index := FindIndex(updated, current.value.id);
        if index != -1 {
          updated := updated[index := Rewritten(updated[index], title, content, now)];
        } else {
          var createdAt := if current.value.createdAt == [] then now else current.value.createdAt;
          updated := updated + [Note(current.value.id, StoredTitle(title), content, createdAt, now)];
        }
      } else if !Blank(title, content) {
        var newNote := Note(clockId, StoredTitle(title), content, now, now);
        updated := updated + [newNote];
        current := Some(newNote);
      }
      assert Saved(updated, current) == SaveResult(notes, currentNote, title, content, now, clockId);
      SaveKeepsTitlesStored(notes, currentNote, title, content, now, clockId);
      notes, currentNote := updated, current;
    }

    /** `handleDeleteNote`: when confirmed, drop every note with the id and, if it was the
        one being edited, clear the editor; when not confirmed, nothing. */
    method DeleteNote(id: string, confirmed: bool)
      requires Valid()
      modifies this`notes, this`currentNote, this`title, this`content
      ensures Valid()
      ensures notes == if confirmed then WithoutId(old(notes), id) else old(notes)
      ensures confirmed && old(currentNote).Some? && old(currentNote).value.id == id ==>
        currentNote == None && title == [] && content == []
      ensures !(confirmed && old(currentNote).Some? && old(currentNote).value.id == id) ==>
        currentNote == old(currentNote) && title == old(title) && content == old(content)
    {
      if confirmed {
        notes := WithoutId(notes, id);
        if currentNote.Some? && currentNote.value.id == id {
          currentNote := None;
          title := [];
          content := [];
        }
      }
    }

    /** `handleNewNote`: save, then edit a new untitled, empty note that is not yet stored.
        The save reads the ISO time `now` and the clock text `saveClockId`; the new note then
        takes the clock text `newClockId` as its id and the later ISO time `newNow` as its
        creation and update time. */
    method NewNote(now: string, saveClockId: string, newClockId: string, newNow: string)
      requires Valid()
      modifies this`notes, this`currentNote, this`title, this`content
      ensures Valid()
      ensures notes == SaveResult(old(notes), old(currentNote), old(title), old(content), now, saveClockId).notes
      ensures currentNote == Some(Note(newClockId, Untitled, [], newNow, newNow))
      ensures title == Untitled && content == []
    {
      Save(now, saveClockId);
      Edit(Note(newClockId, Untitled, [], newNow, newNow));
    }

    /** `handleSelectNote`: save, then edit the chosen note's title and content. */
    method SelectNote(note: Note, now: string, clockId: string)
      requires Valid()
      modifies this`notes, this`currentNote, this`title, this`content
      ensures Valid()
      ensures notes == SaveResult(old(notes), old(currentNote), old(title), old(content), now, clockId).notes
      ensures currentNote == Some(note) && title == note.title && content == note.content
    {
      Save(now, clockId);
      Edit(note);
    }

    /** Make `note` the note being edited, with its title and content in the fields. */
    method Edit(note: Note)
      modifies this`currentNote, this`title, this`content
      ensures currentNote == Some(note) && title == note.title && content == note.content
    {
      currentNote := Some(note);
      title := note.title;
      content := note.content;
    }

    /** `handleClose`, first half: save, then start the closing animation. */
    method BeginClose(now: string, clockId: string)
      requires Valid()
      modifies this`notes, this`currentNote, window`isClosing
      ensures Valid()
      ensures notes == SaveResult(old(notes), old(currentNote), title, content, now, clockId).notes
      ensures currentNote == SaveResult(old(notes), old(currentNote), title, content, now, clockId).current
      ensures window.isClosing
    {
      Save(now, clockId);
      window.BeginClose();
    }

    /** `handleClose`, second half: the window closes un-maximized and the editor is
        cleared; the notes list is kept. */
    method FinishClose()
      requires Valid()
      modifies this`currentNote, this`title, this`content, window`isClosing, window`isMaximized, window`isOpen
      ensures Valid()
      ensures !window.isClosing && !window.isMaximized && !window.isOpen
      ensures currentNote == None && title == [] && content == []
    {
      window.FinishClose();
      currentNote := None;
      title := [];
      content := [];
    }
  }

}
