/** The document session of the Bloc-notes editor (class `BlocNotes`).

    Every point where the editor asks the outside world something becomes an
    input: the answer to the yes/no/cancel prompt, the path picked in a file
    dialog (the empty string when the dialog is cancelled, as Tk reports it),
    the text read from the chosen file, and whether a write succeeded. Each
    command is a pure function from the session and those answers to the next
    session. */
module Notepad {
  import opened Strings
  import opened Paths

  datatype Option<T> = None | Some(value: T)

  /** Display name of a document that has no file yet. */
  const Untitled: string := "Sans titre"
  /** Everything the window title shows after the document name. */
  const TitleSuffix: string := " - Bloc-notes"

  /** The editor's state: the bound file, its display name, the unsaved-changes
      flag, the two view preferences, the text in the editing area and the
      window title last rendered. */
  datatype Session = Session(
    filepath: Option<string>,
    filename: string,
    dirty: bool,
    wrapEnabled: bool,
    statusVisible: bool,
    buffer: string,
    title: string)

  /** Reply to "Voulez-vous enregistrer les modifications ?":
      `askyesnocancel` answers True, False or None. */
  datatype Answer = Yes | No | Cancel

  /** What the outside world answers if a save has to happen: the path picked
      in the save-as dialog ("" = cancelled) and whether the write succeeds. */
  datatype SaveReplies = SaveReplies(savePath: string, writeOk: bool)

  /** A file successfully written: where and with what text. */
  datatype Written = Written(path: string, text: string)

  /** The result of a file command: the next session, the command's boolean
      verdict, and the file written along the way, if any. */
  datatype Outcome = Outcome(session: Session, ok: bool, written: Option<Written>)

  /** The window title for a given flag and name. */
  function RenderTitle(dirty: bool, filename: string): string {
    (if dirty then "*" else "") + filename + TitleSuffix
  }

  /** The two titles of an untitled document, spelled out. */
  lemma UntitledTitles()
    ensures RenderTitle(false, Untitled) == "Sans titre - Bloc-notes"
    ensures RenderTitle(true, Untitled) == "*Sans titre - Bloc-notes"
  {
  }

  /** A clean title is the name followed by the application suffix. */
  lemma CleanTitle(f: string)
    ensures RenderTitle(false, f) == f + " - Bloc-notes"
  {
    assert "" + f == f;
  }

  /** The title on screen agrees with the flag and the name. */
  predicate TitleSynced(s: Session) {
    s.title == RenderTitle(s.dirty, s.filename)
  }

  /** The display name is determined by the bound path; a bound path is never
      empty, since an empty dialog answer means "cancelled". */
  predicate NameMatchesPath(s: Session) {
    match s.filepath
    case None => s.filename == Untitled
    case Some(p) => p != "" && s.filename == Basename(p)
  }

  /** The invariant every reachable session satisfies. */
  predicate WellFormed(s: Session) {
    TitleSynced(s) && NameMatchesPath(s)
  }

  /** Only the view preferences may differ: the document part is the same. */
  predicate SameDocument(s: Session, t: Session) {
    s.filepath == t.filepath && s.filename == t.filename && s.dirty == t.dirty
    && s.buffer == t.buffer && s.title == t.title
  }

  /** The session right after start-up (`__init__`, then `_update_title`). */
  function Init(): (s: Session)
    ensures WellFormed(s)
    ensures s.filepath == None && s.filename == "Sans titre" && !s.dirty
    ensures s.wrapEnabled && s.statusVisible && s.buffer == ""
    ensures s.title == "Sans titre - Bloc-notes"
  {
    UntitledTitles();
    Session(None, Untitled, false, true, true, "", RenderTitle(false, Untitled))
  }

  /** `_update_title`: re-renders the title and touches nothing else. */
  function UpdateTitle(s: Session): (r: Session)
    ensures TitleSynced(r)
    ensures r.(title := s.title) == s
  {
    s.(title := RenderTitle(s.dirty, s.filename))
  }

  /** `_set_dirty`: sets the flag, then re-renders the title. */
  function SetDirty(s: Session, dirty: bool): (r: Session)
    ensures r.dirty == dirty && TitleSynced(r)
    ensures r.title == (if dirty then "*" else "") + s.filename + " - Bloc-notes"
    ensures r.(dirty := s.dirty, title := s.title) == s
  {
    UpdateTitle(s.(dirty := dirty))
  }

  /** A user edit of the text: the new content is in the buffer and the
      `<<Modified>>` handler has called `_set_dirty(True)`. */
  function Edit(s: Session, text: string): (r: Session)
    ensures r.buffer == text && r.dirty && TitleSynced(r)
    ensures r.filepath == s.filepath && r.filename == s.filename
    ensures r.wrapEnabled == s.wrapEnabled && r.statusVisible == s.statusVisible
  {
    SetDirty(s.(buffer := text), true)
  }

  /** The `try` block of `save_file` once a path is bound: the widget content
      (Tk appends one line feed to it) is written with every trailing line feed
      stripped; success clears the flag, failure changes nothing. */
  function WriteBound(s: Session, writeOk: bool): (r: Outcome)
    requires s.filepath.Some?
    ensures r.ok == writeOk
    ensures writeOk ==> r.session == SetDirty(s, false)
    ensures writeOk ==> r.written == Some(Written(s.filepath.value, TrimTrailingNewlines(s.buffer)))
    ensures !writeOk ==> r.session == s && r.written == None
  {
    if writeOk then
      TrimAbsorbsNewlines(s.buffer, "\n");
      Outcome(SetDirty(s, false), true,
              Some(Written(s.filepath.value, TrimTrailingNewlines(s.buffer + "\n"))))
    else
      Outcome(s, false, None)
  }

  /** Binding a chosen path: the path and its base name become the document's,
      and the title is re-rendered to show the new name. */
  function BindPath(s: Session, path: string): (r: Session)
    ensures r.filepath == Some(path) && r.filename == Basename(path)
    ensures TitleSynced(r)
    ensures r.dirty == s.dirty && r.buffer == s.buffer
    ensures r.wrapEnabled == s.wrapEnabled && r.statusVisible == s.statusVisible
  {
    UpdateTitle(s.(filepath := Some(path), filename := Basename(path)))
  }

  /** `save_file_as`: a cancelled dialog is a plain failure; otherwise the
      path is bound BEFORE the write, so it stays bound if the write fails.
      (Corrected: the title is refreshed after binding, see `TitleFinding`.) */
  function SaveFileAs(s: Session, replies: SaveReplies): (r: Outcome)
    ensures replies.savePath == "" ==> r == Outcome(s, false, None)
    ensures replies.savePath != "" ==>
      && r.ok == replies.writeOk
      && r.session.filepath == Some(replies.savePath)
      && r.session.filename == Basename(replies.savePath)
      && r.session.dirty == (s.dirty && !replies.writeOk)
      && r.session.buffer == s.buffer
      && TitleSynced(r.session)
    ensures r.ok <==> r.written.Some?
    ensures r.ok ==> r.written == Some(Written(replies.savePath, TrimTrailingNewlines(s.buffer)))
    ensures r.session.wrapEnabled == s.wrapEnabled && r.session.statusVisible == s.statusVisible
  {
    if replies.savePath == "" then Outcome(s, false, None)
    else WriteBound(BindPath(s, replies.savePath), replies.writeOk)
  }

  /** `save_file`: without a bound path it is `save_file_as`; with one, it
      writes and reports whether the write succeeded. */
  function SaveFile(s: Session, replies: SaveReplies): (r: Outcome)
    ensures s.filepath.None? ==> r == SaveFileAs(s, replies)
    ensures s.filepath.Some? ==> r.ok == replies.writeOk
    ensures s.filepath.Some? && !replies.writeOk ==> r.session == s && r.written == None
    ensures s.filepath.Some? && replies.writeOk ==>
      && r.session == s.(dirty := false, title := RenderTitle(false, s.filename))
      && r.written == Some(Written(s.filepath.value, TrimTrailingNewlines(s.buffer)))
    ensures r.ok ==> !r.session.dirty && r.written.Some?
    ensures !r.ok ==> r.session.dirty == s.dirty && r.written == None
    ensures r.session.buffer == s.buffer
  {
    if s.filepath.None? then SaveFileAs(s, replies)
    else WriteBound(s, replies.writeOk)
  }

  /** `confirm_lose_changes`: whether the caller may discard the buffer. */
  function ConfirmLoseChanges(s: Session, answer: Answer, replies: SaveReplies): (r: Outcome)
    ensures !s.dirty ==> r == Outcome(s, true, None)
    ensures s.dirty && answer == Cancel ==> r == Outcome(s, false, None)
    ensures s.dirty && answer == No ==> r == Outcome(s, true, None)
    ensures s.dirty && answer == Yes ==> r == SaveFile(s, replies)
    ensures r.ok ==> !r.session.dirty || answer == No
    ensures r.session.buffer == s.buffer
  {
    if !s.dirty then Outcome(s, true, None)
    else match answer
      case Cancel => Outcome(s, false, None)
      case Yes => SaveFile(s, replies)
      case No => Outcome(s, true, None)
  }

  /** `new_file`: once the guard agrees, an empty untitled clean document.
      `ok` tells whether the guard agreed. */
  function NewFile(s: Session, answer: Answer, replies: SaveReplies): (r: Outcome)
    ensures r.ok == ConfirmLoseChanges(s, answer, replies).ok
    ensures r.written == ConfirmLoseChanges(s, answer, replies).written
    ensures !r.ok ==> r.session == ConfirmLoseChanges(s, answer, replies).session
    ensures !r.ok && answer != Yes ==> r.session == s
    ensures r.ok ==>
      && r.session.buffer == "" && r.session.filepath == None
      && r.session.filename == "Sans titre" && !r.session.dirty
      && r.session.title == "Sans titre - Bloc-notes"
    ensures r.session.wrapEnabled == s.wrapEnabled && r.session.statusVisible == s.statusVisible
  {
    var guard := ConfirmLoseChanges(s, answer, replies);
    if !guard.ok then guard
    else
      var cleared := guard.session.(buffer := "", filepath := None, filename := Untitled);
      Outcome(SetDirty(cleared, false), true, guard.written)
  }

  /** `open_file`: after the guard, a picked path replaces the whole document
      with the text read from it. `readText` is `None` when opening the file
      raises an `OSError` (it was removed, is a directory, is not readable):
      only `UnicodeDecodeError` is caught, so the handler stops there and the
      document stays as the guard left it. `ok` tells whether the document
      was replaced. */
  function OpenFile(s: Session, answer: Answer, replies: SaveReplies,
                    openPath: string, readText: Option<string>): (r: Outcome)
    ensures r.written == ConfirmLoseChanges(s, answer, replies).written
    ensures r.ok <==> ConfirmLoseChanges(s, answer, replies).ok && openPath != "" && readText.Some?
    ensures !r.ok ==> r.session == ConfirmLoseChanges(s, answer, replies).session
    ensures !r.ok && answer != Yes ==> r.session == s
    ensures r.ok ==>
      && r.session.buffer == readText.value
      && r.session.filepath == Some(openPath)
      && r.session.filename == Basename(openPath)
      && !r.session.dirty && TitleSynced(r.session)
    ensures r.session.wrapEnabled == s.wrapEnabled && r.session.statusVisible == s.statusVisible
  {
    var guard := ConfirmLoseChanges(s, answer, replies);
    if !guard.ok then guard
    else if openPath == "" then Outcome(guard.session, false, guard.written)
    else match readText
      case None => Outcome(guard.session, false, guard.written)
      case Some(text) =>
        var loaded := guard.session.(buffer := text, filepath := Some(openPath),
                                     filename := Basename(openPath));
        Outcome(SetDirty(loaded, false), true, guard.written)
  }

  /** `exit_app`: `ok` tells whether the window is destroyed, which happens
      exactly when the guard agrees; the session and any file written are
      the guard's. */
  function ExitApp(s: Session, answer: Answer, replies: SaveReplies): (r: Outcome)
    ensures r.ok == ConfirmLoseChanges(s, answer, replies).ok
    ensures !s.dirty ==> r == Outcome(s, true, None)
    ensures s.dirty && answer == Cancel ==> r == Outcome(s, false, None)
    ensures s.dirty && answer == No ==> r == Outcome(s, true, None)
    ensures s.dirty && answer == Yes ==> r == SaveFile(s, replies)
  {
    ConfirmLoseChanges(s, answer, replies)
  }

  /** `toggle_wrap`: flips word wrap and nothing else. */
  function ToggleWrap(s: Session): (r: Session)
    ensures r.wrapEnabled == !s.wrapEnabled && r.statusVisible == s.statusVisible
    ensures SameDocument(r, s)
  {
    s.(wrapEnabled := !s.wrapEnabled)
  }

  /** `toggle_status_bar`: flips the status bar and nothing else. */
  function ToggleStatusBar(s: Session): (r: Session)
    ensures r.statusVisible == !s.statusVisible && r.wrapEnabled == s.wrapEnabled
    ensures SameDocument(r, s)
  {
    s.(statusVisible := !s.statusVisible)
  }
}
