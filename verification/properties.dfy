/** Properties that relate several commands of the Bloc-notes session: the
    invariant every reachable session keeps, save-then-open, the title, the
    unsaved-changes guard and the view toggles. */
module NotepadProperties {
  import opened Strings
  import opened Paths
  import opened Notepad
  import opened TextMode

  /** One user action together with the outside world's answers to it. */
  datatype Command =
    | NewCmd(answer: Answer, replies: SaveReplies)
    | OpenCmd(answer: Answer, replies: SaveReplies, openPath: string, readText: Option<string>)
    | SaveCmd(replies: SaveReplies)
    | SaveAsCmd(replies: SaveReplies)
    | ExitCmd(answer: Answer, replies: SaveReplies)
    | WrapCmd
    | StatusBarCmd
    | EditCmd(text: string)

  /** Dispatches a command to the handler the menu or shortcut calls. */
  function Apply(s: Session, c: Command): Outcome {
    match c
    case NewCmd(a, rs) => NewFile(s, a, rs)
    case OpenCmd(a, rs, p, t) => OpenFile(s, a, rs, p, t)
    case SaveCmd(rs) => SaveFile(s, rs)
    case SaveAsCmd(rs) => SaveFileAs(s, rs)
    case ExitCmd(a, rs) => ExitApp(s, a, rs)
    case WrapCmd => Outcome(ToggleWrap(s), true, None)
    case StatusBarCmd => Outcome(ToggleStatusBar(s), true, None)
    case EditCmd(t) => Outcome(Edit(s, t), true, None)
  }

  /** Runs commands in order; a successful exit destroys the window, so the
      commands after it are never handled. */
  function Run(s: Session, cmds: seq<Command>): Session
    decreases |cmds|
  {
    if |cmds| == 0 then s
    else
      var out := Apply(s, cmds[0]);
      if cmds[0].ExitCmd? && out.ok then out.session
      else Run(out.session, cmds[1..])
  }

  /** Every command keeps the session well formed. */
  lemma ApplyPreservesWellFormed(s: Session, c: Command)
    requires WellFormed(s)
    ensures WellFormed(Apply(s, c).session)
  {
  }

  /** After any sequence of commands from start-up, the title reads
      `("*" if dirty else "") + filename + " - Bloc-notes"`, and an unbound
      document is called "Sans titre". */
  lemma {:induction false} RunPreservesWellFormed(s: Session, cmds: seq<Command>)
    requires WellFormed(s)
    ensures WellFormed(Run(s, cmds))
    decreases |cmds|
  {
    if |cmds| > 0 {
      ApplyPreservesWellFormed(s, cmds[0]);
      RunPreservesWellFormed(Apply(s, cmds[0]).session, cmds[1..]);
    }
  }

  /** The title invariant for every session reachable from start-up. */
  lemma ReachableTitle(cmds: seq<Command>)
    ensures var s := Run(Init(), cmds);
      s.title == (if s.dirty then "*" else "") + s.filename + " - Bloc-notes"
  {
    RunPreservesWellFormed(Init(), cmds);
  }

  /** True when the name begins with an asterisk. */
  predicate StartsWithStar(name: string) {
    |name| > 0 && name[0] == '*'
  }

  /** The first character of a title: the star, or the name's own first one. */
  lemma TitleFirstChar(d: bool, f: string)
    ensures |RenderTitle(d, f)| > 0
    ensures d ==> RenderTitle(d, f)[0] == '*'
    ensures !d && |f| > 0 ==> RenderTitle(d, f)[0] == f[0]
    ensures d != (|RenderTitle(d, f)| == |f| + |TitleSuffix|)
  {
  }

  /** The title shows flag and name unambiguously, as long as the name does
      not itself begin with an asterisk. */
  lemma TitleDeterminesState(d1: bool, f1: string, d2: bool, f2: string)
    requires RenderTitle(d1, f1) == RenderTitle(d2, f2)
    requires !StartsWithStar(f1) && !StartsWithStar(f2)
    ensures d1 == d2 && f1 == f2
  {
    var t := RenderTitle(d1, f1);
    if d1 == d2 {
      var k := if d1 then 1 else 0;
      assert f1 == t[k..|t| - |TitleSuffix|];
      assert f2 == t[k..|t| - |TitleSuffix|];
    } else {
      TitleFirstChar(d1, f1);
      TitleFirstChar(d2, f2);
      assert false;
    }
  }

  /** A clean file named "*a" and a dirty file named "a" show the same title. */
  lemma TitleAmbiguousForStarredName()
    ensures RenderTitle(true, "a") == RenderTitle(false, "*a")
  {
  }

  /** Save, then open the written file: the document comes back clean under
      the same path and name, holding the buffer minus its trailing line feeds;
      the reload prompts nothing and writes nothing. */
  lemma SaveThenOpenRoundTrip(s: Session, replies: SaveReplies, answer: Answer, replies2: SaveReplies)
    requires WellFormed(s)
    requires SaveFile(s, replies).ok
    ensures var saved := SaveFile(s, replies);
      var file := saved.written.value;
      var reopened := OpenFile(saved.session, answer, replies2, file.path, Some(file.text));
      && reopened.ok && reopened.written == None
      && reopened.session.buffer == TrimTrailingNewlines(s.buffer)
      && reopened.session.filepath == saved.session.filepath
      && reopened.session.filename == saved.session.filename
      && !reopened.session.dirty
      && reopened.session == saved.session.(buffer := TrimTrailingNewlines(s.buffer))
  {
    var saved := SaveFile(s, replies);
    var file := saved.written.value;
    if s.filepath.Some? {
      assert file.path == s.filepath.value;
    } else {
      assert file.path == replies.savePath;
    }
  }

  /** The written text is what save writes for any buffer. */
  lemma SavedText(s: Session, replies: SaveReplies)
    requires SaveFile(s, replies).ok
    ensures SaveFile(s, replies).written.value.text == TrimTrailingNewlines(s.buffer)
  {
  }

  /** Save and open through Python's text mode: the file holds the written
      text with line feeds turned into the platform's separator, and reading
      it back turns them into line feeds again. For a buffer without carriage
      returns the reopened document holds the trimmed buffer. */
  lemma SaveThenOpenThroughTextMode(s: Session, replies: SaveReplies, answer: Answer,
                                    replies2: SaveReplies, linesep: string)
    requires WellFormed(s)
    requires SaveFile(s, replies).ok
    requires IsLineSeparator(linesep)
    requires '\r' !in s.buffer
    ensures var saved := SaveFile(s, replies);
      var file := saved.written.value;
      var onDisk := EncodeNewlines(file.text, linesep);
      var reopened := OpenFile(saved.session, answer, replies2, file.path, Some(DecodeNewlines(onDisk)));
      && reopened.ok
      && reopened.session == saved.session.(buffer := TrimTrailingNewlines(s.buffer))
  {
    var saved := SaveFile(s, replies);
    var text := saved.written.value.text;
    SavedText(s, replies);
    assert forall i :: 0 <= i < |text| ==> text[i] == s.buffer[i];
    assert '\r' !in text;
    DecodeEncode(text, linesep);
    SaveThenOpenRoundTrip(s, replies, answer, replies2);
  }

  /** The original buffer is the reloaded one followed by line feeds only. */
  lemma RoundTripLosesOnlyNewlines(s: Session, replies: SaveReplies)
    requires SaveFile(s, replies).ok
    ensures var text := SaveFile(s, replies).written.value.text;
      |text| <= |s.buffer| && s.buffer == text + s.buffer[|text|..]
      && AllNewlines(s.buffer[|text|..])
  {
    SavedText(s, replies);
    var text := TrimTrailingNewlines(s.buffer);
    assert s.buffer == s.buffer[..|text|] + s.buffer[|text|..];
  }

  /** Saving a reloaded document writes exactly what the first save wrote. */
  lemma ResaveWritesSameText(s: Session, replies: SaveReplies, answer: Answer,
                             replies2: SaveReplies, replies3: SaveReplies)
    requires WellFormed(s)
    requires SaveFile(s, replies).ok
    requires replies3.writeOk
    ensures var saved := SaveFile(s, replies);
      var file := saved.written.value;
      var reopened := OpenFile(saved.session, answer, replies2, file.path, Some(file.text));
      SaveFile(reopened.session, replies3).written == Some(file)
  {
    SaveThenOpenRoundTrip(s, replies, answer, replies2);
    TrimIdempotent(s.buffer);
  }

  /** Cancel at the prompt of a dirty session leaves it exactly as it was,
      whichever guarded command asked. */
  lemma CancelLeavesSessionUnchanged(s: Session, replies: SaveReplies, path: string, text: Option<string>)
    requires s.dirty
    ensures NewFile(s, Cancel, replies) == Outcome(s, false, None)
    ensures OpenFile(s, Cancel, replies, path, text) == Outcome(s, false, None)
    ensures ExitApp(s, Cancel, replies) == Outcome(s, false, None)
  {
  }

  /** A cancelled open dialog leaves the document as the guard left it. */
  lemma CancelledOpenDialogKeepsDocument(s: Session, answer: Answer, replies: SaveReplies, text: Option<string>)
    ensures var guard := ConfirmLoseChanges(s, answer, replies);
      var r := OpenFile(s, answer, replies, "", text);
      !r.ok && r.session == guard.session && r.session.buffer == s.buffer
  {
  }

  /** A file that cannot be opened (the read raises) leaves the document as
      the guard left it, including any save the guard made. */
  lemma FailedReadKeepsDocument(s: Session, answer: Answer, replies: SaveReplies, path: string)
    ensures var guard := ConfirmLoseChanges(s, answer, replies);
      var r := OpenFile(s, answer, replies, path, None);
      !r.ok && r.session == guard.session && r.written == guard.written
      && r.session.buffer == s.buffer
  {
  }

  /** A failed save keeps the unsaved-changes flag and, when a path was
      already bound, the path and name too. */
  lemma FailedSaveKeepsDirty(s: Session, replies: SaveReplies)
    requires s.dirty && !replies.writeOk
    ensures var r := SaveFile(s, replies);
      !r.ok && r.session.dirty && r.written == None
      && (s.filepath.Some? ==> r.session.filepath == s.filepath && r.session.filename == s.filename)
  {
  }

  /** A failed save-as leaves the newly chosen path bound and the flag set. */
  lemma FailedSaveAsBindsPath(s: Session, path: string)
    requires s.dirty && path != ""
    ensures var r := SaveFileAs(s, SaveReplies(path, false));
      !r.ok && r.session.dirty && r.session.filepath == Some(path)
      && r.session.filename == Basename(path)
  {
  }

  /** Each toggle undoes itself. */
  lemma TogglesAreInvolutions(s: Session)
    ensures ToggleWrap(ToggleWrap(s)) == s
    ensures ToggleStatusBar(ToggleStatusBar(s)) == s
    ensures ToggleWrap(ToggleStatusBar(s)) == ToggleStatusBar(ToggleWrap(s))
  {
  }

  /** Start untitled, type a text that does not end in a line feed (say
      "hello"), save as `dir/name`: the file holds exactly that text, with no
      line feed added, and the title loses its star. */
  lemma TypeThenSaveAsScenario(text: string, dir: string, name: string)
    requires !EndsWithNewline(text)
    requires '/' !in name
    ensures var typed := Edit(Init(), text);
      var saved := SaveFile(typed, SaveReplies(dir + "/" + name, true));
      && typed.title == "*Sans titre - Bloc-notes"
      && saved.ok
      && saved.written == Some(Written(dir + "/" + name, text))
      && !saved.session.dirty
      && saved.session.title == name + " - Bloc-notes"
  {
    var path := dir + "/" + name;
    BasenameOfJoin(dir, name);
    TrimIsUnique(text, text, "");
    UntitledTitles();
    var typed := Edit(Init(), text);
    assert typed.title == RenderTitle(true, Untitled);
    var saved := SaveFile(typed, SaveReplies(path, true));
    assert saved.written == Some(Written(path, TrimTrailingNewlines(text)));
    assert saved.session.title == RenderTitle(false, name);
    CleanTitle(name);
  }
}
