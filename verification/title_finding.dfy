/** `save_file_as` as written binds the new path and name without refreshing
    the title; the title is only re-rendered by `_set_dirty` after a
    successful write. A failed write therefore leaves the old name on screen
    while the new file is bound. `Notepad.SaveFileAs` is the corrected
    version, which re-renders the title once the path is bound. */
module TitleFinding {
  import opened Paths
  import opened Notepad

  /** `save_file_as` exactly as written: bind path and name, then save. */
  function SaveFileAsAsWritten(s: Session, replies: SaveReplies): (r: Outcome)
    ensures replies.savePath == "" ==> r == Outcome(s, false, None)
    ensures replies.savePath != "" ==>
      && r.ok == replies.writeOk
      && r.session.filepath == Some(replies.savePath)
      && r.session.filename == Basename(replies.savePath)
      && r.session.dirty == (s.dirty && !replies.writeOk)
    ensures replies.savePath != "" && !replies.writeOk ==> r.session.title == s.title
  {
    if replies.savePath == "" then Outcome(s, false, None)
    else WriteBound(s.(filepath := Some(replies.savePath),
                       filename := Basename(replies.savePath)), replies.writeOk)
  }

  /** The two versions agree on everything but the title, and agree entirely
      when the dialog is cancelled or the write succeeds. */
  lemma AsWrittenDiffersOnlyInTitle(s: Session, replies: SaveReplies)
    ensures var a := SaveFileAsAsWritten(s, replies);
      var c := SaveFileAs(s, replies);
      a.ok == c.ok && a.written == c.written && a.session.(title := c.session.title) == c.session
    ensures replies.savePath == "" || replies.writeOk ==>
      SaveFileAsAsWritten(s, replies) == SaveFileAs(s, replies)
  {
  }

  /** A dirty untitled document saved as `dir/name` whose write fails: the
      file `name` is bound, yet the title still reads
      "*Sans titre - Bloc-notes". */
  lemma AsWrittenLeavesStaleTitle(text: string, dir: string, name: string)
    requires '/' !in name && name != Untitled
    ensures var s := Edit(Init(), text);
      var r := SaveFileAsAsWritten(s, SaveReplies(dir + "/" + name, false));
      && r.session.filepath == Some(dir + "/" + name)
      && r.session.filename == name
      && r.session.title == "*Sans titre - Bloc-notes"
      && !TitleSynced(r.session)
  {
    BasenameOfJoin(dir, name);
    UntitledTitles();
    var s := Edit(Init(), text);
    assert s.title == RenderTitle(true, Untitled);
    var r := SaveFileAsAsWritten(s, SaveReplies(dir + "/" + name, false));
    assert r.session.title == RenderTitle(true, Untitled);
    assert RenderTitle(true, Untitled)[1..|Untitled| + 1] == Untitled;
    assert RenderTitle(true, name)[1..|name| + 1] == name;
  }

  /** The concrete instance: "hello" typed, save as /tmp/a.txt, write fails. */
  lemma StaleTitleExample()
    ensures var r := SaveFileAsAsWritten(Edit(Init(), "hello"), SaveReplies("/tmp/a.txt", false));
      r.session.filename == "a.txt" && r.session.title == "*Sans titre - Bloc-notes"
  {
    AsWrittenLeavesStaleTitle("hello", "/tmp", "a.txt");
    assert "/tmp" + "/" + "a.txt" == "/tmp/a.txt";
  }

  /** The corrected version keeps the title in step on every outcome. */
  lemma CorrectedKeepsTitleSynced(s: Session, replies: SaveReplies)
    requires WellFormed(s)
    ensures TitleSynced(SaveFileAs(s, replies).session)
    ensures replies.savePath != "" && !replies.writeOk ==>
      SaveFileAs(s, replies).session.title == RenderTitle(s.dirty, Basename(replies.savePath))
  {
  }
}
