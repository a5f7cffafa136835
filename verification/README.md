# Bloc-notes document session, in Dafny

A model of the document-session state machine of the `BlocNotes` editor
(`notepad.py`): the bound file path, the display name, the unsaved-changes
flag, the word-wrap and status-bar preferences, the text of the editing area
and the window title. Each file command is a pure function. The session and
the outside world's answers go in, and the next session comes out. Those
answers are:

- the reply to the yes/no/cancel prompt (`Answer`);
- the path picked in the save-as or open dialog, where the empty string means
  the dialog was cancelled, as Tk reports it;
- the text read from the opened file, or `None` when opening it raises an
  `OSError`;
- whether the write succeeded (`SaveReplies.writeOk`).

A file command returns an `Outcome`. It holds the next session, the command's
boolean verdict, and the file written along the way, if any.

Files:

- `strings.dfy` (module `Strings`): the text written on save. It is the buffer
  with every trailing line feed removed, as `rstrip("\n")` does.
- `paths.dfy` (module `Paths`): the base name of a path.
- `notepad.dfy` (module `Notepad`): the session, the title, and the
  transitions `_update_title`, `_set_dirty`, `confirm_lose_changes`,
  `new_file`, `open_file`, `save_file`, `save_file_as`, `exit_app`,
  `toggle_wrap` and `toggle_status_bar`. It also has an abstract user edit.
- `properties.dfy` (module `NotepadProperties`): a command datatype and
  runs of commands. It proves the invariant every reachable session keeps,
  save-then-open, the title, the guard and the toggles.
- `textmode.dfy` (module `TextMode`): Python's text-mode newline
  translation, applied on write and on read.
- `title_finding.dfy` (module `TitleFinding`): `save_file_as` as written,
  next to the corrected version the model uses (see Findings).

A save writes `content.rstrip("\n")` (`notepad.py:192`), which removes every
trailing line feed, not just one. Tk's `text.get(1.0, tk.END)` always appends one line feed
to the content. So the model writes `TrimTrailingNewlines(buffer + "\n")`, and
`Strings.TrimAbsorbsNewlines` shows that this equals
`TrimTrailingNewlines(buffer)`. As a result, save followed by open loses
every trailing line feed of the buffer, not at most one.

## Model

| member | source | states |
|---|---|---|
| Strings.TrimTrailingNewlines | notepad.py:192 | the written text is a prefix of the buffer, does not end in a line feed, and only line feeds were removed |
| Strings.TrimIsUnique | notepad.py:192 | any split into a head that does not end in a line feed and a tail of line feeds has the trimmed text as head, so the contract defines the trim |
| Strings.TrimIdempotent | notepad.py:192 | trimming twice equals trimming once |
| Strings.TrimAbsorbsNewlines | notepad.py:190-192 | extra trailing line feeds, such as Tk's sentinel one, do not change the written text |
| Strings.TrimRemovesEveryTrailingNewline | notepad.py:192 | "a\n\n" is written as "a": every trailing line feed goes, not just one |
| Paths.Basename | notepad.py:183 | the base name contains no '/', is a suffix of the path, and follows its last '/' |
| Paths.BasenameIsSuffix | notepad.py:183 | the path is some prefix followed by its base name, which contains no '/' |
| Paths.BasenameOfJoin | notepad.py:210 | a name without '/' joined to any directory has that name as its base name |
| Notepad.Init | notepad.py:9-28 | start-up session: no path, "Sans titre", clean, wrap on, status bar visible, empty buffer, title "Sans titre - Bloc-notes", well formed |
| Notepad.UpdateTitle | notepad.py:117-119 | the title agrees with flag and name afterwards, and nothing else changes |
| Notepad.SetDirty | notepad.py:121-123 | the flag takes the given value, the title becomes ("*" if dirty else "") + filename + " - Bloc-notes", and nothing else changes |
| Notepad.Edit | notepad.py:125-129 | a user edit leaves the new text in the buffer with the flag set and the title starred; the path and name stay the same |
| Notepad.WriteBound | notepad.py:189-197 | with a bound path, a successful write stores the trimmed buffer at that path and clears the flag; a failed write changes nothing and writes nothing |
| Notepad.BindPath | notepad.py:209-210 | the chosen path and its base name become the document's, while flag, buffer and preferences stay the same; unlike these lines it also re-renders the title, as the corrected save-as under Findings does |
| Notepad.SaveFileAs | notepad.py:199-211 | a cancelled dialog fails with no change; otherwise the path is bound whatever the write does, the result is the write's success, and the flag stays set on failure |
| Notepad.SaveFile | notepad.py:186-197 | with no path it is exactly save-as; with a path, success clears the flag and writes the trimmed buffer there, and failure leaves the session unchanged |
| Notepad.ConfirmLoseChanges | notepad.py:141-152 | clean: proceed, no prompt, no change; Cancel: refuse, no change; No: proceed without saving; Yes: exactly the result of save |
| Notepad.NewFile | notepad.py:154-160 | if the guard refuses, the session is as the guard left it (unchanged unless Yes was answered); otherwise an empty, unbound, clean "Sans titre" document |
| Notepad.OpenFile | notepad.py:162-184 | the document is replaced exactly when the guard agrees, a path is picked and the file can be opened; then the buffer is the read text, the path is bound, the name is its base name, and the flag is clear; otherwise the session and any file written are the guard's |
| Notepad.ExitApp | notepad.py:213-215 | the window is destroyed exactly when the guard agrees; clean: no prompt, no change; Cancel: no change; No: no save; Yes: exactly the result of save |
| Notepad.ToggleWrap | notepad.py:261-263 | word wrap is negated and the document and the status bar are unchanged |
| Notepad.ToggleStatusBar | notepad.py:265-270 | the status bar flag is negated and the document and word wrap are unchanged |
| NotepadProperties.ApplyPreservesWellFormed | notepad.py:117-123 | with the corrected save-as under Findings, every command keeps the title in step and the name determined by the path; the code as written breaks this after a failed save-as |
| NotepadProperties.RunPreservesWellFormed | notepad.py:154-215 | with the corrected save-as under Findings, any sequence of commands keeps the session well formed |
| NotepadProperties.ReachableTitle | notepad.py:117-119 | with the corrected save-as under Findings, the title is ("*" if dirty else "") + filename + " - Bloc-notes" in every session reachable from start-up |
| NotepadProperties.TitleDeterminesState | notepad.py:117-119 | the title determines flag and name when the name does not begin with '*' |
| NotepadProperties.TitleAmbiguousForStarredName | notepad.py:118-119 | a dirty "a" and a clean "*a" show the same title |
| NotepadProperties.SaveThenOpenRoundTrip | notepad.py:162-197 | opening the file a save just wrote prompts nothing and gives back the same path and name, the trimmed buffer, and a clean flag |
| NotepadProperties.SavedText | notepad.py:190-192 | every successful save writes the buffer with its trailing line feeds removed |
| NotepadProperties.SaveThenOpenThroughTextMode | notepad.py:174-192 | for a buffer without carriage returns and either line separator, opening the file a save just wrote gives back the trimmed buffer, clean, under the same path and name |
| NotepadProperties.FailedReadKeepsDocument | notepad.py:173-178 | a file that cannot be opened leaves the session, and any file written, as the guard left them |
| NotepadProperties.RoundTripLosesOnlyNewlines | notepad.py:190-192 | the buffer is the written text followed by line feeds only |
| NotepadProperties.ResaveWritesSameText | notepad.py:186-194 | saving a reloaded document writes exactly what the first save wrote |
| NotepadProperties.CancelLeavesSessionUnchanged | notepad.py:141-149 | Cancel on a dirty session makes new, open and exit leave the session exactly as it was and write nothing |
| NotepadProperties.CancelledOpenDialogKeepsDocument | notepad.py:171-172 | a cancelled open dialog keeps the session the guard produced and the buffer |
| NotepadProperties.FailedSaveKeepsDirty | notepad.py:186-197 | a failed save keeps the flag set, writes nothing, and keeps an already bound path and name |
| NotepadProperties.FailedSaveAsBindsPath | notepad.py:207-211 | a failed save-as leaves the new path and name bound with the flag still set |
| NotepadProperties.TogglesAreInvolutions | notepad.py:261-270 | each toggle applied twice restores the session, and the two toggles commute |
| NotepadProperties.TypeThenSaveAsScenario | notepad.py:186-211 | type a text not ending in a line feed (such as "hello") into a new document, then save as dir/name: the title was "*Sans titre - Bloc-notes", the file holds exactly that text, and the title becomes name + " - Bloc-notes" |
| TextMode.EncodeNewlines | notepad.py:191 | the characters a text-mode write puts in the file: with "\n" as separator, or for a text without line feeds, exactly the text itself |
| TextMode.DecodeNewlines | notepad.py:174-178 | the text a universal-newline read returns never contains a carriage return |
| TextMode.DecodeEncode | notepad.py:174-191 | a text without carriage returns, written in text mode with "\n" or "\r\n" as separator, reads back unchanged |
| TextMode.CarriageReturnReadsAsNewline | notepad.py:174-191 | a carriage return does not survive a write and a read: "a\r" comes back as "a\n" |
| TitleFinding.SaveFileAsAsWritten | notepad.py:199-211 | save-as as written: binds path and name, and after a failed write the old title stays |
| TitleFinding.AsWrittenDiffersOnlyInTitle | notepad.py:199-211 | the as-written and corrected save-as differ only in the title, and not at all when cancelled or successful |
| TitleFinding.AsWrittenLeavesStaleTitle | notepad.py:209-211 | as written, a failed save-as of an edited untitled document to dir/name binds name, but the title still reads "*Sans titre - Bloc-notes" and is out of step |
| TitleFinding.StaleTitleExample | notepad.py:209-211 | "hello" typed, save as /tmp/a.txt, write fails: filename "a.txt", title "*Sans titre - Bloc-notes" |
| TitleFinding.CorrectedKeepsTitleSynced | notepad.py:209-211 | the corrected save-as keeps the title in step on every outcome, showing the new name after a failed write |

## Findings

| source | as written | input that shows it | evidently intended | confidence | as-written member | corrected member |
|---|---|---|---|---|---|---|
| notepad.py:209-211 | `save_file_as` binds `filepath` and `filename` but never calls `_update_title`. The title is refreshed only by `_set_dirty` after a successful write. | dirty untitled document; save-as to /tmp/a.txt; write fails. "a.txt" is now bound, so the next save goes there silently, but the title still reads "*Sans titre - Bloc-notes" | the title shows the bound name after every state change: "*a.txt - Bloc-notes" | medium, not executed | TitleFinding.SaveFileAsAsWritten (with TitleFinding.AsWrittenLeavesStaleTitle and TitleFinding.StaleTitleExample) | Notepad.SaveFileAs (with TitleFinding.CorrectedKeepsTitleSynced) |

## Left out

- Tk widget construction, menus, keyboard bindings, window maximising and the event loop (`notepad.py:13-17`, `30-113`, `281-288`). These are user-interface plumbing.
- The `<<Modified>>` event and the `edit_modified` flag (`notepad.py:125-129`). Tk's text widget delivers this event through the event queue, so its handler runs after `new_file` or `open_file` has returned. If the delete at `notepad.py:157` or the delete and insert at `notepad.py:180-181` changed the text, the handler then finds `edit_modified()` true and calls `_set_dirty(True)`. So in the running program, opening a non-empty file most likely ends with the flag set and a starred title. The same holds for a new document that replaced non-empty text. The model leaves out this later event. The clear flag stated by `Notepad.NewFile`, `Notepad.OpenFile`, `NotepadProperties.SaveThenOpenRoundTrip` and `NotepadProperties.SaveThenOpenThroughTextMode` is the state at the moment the command returns. A user edit is modelled as the abstract step `Notepad.Edit`, which sets the flag.
- The cursor position and status text (`notepad.py:131-137`). They depend on Tk index strings, and the code swallows every exception there.
- Undo, cut, copy, paste, delete and select-all (`notepad.py:219-253`). They are thin wrappers over the text widget and the system clipboard.
- `insert_datetime` (`notepad.py:255-257`): it reads the wall clock.
- Reading and writing files, including the UTF-8 then Latin-1 decode fallback (`notepad.py:173-178`, `190-191`). The read text (or `None` for an `OSError` on open) and the write's success are inputs. Character encoding is not modelled; newline translation is, in `TextMode`. A write that fails part-way may leave a truncated file; that is not modelled.
- NotepadProperties.SaveThenOpenRoundTrip: takes the text read back to be exactly the text written, leaving out Python's text-mode newline translation (`notepad.py:174`, `191`). `NotepadProperties.SaveThenOpenThroughTextMode` covers the translation, for buffers without carriage returns. `TextMode.CarriageReturnReadsAsNewline` shows that a carriage return comes back as a line feed.
- NotepadProperties.ResaveWritesSameText: the same assumption as the round trip, that the text read back is the text written.
- The error and about message boxes (`notepad.py:196`, `274-278`): display only.
- Paths.Basename: models `posixpath.basename`, with '/' as the only separator. Windows back-slashes and drive letters are not modelled. The session properties treat the base name as an opaque function of the path, apart from two scenario lemmas. `NotepadProperties.TypeThenSaveAsScenario` and `TitleFinding.AsWrittenLeavesStaleTitle` use `Paths.BasenameOfJoin` for a path `dir + "/" + name`. They do not hold for a Windows path such as `dir\name`.
- NotepadProperties.Run: a successful exit ends the run. Destroying the window and ending the process are not modelled further.
