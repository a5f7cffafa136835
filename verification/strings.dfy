/** The one string transform of the editor: the text handed to the file on
    save is the widget content with every trailing line feed removed
    (Python's `str.rstrip("\n")`). */
module Strings {

  /** True when every character of `t` is a line feed. */
  predicate AllNewlines(t: string) {
    forall i :: 0 <= i < |t| ==> t[i] == '\n'
  }

  /** True when `s` ends in a line feed. */
  predicate EndsWithNewline(s: string) {
    |s| > 0 && s[|s| - 1] == '\n'
  }

  /** `s.rstrip("\n")`: drops ALL trailing line feeds, not just one. The result
      is a prefix of `s`, does not end in a line feed, and only line feeds
      were removed. */
  function TrimTrailingNewlines(s: string): (r: string)
    ensures |r| <= |s| && r == s[..|r|]
    ensures !EndsWithNewline(r)
    ensures AllNewlines(s[|r|..])
    decreases |s|
  {
    if EndsWithNewline(s) then TrimTrailingNewlines(s[..|s| - 1]) else s
  }

  /** The three properties of the contract pin the result down: any split of
      `s` into a head that does not end in a line feed and a tail of line
      feeds has the trimmed text as its head. */
  lemma {:induction false} TrimIsUnique(s: string, head: string, tail: string)
    requires s == head + tail
    requires !EndsWithNewline(head)
    requires AllNewlines(tail)
    ensures TrimTrailingNewlines(s) == head
    decreases |tail|
  {
    if |tail| == 0 {
      assert s == head;
    } else {
      var shorter := tail[..|tail| - 1];
      assert s[..|s| - 1] == head + shorter;
      assert EndsWithNewline(s);
      TrimIsUnique(s[..|s| - 1], head, shorter);
    }
  }

  /** Trimming is idempotent. */
  lemma TrimIdempotent(s: string)
    ensures TrimTrailingNewlines(TrimTrailingNewlines(s)) == TrimTrailingNewlines(s)
  {
    var r := TrimTrailingNewlines(s);
    TrimIsUnique(r, r, "");
  }

  /** Appending line feeds, however many, does not change the trimmed text.
      With one line feed this is Tk's sentinel newline at the end of the
      text widget's content. */
  lemma TrimAbsorbsNewlines(s: string, extra: string)
    requires AllNewlines(extra)
    ensures TrimTrailingNewlines(s + extra) == TrimTrailingNewlines(s)
  {
    var r := TrimTrailingNewlines(s);
    var removed := s[|r|..];
    assert s == r + removed;
    assert s + extra == r + (removed + extra);
    TrimIsUnique(s + extra, r, removed + extra);
  }

  /** Every trailing line feed goes, not just one: "a\n\n" is written as "a". */
  lemma TrimRemovesEveryTrailingNewline()
    ensures TrimTrailingNewlines("a\n\n") == "a"
    ensures TrimTrailingNewlines("\n\n\n") == ""
    ensures TrimTrailingNewlines("a\nb") == "a\nb"
  {
    TrimIsUnique("a\n\n", "a", "\n\n");
    TrimIsUnique("\n\n\n", "", "\n\n\n");
  }
}
