/** Python's text-mode newline handling with the default `newline=None`, as
    used by the file reads and writes of the editor: a write turns each
    line feed into the platform's line separator, and a read turns "\r\n"
    and a lone "\r" into a line feed (universal newlines). */
module TextMode {

  /** `os.linesep` on the platforms the editor runs on. */
  predicate IsLineSeparator(sep: string) {
    sep == "\n" || sep == "\r\n"
  }

  /** The characters a text-mode write puts in the file for `t`. */
  function EncodeNewlines(t: string, sep: string): (f: string)
    ensures sep == "\n" ==> f == t
    ensures '\n' !in t ==> f == t
    decreases |t|
  {
    if |t| == 0 then ""
    else (if t[0] == '\n' then sep else [t[0]]) + EncodeNewlines(t[1..], sep)
  }

  /** The text a text-mode read returns for the characters `f` of a file. */
  function DecodeNewlines(f: string): (t: string)
    ensures '\r' !in t
    decreases |f|
  {
    if |f| == 0 then ""
    else if f[0] == '\r' then
      "\n" + DecodeNewlines(if |f| > 1 && f[1] == '\n' then f[2..] else f[1..])
    else [f[0]] + DecodeNewlines(f[1..])
  }

  /** A text without carriage returns reads back exactly as it was written,
      whatever the line separator. */
  lemma {:induction false} DecodeEncode(t: string, sep: string)
    requires IsLineSeparator(sep)
    requires '\r' !in t
    ensures DecodeNewlines(EncodeNewlines(t, sep)) == t
    decreases |t|
  {
    if |t| > 0 {
      var rest := EncodeNewlines(t[1..], sep);
      assert '\r' !in t[1..];
      DecodeEncode(t[1..], sep);
      if t[0] == '\n' && sep == "\r\n" {
        var f := "\r\n" + rest;
        assert EncodeNewlines(t, sep) == f;
        assert f[2..] == rest;
      } else {
        var f := [t[0]] + rest;
        assert EncodeNewlines(t, sep) == f;
        assert f[1..] == rest;
      }
      assert t == [t[0]] + t[1..];
    }
  }

  /** A carriage return does not survive: "a\r" reads back as "a\n". */
  lemma CarriageReturnReadsAsNewline()
    ensures DecodeNewlines(EncodeNewlines("a\r", "\n")) == "a\n"
    ensures DecodeNewlines(EncodeNewlines("a\r", "\r\n")) == "a\n"
  {
    assert EncodeNewlines("a\r", "\r\n") == "a\r";
    assert "a\r"[1..] == "\r";
    assert DecodeNewlines("\r") == "\n";
  }
}
