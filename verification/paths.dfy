/** The last component of a file path, as `os.path.basename` computes it with
    `/` as the only separator. */
module Paths {

  /** The text after the last `/` of `p`, or all of `p` if it has none. */
  function Basename(p: string): (r: string)
    ensures |r| <= |p|
    ensures forall i :: 0 <= i < |r| ==> r[i] == p[|p| - |r| + i] && r[i] != '/'
    ensures |r| < |p| ==> p[|p| - |r| - 1] == '/'
    decreases |p|
  {
    if |p| == 0 then ""
    else if p[|p| - 1] == '/' then ""
    else
      var init := p[..|p| - 1];
      Basename(init) + [p[|p| - 1]]
  }

  /** The base name is exactly the tail of the path after its last '/'. */
  lemma BasenameIsSuffix(p: string)
    ensures var r := Basename(p); '/' !in r && p == p[..|p| - |r|] + r
  {
    var r := Basename(p);
    assert p[|p| - |r|..] == r;
    assert p == p[..|p| - |r|] + p[|p| - |r|..];
  }

  /** The character at `i` of the base name, as a path position. */
  lemma SlashNotInBasename(p: string, i: int)
    requires 0 <= i < |Basename(p)|
    ensures p[|p| - |Basename(p)| + i] != '/'
  {
  }

  /** A file `name` inside any directory `dir` has `name` as its base name. */
  lemma BasenameOfJoin(dir: string, name: string)
    requires '/' !in name
    ensures Basename(dir + "/" + name) == name
  {
    var p := dir + "/" + name;
    var r := Basename(p);
    assert forall j :: 0 <= j < |name| ==> p[|dir| + 1 + j] == name[j];
    if |r| > |name| {
      SlashNotInBasename(p, |r| - |name| - 1);
      assert false;
    } else if |r| < |name| {
      assert false;
    }
    assert |r| == |name|;
    assert forall i :: 0 <= i < |r| ==> r[i] == name[i];
  }
}
