/** The part of Python's `pathlib.PurePosixPath` the tracker relies on: parsing a string into
    components, the `/` operator, `str()`, `.name` and `.stem`. */
module Paths {
  import opened Results

  /** A parsed path: whether it starts at the root, and its components in order. */
  datatype Path = Path(absolute: bool, parts: seq<string>)

  /** A component as pathlib keeps it: not empty, not ".", and free of separators. */
  predicate IsComponent(c: string) {
    c != "" && c != "." && '/' !in c
  }

  predicate Normal(p: Path) {
    forall k :: 0 <= k < |p.parts| ==> IsComponent(p.parts[k])
  }

  /** `s.find(c)`, None for -1. */
  function IndexOf(s: string, c: char): (r: Option<nat>)
    ensures r.None? <==> c !in s
    ensures r.Some? ==> r.value < |s| && s[r.value] == c && c !in s[..r.value]
  {
    if |s| == 0 then None
    else if s[0] == c then Some(0)
    else
      match IndexOf(s[1..], c)
      case None => None
      case Some(i) => assert s[..i + 1] == [s[0]] + s[1..][..i]; Some(i + 1)
  }

  /** `s.rfind(c)`, None for -1. */
  function LastIndexOf(s: string, c: char): (r: Option<nat>)
    ensures r.None? <==> c !in s
    ensures r.Some? ==> r.value < |s| && s[r.value] == c && c !in s[r.value + 1..]
  {
    if |s| == 0 then None
    else if s[|s| - 1] == c then Some(|s| - 1)
    else
      var r := LastIndexOf(s[..|s| - 1], c);
      assert s == s[..|s| - 1] + [s[|s| - 1]];
      r
  }

  /** `s.split("/")`. */
  function Split(s: string): (pieces: seq<string>)
    ensures |pieces| >= 1
    ensures forall k :: 0 <= k < |pieces| ==> '/' !in pieces[k]
    decreases |s|
  {
    match IndexOf(s, '/')
    case None => [s]
    case Some(i) => [s[..i]] + Split(s[i + 1..])
  }

  /** The pieces of a split that pathlib keeps: empty pieces (from repeated or trailing
      separators) and "." are dropped. */
  function Components(pieces: seq<string>): (parts: seq<string>)
    requires forall k :: 0 <= k < |pieces| ==> '/' !in pieces[k]
    ensures forall k :: 0 <= k < |parts| ==> IsComponent(parts[k])
  {
    if pieces == [] then []
    else
      var rest := Components(pieces[1..]);
      if pieces[0] == "" || pieces[0] == "." then rest else [pieces[0]] + rest
  }

  /** `PurePosixPath(s)`. */
  function Parse(s: string): (p: Path)
    ensures Normal(p)
  {
    Path(|s| > 0 && s[0] == '/', Components(Split(s)))
  }

  /** `p / s`: an absolute `s` replaces `p`, otherwise its components are appended. */
  function Join(p: Path, s: string): Path {
    var q := Parse(s);
    if q.absolute then q else Path(p.absolute, p.parts + q.parts)
  }

  /** `"/".join(parts)`. */
  function JoinWith(parts: seq<string>): string {
    if |parts| == 0 then ""
    else if |parts| == 1 then parts[0]
    else parts[0] + "/" + JoinWith(parts[1..])
  }

  /** `str(p)`: "." for the empty relative path. */
  function ToString(p: Path): string {
    var body := JoinWith(p.parts);
    if p.absolute then "/" + body else if body == "" then "." else body
  }

  /** `p.name`: the last component, or "" when there is none. */
  function Name(p: Path): string {
    if p.parts == [] then "" else p.parts[|p.parts| - 1]
  }

  /** `.stem` of a path whose name is `name`: the name without its final suffix, where a
      suffix is a last "." that is neither the name's first nor its last character. */
  function Stem(name: string): (s: string)
    ensures |s| <= |name| && s == name[..|s|]
    ensures s == name || (0 < |s| < |name| - 1 && name[|s|] == '.' && '.' !in name[|s| + 1..])
    ensures '.' !in name ==> s == name
  {
    match LastIndexOf(name, '.')
    case Some(i) => if 0 < i < |name| - 1 then name[..i] else name
    case None => name
  }

  /** `.stem` drops the suffix exactly when there is one: a last "." that is neither the
      name's first nor its last character. With `Stem`'s contract this says that the stem is the
      name cut at that dot. */
  lemma StemDropsSuffix(name: string)
    ensures Stem(name) != name <==>
            exists i :: 0 < i < |name| - 1 && name[i] == '.' && '.' !in name[i + 1..]
  {
    if exists i :: 0 < i < |name| - 1 && name[i] == '.' && '.' !in name[i + 1..] {
      var i :| 0 < i < |name| - 1 && name[i] == '.' && '.' !in name[i + 1..];
      var j := LastIndexOf(name, '.').value;
      LastDot(name, i, j);
    }
  }

  /** Two dots that both have no dot after them are the same dot. */
  lemma LastDot(name: string, i: nat, j: nat)
    requires i < |name| && name[i] == '.' && '.' !in name[i + 1..]
    requires j < |name| && name[j] == '.' && '.' !in name[j + 1..]
    ensures i == j
  {
  }

  /** Appending a plain component with `/` adds exactly that component. */
  lemma JoinComponent(p: Path, c: string)
    requires IsComponent(c)
    ensures Join(p, c) == Path(p.absolute, p.parts + [c])
  {
    assert Split(c) == [c];
    assert Components([c]) == [c];
  }

  lemma {:induction false} JoinWithAppend(parts: seq<string>, c: string)
    requires parts != []
    ensures JoinWith(parts + [c]) == JoinWith(parts) + "/" + c
  {
    if |parts| > 1 {
      assert (parts + [c])[1..] == parts[1..] + [c];
      JoinWithAppend(parts[1..], c);
    }
  }

  lemma JoinWithStart(parts: seq<string>)
    requires parts != [] && parts[0] != ""
    ensures JoinWith(parts) != "" && JoinWith(parts)[0] == parts[0][0]
  {
  }

  /** `str(p / c)` is `str(p)`, a separator and `c`, once `p` has a component. */
  lemma ToStringAppend(p: Path, c: string)
    requires Normal(p) && p.parts != []
    ensures ToString(Path(p.absolute, p.parts + [c])) == ToString(p) + "/" + c
  {
    JoinWithAppend(p.parts, c);
    JoinWithStart(p.parts);
  }

  lemma IndexAfterPiece(a: string, b: string)
    requires '/' !in a
    ensures IndexOf(a + "/" + b, '/') == Some(|a|)
  {
    var s := a + "/" + b;
    assert s[|a|] == '/';
    assert s[..|a|] == a;
  }

  lemma {:induction false} SplitJoinWith(parts: seq<string>)
    requires |parts| >= 1
    requires forall k :: 0 <= k < |parts| ==> '/' !in parts[k]
    ensures Split(JoinWith(parts)) == parts
  {
    if |parts| > 1 {
      var s := JoinWith(parts);
      IndexAfterPiece(parts[0], JoinWith(parts[1..]));
      assert s[..|parts[0]|] == parts[0];
      assert s[|parts[0]| + 1..] == JoinWith(parts[1..]);
      SplitJoinWith(parts[1..]);
    } else {
      assert Split(parts[0]) == [parts[0]];
    }
  }

  lemma {:induction false} ComponentsKeep(parts: seq<string>)
    requires forall k :: 0 <= k < |parts| ==> IsComponent(parts[k]) && '/' !in parts[k]
    ensures Components(parts) == parts
  {
    if parts != [] {
      ComponentsKeep(parts[1..]);
    }
  }

  /** Printing a normal path and parsing the text back gives the same path. */
  lemma ParseToString(p: Path)
    requires Normal(p)
    ensures Parse(ToString(p)) == p
  {
    var body := JoinWith(p.parts);
    if p.parts == [] {
      if p.absolute {
        assert ToString(p) == "/";
        assert Split("/") == ["", ""] by {
          assert IndexOf("/", '/') == Some(0);
          assert "/"[1..] == "";
        }
      } else {
        assert Split(".") == ["."];
      }
    } else {
      SplitJoinWith(p.parts);
      ComponentsKeep(p.parts);
      if p.absolute {
        var s := "/" + body;
        assert IndexOf(s, '/') == Some(0);
        assert s[1..] == body;
        assert Split(s) == [""] + p.parts;
        assert Components([""] + p.parts) == Components(p.parts);
      } else {
        JoinWithStart(p.parts);
      }
    }
  }
}
