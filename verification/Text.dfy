// Strings as the source languages handle them: prefixes, suffixes, trimming and
// the '/' separator.  Only what the other modules share lives here.
module Text {

  predicate HasSuffix(s: string, t: string) {
    |t| <= |s| && s[|s| - |t|..] == t
  }

  // The white space String.prototype.trim removes.
  predicate IsJsSpace(c: char) {
    '\t' <= c <= '\r' || c == ' ' || c == '\U{a0}' || c == '\U{1680}' || '\U{2000}' <= c <= '\U{200a}'
    || c == '\U{2028}' || c == '\U{2029}' || c == '\U{202f}' || c == '\U{205f}' || c == '\U{3000}' || c == '\U{feff}'
  }

  // The white space Go's strings.TrimSpace removes.
  predicate IsGoSpace(c: char) {
    '\t' <= c <= '\r' || c == ' ' || c == '\U{85}' || c == '\U{a0}' || c == '\U{1680}' || '\U{2000}' <= c <= '\U{200a}'
    || c == '\U{2028}' || c == '\U{2029}' || c == '\U{202f}' || c == '\U{205f}' || c == '\U{3000}'
  }

  // The white space str.strip removes.
  predicate IsPySpace(c: char) {
    IsGoSpace(c) || '\U{1c}' <= c <= '\U{1f}'
  }

  function TrimLeft(s: string, cut: char -> bool): (r: string)
    ensures r == s || (s != [] && cut(s[0]))
    ensures r != [] ==> !cut(r[0])
  {
    if s != [] && cut(s[0]) then TrimLeft(s[1..], cut) else s
  }

  function TrimRight(s: string, cut: char -> bool): (r: string)
    ensures r <= s
    ensures r == s || (s != [] && cut(s[|s| - 1]))
    ensures r != [] ==> !cut(r[|r| - 1])
  {
    if s != [] && cut(s[|s| - 1]) then TrimRight(s[..|s| - 1], cut) else s
  }

  function Trim(s: string, cut: char -> bool): (r: string)
    ensures r != [] ==> !cut(r[0]) && !cut(r[|r| - 1])
    ensures s != [] && !cut(s[0]) && !cut(s[|s| - 1]) ==> r == s
  {
    TrimRight(TrimLeft(s, cut), cut)
  }

  ghost predicate AllCut(s: string, cut: char -> bool) {
    forall c :: c in s ==> cut(c)
  }

  lemma {:induction false} TrimLeftSkips(left: string, s: string, cut: char -> bool)
    requires AllCut(left, cut)
    ensures TrimLeft(left + s, cut) == TrimLeft(s, cut)
  {
    if left != "" {
      assert (left + s)[1..] == left[1..] + s && left[0] in left;
      TrimLeftSkips(left[1..], s, cut);
    } else {
      assert left + s == s;
    }
  }

  lemma {:induction false} TrimRightSkips(s: string, right: string, cut: char -> bool)
    requires AllCut(right, cut)
    ensures TrimRight(s + right, cut) == TrimRight(s, cut)
    decreases |right|
  {
    if right != "" {
      var n := |right| - 1;
      assert (s + right)[..|s + right| - 1] == s + right[..n] && right[n] in right;
      TrimRightSkips(s, right[..n], cut);
    } else {
      assert s + right == s;
    }
  }

  lemma {:induction false} TrimLeftKeeps(s: string, right: string, cut: char -> bool)
    requires AllCut(right, cut)
    ensures if TrimLeft(s, cut) == "" then TrimLeft(s + right, cut) == ""
            else TrimLeft(s + right, cut) == TrimLeft(s, cut) + right
  {
    if s != "" {
      assert (s + right)[0] == s[0] && (s + right)[1..] == s[1..] + right;
      TrimLeftKeeps(s[1..], right, cut);
    } else {
      TrimLeftSkips(right, "", cut);
      assert s + right == right == right + "";
    }
  }

  // What is cut at the ends makes no difference.
  lemma TrimSkips(left: string, s: string, right: string, cut: char -> bool)
    requires AllCut(left, cut) && AllCut(right, cut)
    ensures Trim(left + s + right, cut) == Trim(s, cut)
    ensures Trim("", cut) == ""
  {
    assert left + s + right == left + (s + right);
    TrimLeftSkips(left, s + right, cut);
    TrimLeftKeeps(s, right, cut);
    TrimRightSkips(TrimLeft(s, cut), right, cut);
  }

  predicate IsSlash(c: char) {
    c == '/'
  }

  function JsTrim(s: string): string {
    Trim(s, IsJsSpace)
  }

  function GoTrim(s: string): string {
    Trim(s, IsGoSpace)
  }

  function PyStrip(s: string): string {
    Trim(s, IsPySpace)
  }

  // Nothing but white space, the test strings.TrimSpace(s) == "".
  predicate IsBlank(s: string) {
    GoTrim(s) == ""
  }

  // The test both trees make for "this folder or something below it".
  predicate At(file: string, path: string) {
    file == path || path + "/" <= file
  }

  // What stands before the first '/'.
  function FirstSegment(s: string): (r: string)
    ensures '/' !in r
  {
    if s == "" || s[0] == '/' then "" else [s[0]] + FirstSegment(s[1..])
  }

  lemma {:induction false} FirstSegmentOf(name: string, rest: string)
    requires '/' !in name
    ensures FirstSegment(name) == FirstSegment(name + "/" + rest) == name
  {
    var whole := name + "/" + rest;
    if name == "" {
      assert whole[0] == '/';
    } else {
      FirstSegmentOf(name[1..], rest);
      assert whole[1..] == name[1..] + "/" + rest && whole[0] == name[0] && name[0] in name;
      assert [name[0]] + name[1..] == name;
    }
  }

  // Inside one directory, with prefix p, the name that leads to a file is unique.
  lemma NameOf(p: string, name: string, file: string)
    requires '/' !in name && At(file, p + name)
    ensures p <= file && FirstSegment(file[|p|..]) == name
  {
    if file == p + name {
      FirstSegmentOf(name, "");
      assert file[|p|..] == name;
    } else {
      var rest := file[|p| + |name| + 1..];
      FirstSegmentOf(name, rest);
      assert file == p + name + "/" + rest;
      assert file[|p|..] == name + "/" + rest;
    }
  }

  // ------------------------------------------------------------ splitting at '/'

  // s.split('/'), strings.Split(s, "/"): never empty, no part holds a '/'.
  function Split(s: string): (parts: seq<string>)
    ensures parts != []
    ensures forall i :: 0 <= i < |parts| ==> '/' !in parts[i]
  {
    if s == "" then [""]
    else
      var rest := Split(s[1..]);
      if s[0] == '/' then [""] + rest else [[s[0]] + rest[0]] + rest[1..]
  }

  function Join(parts: seq<string>): string {
    if parts == [] then ""
    else if |parts| == 1 then parts[0]
    else parts[0] + "/" + Join(parts[1..])
  }

  lemma {:induction false} SplitJoin(parts: seq<string>)
    requires parts != [] && forall i :: 0 <= i < |parts| ==> '/' !in parts[i]
    ensures Split(Join(parts)) == parts
  {
    if |parts| == 1 {
      SplitName(parts[0], "", false);
    } else {
      SplitJoin(parts[1..]);
      SplitName(parts[0], Join(parts[1..]), true);
      assert parts == [parts[0]] + parts[1..];
    }
  }

  lemma {:induction false} SplitName(name: string, rest: string, more: bool)
    requires '/' !in name
    ensures Split(if more then name + "/" + rest else name) == if more then [name] + Split(rest) else [name]
  {
    var s := if more then name + "/" + rest else name;
    if name != "" {
      SplitName(name[1..], rest, more);
      assert s[1..] == if more then name[1..] + "/" + rest else name[1..];
      assert [name[0]] + name[1..] == name && s[0] == name[0];
      var tail := Split(s[1..]);
      assert tail == [name[1..]] + tail[1..];
    } else if more {
      assert s[1..] == rest;
    }
  }

  // parts.filter(Boolean)
  function NonEmpty(parts: seq<string>): (r: seq<string>)
    ensures forall i :: 0 <= i < |r| ==> r[i] != "" && r[i] in parts
    ensures (forall i :: 0 <= i < |parts| ==> parts[i] != "") ==> r == parts
  {
    if parts == [] then []
    else (if parts[0] == "" then [] else [parts[0]]) + NonEmpty(parts[1..])
  }
}
