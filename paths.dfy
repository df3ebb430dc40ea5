/** The part of POSIX `pathlib` the server relies on: building a path from a
    string (`Path(s)`), printing it (`str(p)`), and the `name`, `suffix` and
    `parent` of a path. A path is its root ("", "/" or "//") and its list of
    components; parsing drops empty and "." components, as `pathlib` does. */
module Paths {

  datatype Path = Path(root: string, parts: seq<string>)

  /** A component `pathlib` keeps after parsing. */
  predicate ValidPart(s: string) {
    s != "" && s != "." && '/' !in s
  }

  /** The paths that `Path(s)` can produce. */
  predicate WellFormed(p: Path) {
    && (p.root == "" || p.root == "/" || p.root == "//")
    && forall i :: 0 <= i < |p.parts| ==> ValidPart(p.parts[i])
  }

  /** `"/".join(parts)`. */
  function Join(parts: seq<string>): string {
    if parts == [] then ""
    else if |parts| == 1 then parts[0]
    else parts[0] + "/" + Join(parts[1..])
  }

  /** `s.split("/")`: the pieces between separators, always at least one. */
  function Split(s: string): (pieces: seq<string>)
    ensures |pieces| >= 1
    ensures forall i :: 0 <= i < |pieces| ==> '/' !in pieces[i]
  {
    if s == [] then [""]
    else if s[0] == '/' then [""] + Split(s[1..])
    else
      var rest := Split(s[1..]);
      [[s[0]] + rest[0]] + rest[1..]
  }

  /** The pieces `pathlib` keeps: neither empty nor ".". */
  function Keep(pieces: seq<string>): (kept: seq<string>)
    ensures (forall i :: 0 <= i < |pieces| ==> '/' !in pieces[i]) ==>
              forall i :: 0 <= i < |kept| ==> ValidPart(kept[i])
  {
    if pieces == [] then []
    else (if pieces[0] != "" && pieces[0] != "." then [pieces[0]] else []) + Keep(pieces[1..])
  }

  /** `posixpath.splitroot` without the drive: exactly two leading slashes
      are kept as the root "//", one or three and more become "/". */
  function SplitRoot(s: string): (string, string) {
    if |s| == 0 || s[0] != '/' then ("", s)
    else if |s| == 1 || s[1] != '/' || (|s| >= 3 && s[2] == '/') then ("/", s[1..])
    else ("//", s[2..])
  }

  /** `Path(s)`. */
  function ParsePath(s: string): (p: Path)
    ensures WellFormed(p)
  {
    var (root, rest) := SplitRoot(s);
    Path(root, Keep(Split(rest)))
  }

  /** `str(p)`: the root followed by the joined components, or "." for the
      empty relative path. */
  function Text(p: Path): string {
    if p.root == "" && p.parts == [] then "." else p.root + Join(p.parts)
  }

  /** `p.name`: the last component, or "" when there is none. */
  function Name(p: Path): string {
    if p.parts == [] then "" else p.parts[|p.parts| - 1]
  }

  /** `p.parent`: the path without its last component; a path without
      components is its own parent. */
  function Parent(p: Path): (q: Path)
    ensures WellFormed(p) ==> WellFormed(q)
  {
    if p.parts == [] then p else Path(p.root, p.parts[..|p.parts| - 1])
  }

  /** `s.rfind(c)`: the index of the last occurrence of `c`, or -1. */
  function RFind(s: string, c: char): (i: int)
    ensures -1 <= i < |s|
    ensures i == -1 <==> c !in s
    ensures i >= 0 ==> s[i] == c && forall j :: i < j < |s| ==> s[j] != c
  {
    if s == [] then -1
    else if s[|s| - 1] == c then |s| - 1
    else RFind(s[..|s| - 1], c)
  }

  /** `PurePath.suffix` applied to a name: from the last dot on, unless that
      dot is the first or the last character. */
  function Suffix(name: string): string {
    var i := RFind(name, '.');
    if 0 < i < |name| - 1 then name[i..] else ""
  }

  /** `str.lower` for ASCII letters; other characters are left alone. */
  function Lower(c: char): char {
    if 'A' <= c <= 'Z' then (c as int - 'A' as int + 'a' as int) as char else c
  }

  function ToLower(s: string): (r: string)
    ensures |r| == |s|
    ensures forall i :: 0 <= i < |s| ==> r[i] == Lower(s[i])
  {
    if s == [] then [] else [Lower(s[0])] + ToLower(s[1..])
  }

  /** `p.suffix.lower() == ".pdf"`. */
  predicate IsPdf(p: Path) {
    ToLower(Suffix(Name(p))) == ".pdf"
  }

  // ---------------------------------------------------------------------
  // Parsing and printing

  lemma {:induction false} SplitPrefix(a: string, rest: string)
    requires '/' !in a
    ensures Split(a + rest) == [a + Split(rest)[0]] + Split(rest)[1..]
  {
    if a != [] {
      assert (a + rest)[0] == a[0];
      assert (a + rest)[1..] == a[1..] + rest;
      SplitPrefix(a[1..], rest);
      assert [a[0]] + (a[1..] + Split(rest)[0]) == a + Split(rest)[0];
    } else {
      assert a + rest == rest;
      assert a + Split(rest)[0] == Split(rest)[0];
      assert Split(rest) == [Split(rest)[0]] + Split(rest)[1..];
    }
  }

  lemma {:induction false} SplitJoin(parts: seq<string>)
    requires |parts| >= 1
    requires forall i :: 0 <= i < |parts| ==> '/' !in parts[i]
    ensures Split(Join(parts)) == parts
  {
    if |parts| == 1 {
      SplitPrefix(parts[0], "");
      assert parts[0] + "" == parts[0];
    } else {
      var tail := Join(parts[1..]);
      SplitJoin(parts[1..]);
      assert Join(parts) == parts[0] + ("/" + tail);
      SplitPrefix(parts[0], "/" + tail);
      assert ("/" + tail)[1..] == tail;
      assert Split("/" + tail) == [""] + Split(tail);
      assert parts[0] + "" == parts[0];
      assert parts == [parts[0]] + parts[1..];
    }
  }

  lemma {:induction false} KeepValid(parts: seq<string>)
    requires forall i :: 0 <= i < |parts| ==> ValidPart(parts[i])
    ensures Keep(parts) == parts
  {
    if parts != [] {
      KeepValid(parts[1..]);
      assert parts == [parts[0]] + parts[1..];
    }
  }

  lemma JoinStart(parts: seq<string>)
    requires |parts| >= 1 && forall i :: 0 <= i < |parts| ==> ValidPart(parts[i])
    ensures |Join(parts)| >= 1 && Join(parts)[0] != '/'
  {
    assert ValidPart(parts[0]);
  }

  /** Printing a path and parsing the text back gives the same path. */
  lemma ParseText(p: Path)
    requires WellFormed(p)
    ensures ParsePath(Text(p)) == p
  {
    if p.parts == [] {
      assert Keep(Split("")) == [];
      if p.root == "" {
        assert Keep(Split(".")) == [];
      } else {
        assert SplitRoot(Text(p)) == (p.root, "");
      }
    } else {
      JoinStart(p.parts);
      var j := Join(p.parts);
      assert SplitRoot(Text(p)) == (p.root, j) by {
        var t := Text(p);
        assert t == p.root + j;
        if p.root == "/" {
          assert t[1] == j[0] && t[1..] == j;
        } else if p.root == "//" {
          assert t[2] == j[0] && t[2..] == j;
        } else {
          assert t == j;
        }
      }
      SplitJoin(p.parts);
      KeepValid(p.parts);
    }
  }

  /** `Path(str(Path(s)))` is `Path(s)`: printing a parsed path normalises it
      once and for all. */
  lemma ParseIdempotent(s: string)
    ensures ParsePath(Text(ParsePath(s))) == ParsePath(s)
  {
    ParseText(ParsePath(s));
  }

  // ---------------------------------------------------------------------
  // The PDF test

  lemma LowerIs(c: char, d: char)
    requires d == '.' || ('a' <= d <= 'z')
    ensures Lower(c) == d <==> (c == d || ('a' <= d <= 'z' && c as int == d as int - 32))
  {
  }

  /** A path is taken for a PDF exactly when its name has at least one
      character before a final ".pdf", compared case-insensitively; a file
      named ".pdf" alone is not one. */
  lemma IsPdfCharacterization(p: Path)
    ensures IsPdf(p) <==> var n := Name(p); |n| >= 5 && ToLower(n[|n| - 4..]) == ".pdf"
  {
    var n := Name(p);
    var i := RFind(n, '.');
    if IsPdf(p) {
      var suffix := Suffix(n);
      assert |suffix| == 4;
      assert 0 < i < |n| - 1 && suffix == n[i..];
    }
    if |n| >= 5 && ToLower(n[|n| - 4..]) == ".pdf" {
      var tail := n[|n| - 4..];
      assert ToLower(tail)[0] == '.' && ToLower(tail)[1] == 'p';
      assert ToLower(tail)[2] == 'd' && ToLower(tail)[3] == 'f';
      LowerIs(tail[0], '.');
      assert n[|n| - 4] == '.';
      assert forall j :: |n| - 4 < j < |n| ==> n[j] != '.' by {
        forall j | |n| - 4 < j < |n| ensures n[j] != '.' {
          assert n[j] == tail[j - (|n| - 4)];
          assert Lower(tail[j - (|n| - 4)]) != '.';
        }
      }
      assert i == |n| - 4;
    }
  }
}
