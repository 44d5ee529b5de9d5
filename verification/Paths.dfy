/** Slash-separated relative paths: the string operations that the exclusion rules are built from,
    and the vault-path normaliser of `internal/sync/runtime_helpers.go`. */
module Paths {
  import opened Options

  // ----- Strings -------------------------------------------------------------------------------

  predicate HasPrefix(s: string, p: string) { p <= s }

  predicate HasSuffix(s: string, p: string) { |p| <= |s| && s[|s| - |p|..] == p }

  predicate OccursAt(s: string, sub: string, i: nat) {
    i + |sub| <= |s| && s[i..i + |sub|] == sub
  }

  predicate Contains(s: string, sub: string) {
    exists i | 0 <= i <= |s| :: OccursAt(s, sub, i)
  }

  function LowerChar(c: char): char { if 'A' <= c <= 'Z' then c - 'A' + 'a' else c }

  function ToLower(s: string): string { seq(|s|, i requires 0 <= i < |s| => LowerChar(s[i])) }

  function Slashed(s: string): string {
    seq(|s|, i requires 0 <= i < |s| => if s[i] == '\\' then '/' else s[i])
  }

  predicate IsSpace(c: char) {
    c in " \t\n\r\U{000B}\U{000C}\U{0085}\U{00A0}\U{1680}\U{2028}\U{2029}\U{202F}\U{205F}\U{3000}"
    || '\U{2000}' <= c <= '\U{200A}'
  }

  function TrimLeft(s: string): string { if s != "" && IsSpace(s[0]) then TrimLeft(s[1..]) else s }

  function TrimRight(s: string): string {
    if s != "" && IsSpace(s[|s| - 1]) then TrimRight(s[..|s| - 1]) else s
  }

  function TrimSpace(s: string): string { TrimRight(TrimLeft(s)) }

  function TrimSlashes(s: string): string {
    if s != "" && s[|s| - 1] == '/' then TrimSlashes(s[..|s| - 1]) else s
  }

  // ----- Components ----------------------------------------------------------------------------

  function Split(s: string): (parts: seq<string>)
    ensures |parts| >= 1
  {
    if s == "" then [""]
    else
      var rest := Split(s[1..]);
      if s[0] == '/' then [""] + rest else [[s[0]] + rest[0]] + rest[1..]
  }

  function Join(parts: seq<string>): string {
    if parts == [] then "" else if |parts| == 1 then parts[0] else parts[0] + "/" + Join(parts[1..])
  }

  lemma {:induction false} JoinSplit(s: string)
    ensures Join(Split(s)) == s
  {
    if s != "" {
      var rest := Split(s[1..]);
      JoinSplit(s[1..]);
      assert s == [s[0]] + s[1..];
      if s[0] == '/' {
        assert ([""] + rest)[1..] == rest;
      } else {
        assert ([[s[0]] + rest[0]] + rest[1..])[1..] == rest[1..];
      }
    }
  }

  function Prepend(c: char, parts: seq<string>): seq<string>
    requires parts != []
  {
    if c == '/' then [""] + parts else [[c] + parts[0]] + parts[1..]
  }

  lemma SplitCons(c: char, s: string)
    ensures Split([c] + s) == Prepend(c, Split(s))
  {
    assert ([c] + s)[1..] == s;
  }

  lemma PrependConcat(c: char, x: seq<string>, y: seq<string>)
    requires x != []
    ensures Prepend(c, x + y) == Prepend(c, x) + y
  {
    assert (x + y)[1..] == x[1..] + y;
  }

  lemma {:induction false} SplitConcat(a: string, b: string)
    ensures Split(a + "/" + b) == Split(a) + Split(b)
  {
    if a == "" {
      SplitCons('/', b);
      assert a + "/" + b == ['/'] + b;
    } else {
      var c, t := a[0], a[1..];
      SplitConcat(t, b);
      SplitCons(c, t);
      SplitCons(c, t + "/" + b);
      PrependConcat(c, Split(t), Split(b));
      assert a == [c] + t && a + "/" + b == [c] + (t + "/" + b);
    }
  }

  /** `dir` is a proper ancestor directory of `rel`. */
  predicate Ancestor(dir: string, rel: string) {
    |dir| < |rel| && rel[..|dir|] == dir && rel[|dir|] == '/'
  }

  lemma AncestorParts(dir: string, rel: string)
    requires Ancestor(dir, rel)
    ensures rel == dir + "/" + rel[|dir| + 1..]
    ensures Split(rel) == Split(dir) + Split(rel[|dir| + 1..])
  {
    assert rel == dir + "/" + rel[|dir| + 1..];
    SplitConcat(dir, rel[|dir| + 1..]);
  }

  /** `path.Clean` on relative paths: drop empty and `.` components, resolve `..` lexically. */
  function CleanParts(parts: seq<string>, done: seq<string>): seq<string> {
    if parts == [] then done
    else if parts[0] == "" || parts[0] == "." then CleanParts(parts[1..], done)
    else if parts[0] == ".." && done != [] && done[|done| - 1] != ".." then
      CleanParts(parts[1..], done[..|done| - 1])
    else CleanParts(parts[1..], done + [parts[0]])
  }

  function Clean(p: string): string {
    var parts := CleanParts(Split(p), []);
    if parts == [] then "." else Join(parts)
  }

  /** The length of `p` up to and including its last slash. */
  function DirLength(p: string): (n: nat)
    ensures n <= |p|
    ensures n > 0 ==> p[n - 1] == '/'
    ensures forall i | n <= i < |p| :: p[i] != '/'
  {
    if p == "" then 0 else if p[|p| - 1] == '/' then |p| else DirLength(p[..|p| - 1])
  }

  /** `path.Dir`. */
  function Dir(p: string): string { Clean(p[..DirLength(p)]) }

  /** `path.Ext`: from the last dot of the last component. */
  function Ext(p: string): string {
    if p == "" || p[|p| - 1] == '/' then ""
    else if p[|p| - 1] == '.' then "."
    else
      var e := Ext(p[..|p| - 1]);
      if e == "" then "" else e + [p[|p| - 1]]
  }

  // ----- The vault-path normaliser ----------------------------------------------------------------

  /** `normalizeSyncPath`; `None` stands for its errors. */
  function NormalizeSyncPath(raw: string): Option<string> {
    var p := TrimSpace(Slashed(raw));
    if p == "" || HasPrefix(p, "/") then None
    else
      var clean := Clean(p);
      if clean == "." || clean == ".." || HasPrefix(clean, "../") || Contains(clean, "/../") then None
      else Some(clean)
  }

  /** The normaliser leaves the path alone. */
  predicate Normal(p: string) { NormalizeSyncPath(p) == Some(p) }

  predicate ProperPart(part: string) { part != "" && part != "." && part != ".." && '/' !in part }

  /** A component that survives trimming wherever it stands in a path. */
  predicate PlainPart(part: string) {
    ProperPart(part) && '\\' !in part && !IsSpace(part[0]) && !IsSpace(part[|part| - 1])
  }

  predicate PlainPath(p: string) { forall part | part in Split(p) :: PlainPart(part) }

  lemma ProperAncestor(dir: string, rel: string)
    requires Ancestor(dir, rel) && ProperPath(rel)
    ensures ProperPath(dir)
  {
    AncestorParts(dir, rel);
  }

  lemma {:induction false} CleanProper(parts: seq<string>, done: seq<string>)
    requires forall part | part in parts :: ProperPart(part)
    ensures CleanParts(parts, done) == done + parts
  {
    if parts != [] {
      assert ProperPart(parts[0]);
      CleanProper(parts[1..], done + [parts[0]]);
      assert done + [parts[0]] + parts[1..] == done + parts;
    }
  }

  lemma {:induction false} SplitEnds(s: string)
    requires s != ""
    ensures Split(s)[0] != "" ==> Split(s)[0][0] == s[0]
    ensures var last := Split(s)[|Split(s)| - 1]; last != "" ==> last[|last| - 1] == s[|s| - 1]
    ensures s[0] == '/' ==> Split(s)[0] == ""
    ensures s[|s| - 1] == '/' ==> Split(s)[|Split(s)| - 1] == ""
    ensures |s| == |Split(s)[0]| ==> |Split(s)| == 1
  {
    if |s| > 1 {
      SplitEnds(s[1..]);
    } else {
      assert Split("") == [""];
    }
  }

  lemma {:induction false} SplitChars(s: string, c: char)
    requires c in s && c != '/'
    ensures exists part | part in Split(s) :: c in part
  {
    var rest := Split(s[1..]);
    if s[0] == c {
      assert c in Split(s)[0];
    } else {
      SplitChars(s[1..], c);
      var part :| part in rest && c in part;
      if part == rest[0] && s[0] != '/' {
        assert c in Split(s)[0];
      } else {
        assert part in Split(s);
      }
    }
  }

  lemma {:induction false} SplitOne(s: string)
    requires '/' !in s
    ensures Split(s) == [s]
  {
    if s != "" {
      SplitOne(s[1..]);
      assert s == [s[0]] + s[1..];
    }
  }

  lemma NoParentPart(s: string)
    requires ".." !in Split(s)
    ensures s != ".." && !HasPrefix(s, "../") && !Contains(s, "/../")
  {
    SplitOne("..");
    if HasPrefix(s, "../") {
      AncestorParts("..", s);
    }
    if Contains(s, "/../") {
      var i: nat :| i <= |s| && OccursAt(s, "/../", i);
      ParentInside(s, i);
    }
  }

  lemma ParentInside(s: string, i: nat)
    requires i <= |s| && OccursAt(s, "/../", i)
    ensures ".." in Split(s)
  {
    assert "/../"[..3] == "/..";
    var up := s[..i] + "/..";
    assert s[i..i + 4][..3] == s[i..i + 3] == "/..";
    assert s[..i + 3] == s[..i] + s[i..i + 3] == up;
    assert s[i + 3] == s[i..i + 4][3] == '/';
    SplitOne("..");
    SplitConcat(s[..i], "..");
    assert s[..i] + "/" + ".." == up;
    AncestorParts(up, s);
  }

  predicate ProperPath(p: string) { forall part | part in Split(p) :: ProperPart(part) }

  lemma ProperClean(p: string)
    requires ProperPath(p)
    ensures Clean(p) == p && Clean(p + "/") == p
  {
    var parts := Split(p);
    JoinSplit(p);
    CleanProper(parts, []);
    assert [] + parts == parts;
    SplitConcat(p, "");
    assert p + "/" + "" == p + "/";
    CleanTrailing(parts, []);
  }

  lemma PlainEdges(p: string)
    requires PlainPath(p)
    ensures p != "" && p[0] != '/' && TrimSpace(p) == p && Slashed(p) == p
  {
    var parts := Split(p);
    assert PlainPart(parts[0]) && PlainPart(parts[|parts| - 1]);
    assert p == "" ==> parts == [""];
    SplitEnds(p);
    if '\\' in p {
      SplitChars(p, '\\');
    }
  }

  lemma ProperNormal(p: string)
    requires ProperPath(p) && p != "" && p[0] != '/' && TrimSpace(p) == p && Slashed(p) == p
    ensures Normal(p)
  {
    ProperClean(p);
    assert !ProperPart("..") && !ProperPart(".");
    NoParentPart(p);
    SplitOne(".");
    hide Clean, TrimSpace, Slashed, Split, ProperPart, Contains;
  }

  /** Plain paths are left alone by the normaliser. */
  lemma PlainNormal(p: string)
    requires PlainPath(p)
    ensures Normal(p)
  {
    PlainEdges(p);
    ProperNormal(p);
  }

  // ----- What normal paths look like ---------------------------------------------------------------

  lemma {:induction false} SplitPartChars(s: string, part: string, c: char)
    requires part in Split(s) && c in part
    ensures c in s && c != '/'
  {
    if s != "" {
      var rest := Split(s[1..]);
      if part in rest {
        SplitPartChars(s[1..], part, c);
      } else if s[0] != '/' {
        assert part == [s[0]] + rest[0];
        if c != s[0] {
          SplitPartChars(s[1..], rest[0], c);
        }
      }
    }
  }

  lemma {:induction false} SplitJoin(parts: seq<string>)
    requires parts != [] && forall part | part in parts :: '/' !in part
    ensures Split(Join(parts)) == parts
  {
    SplitOne(parts[0]);
    if |parts| > 1 {
      SplitJoin(parts[1..]);
      SplitConcat(parts[0], Join(parts[1..]));
    }
  }

  /** Parents that could not be resolved stand in front. */
  ghost predicate ParentsFirst(parts: seq<string>) {
    forall i | 0 < i < |parts| && parts[i] == ".." :: parts[i - 1] == ".."
  }

  lemma {:induction false} ParentsFirstAt(parts: seq<string>, i: nat)
    requires ParentsFirst(parts) && i < |parts| && parts[i] == ".."
    ensures parts[0] == ".."
  {
    if i > 0 {
      ParentsFirstAt(parts, i - 1);
    }
  }

  lemma ParentInFront(parts: seq<string>)
    requires ParentsFirst(parts)
    ensures ".." in parts ==> Join(parts) == ".." || HasPrefix(Join(parts), "../")
  {
    if ".." in parts {
      var i :| 0 <= i < |parts| && parts[i] == "..";
      ParentsFirstAt(parts, i);
      assert |parts| > 1 ==> Join(parts) == ".." + "/" + Join(parts[1..]);
    }
  }

  lemma {:induction false} CleanKeeps(parts: seq<string>, done: seq<string>)
    requires ParentsFirst(done)
    ensures var r := CleanParts(parts, done);
      ParentsFirst(r) && forall part | part in r :: part in done || (part in parts && part != "" && part != ".")
  {
    if parts != [] {
      if parts[0] == "" || parts[0] == "." {
        CleanKeeps(parts[1..], done);
      } else if parts[0] == ".." && done != [] && done[|done| - 1] != ".." {
        CleanKeeps(parts[1..], done[..|done| - 1]);
      } else {
        CleanKeeps(parts[1..], done + [parts[0]]);
      }
    }
  }

  /** Normal paths consist of proper components, and backslashes are no part of them. */
  lemma NormalProper(p: string)
    requires Normal(p)
    ensures ProperPath(p) && p != "" && Slashed(p) == p
  {
    hide TrimSpace, Contains, Slashed;
    var parts := CleanParts(Split(TrimSpace(Slashed(p))), []);
    CleanKeeps(Split(TrimSpace(Slashed(p))), []);
    assert p == Join(parts) && parts != [];
    PartsPlain(p, parts);
    SplitJoin(parts);
    if '\\' in p {
      SplitChars(p, '\\');
    }
    assert p == "" ==> Split(p) == [""] && "" in parts;
    ParentInFront(parts);
    NoBackslash(p);
  }

  lemma PartsPlain(p: string, parts: seq<string>)
    requires forall part | part in parts :: part in Split(TrimSpace(Slashed(p)))
    ensures forall part | part in parts :: '/' !in part && '\\' !in part
  {
    hide TrimSpace;
    forall part | part in parts ensures '/' !in part && '\\' !in part {
      if '/' in part {
        SplitPartChars(TrimSpace(Slashed(p)), part, '/');
      }
      if '\\' in part {
        SplitPartChars(TrimSpace(Slashed(p)), part, '\\');
        Trimmed(Slashed(p), '\\');
      }
    }
  }

  lemma NoBackslash(p: string)
    requires '\\' !in p
    ensures Slashed(p) == p
  {
  }

  lemma {:induction false} TrimmedLeft(s: string, c: char)
    requires c in TrimLeft(s)
    ensures c in s
  {
    if s != "" && IsSpace(s[0]) {
      TrimmedLeft(s[1..], c);
    }
  }

  lemma {:induction false} TrimmedRight(s: string, c: char)
    requires c in TrimRight(s)
    ensures c in s
  {
    if s != "" && IsSpace(s[|s| - 1]) {
      TrimmedRight(s[..|s| - 1], c);
    }
  }

  lemma Trimmed(s: string, c: char)
    requires c in TrimSpace(s)
    ensures c in s
  {
    TrimmedRight(TrimLeft(s), c);
    TrimmedLeft(s, c);
  }

  predicate Blank(gap: string) { forall c | c in gap :: IsSpace(c) }

  lemma {:induction false} TrimLeftGap(s: string, gap: string)
    requires Blank(gap)
    ensures TrimLeft(s + gap) == if TrimLeft(s) == "" then "" else TrimLeft(s) + gap
  {
    hide IsSpace;
    if s != "" {
      assert s + gap == [s[0]] + (s[1..] + gap) && (s + gap)[1..] == s[1..] + gap;
      if IsSpace(s[0]) {
        TrimLeftGap(s[1..], gap);
      }
    } else {
      assert s + gap == gap;
      if gap != "" {
        assert IsSpace(gap[0]);
        TrimLeftGap("", gap[1..]);
        assert "" + gap[1..] == gap[1..];
      }
    }
  }

  lemma {:induction false} TrimRightGap(s: string, gap: string)
    requires Blank(gap)
    ensures TrimRight(s + gap) == TrimRight(s)
  {
    hide IsSpace;
    if gap == "" {
      assert s + gap == s;
    } else {
      var n := |gap| - 1;
      assert IsSpace(gap[n]);
      assert (s + gap)[..|s| + n] == s + gap[..n] && (s + gap)[|s| + n] == gap[n];
      TrimRightGap(s, gap[..n]);
    }
  }

  lemma GapSlashed(p: string, gap: string)
    requires Blank(gap)
    ensures Slashed(p + gap) == Slashed(p) + gap
  {
    assert !IsSpace('\\');
    hide IsSpace;
    forall i | 0 <= i < |gap| ensures gap[i] != '\\' {
      assert gap[i] in gap;
    }
  }

  /** White space at the end of a path is lost on the normaliser. */
  lemma GapLost(p: string, gap: string)
    requires Blank(gap)
    ensures NormalizeSyncPath(p + gap) == NormalizeSyncPath(p)
  {
    GapSlashed(p, gap);
    TrimLeftGap(Slashed(p), gap);
    TrimRightGap(TrimLeft(Slashed(p)), gap);
    hide Slashed, TrimLeft, TrimRight, Clean, Contains;
  }

  lemma {:induction false} CleanTrailing(parts: seq<string>, done: seq<string>)
    requires forall part | part in parts :: ProperPart(part)
    ensures CleanParts(parts + [""], done) == done + parts
  {
    if parts == [] {
      assert [""][1..] == [];
    } else {
      assert ProperPart(parts[0]) && (parts + [""])[1..] == parts[1..] + [""];
      CleanTrailing(parts[1..], done + [parts[0]]);
      assert done + [parts[0]] + parts[1..] == done + parts;
    }
  }

  // ----- What the normaliser does --------------------------------------------------------------------

  lemma {:induction false} CleanAppend(x: seq<string>, y: seq<string>, done: seq<string>)
    ensures CleanParts(x + y, done) == CleanParts(y, CleanParts(x, done))
  {
    if x == [] {
      assert x + y == y;
    } else {
      assert (x + y)[1..] == x[1..] + y;
      if x[0] == "" || x[0] == "." {
        CleanAppend(x[1..], y, done);
      } else if x[0] == ".." && done != [] && done[|done| - 1] != ".." {
        CleanAppend(x[1..], y, done[..|done| - 1]);
      } else {
        CleanAppend(x[1..], y, done + [x[0]]);
      }
    }
  }

  lemma CleanMiddle(x: seq<string>, mid: seq<string>, y: seq<string>)
    ensures CleanParts(x + mid + y, []) == CleanParts(y, CleanParts(mid, CleanParts(x, [])))
  {
    CleanAppend(x + mid, y, []);
    CleanAppend(x, mid, []);
  }

  lemma CleansAway(name: string, d: seq<string>)
    requires ProperPart(name)
    ensures CleanParts([""], d) == CleanParts(["."], d) == CleanParts([name, ".."], d) == d
  {
    assert [""][1..] == [] && ["."][1..] == [] && [name, ".."][1..] == [".."] && [".."][1..] == [];
    assert (d + [name])[..|d|] == d;
  }

  /** Empty components, dots, and a name followed by two dots can be left out anywhere in a path; together with
      `CleanProper` this says what a cleaned path is. */
  lemma CleanRewrites(x: seq<string>, name: string, y: seq<string>)
    requires ProperPart(name)
    ensures CleanParts(x + [""] + y, []) == CleanParts(x + ["."] + y, []) == CleanParts(x + y, [])
    ensures CleanParts(x + [name, ".."] + y, []) == CleanParts(x + y, [])
  {
    hide CleanParts, ProperPart;
    CleansAway(name, CleanParts(x, []));
    CleanMiddle(x, [""], y);
    CleanMiddle(x, ["."], y);
    CleanMiddle(x, [name, ".."], y);
    CleanAppend(x, y, []);
  }

  /** The normaliser fails exactly if nothing is left, the path is absolute, or it leads out of the vault;
      otherwise what is left of the components stays inside. */
  lemma NormalizeExactly(raw: string)
    ensures var p := TrimSpace(Slashed(raw)); var parts := CleanParts(Split(p), []);
      NormalizeSyncPath(raw) ==
        if p == "" || p[0] == '/' || parts == [] || parts[0] == ".." then None else Some(Join(parts))
    ensures NormalizeSyncPath(raw).Some? ==> ProperPath(NormalizeSyncPath(raw).value)
  {
    hide TrimSpace, Contains, Slashed;
    var p := TrimSpace(Slashed(raw));
    var parts := CleanParts(Split(p), []);
    CleanKeeps(Split(p), []);
    PartsPlain(raw, parts);
    if parts != [] {
      SplitJoin(parts);
      if ".." in parts {
        ParentInFront(parts);
        var i :| 0 <= i < |parts| && parts[i] == "..";
        ParentsFirstAt(parts, i);
      } else {
        NoParentPart(Join(parts));
        NotDot(parts);
      }
    }
  }

  lemma NotDot(parts: seq<string>)
    requires parts != [] && Split(Join(parts)) == parts && "." !in parts
    ensures Join(parts) != "."
  {
    SplitOne(".");
  }
}
