/** How a path text is resolved under the workspace (agentlib/patch_executor.py), for POSIX paths without
    symbolic links. */
module WorkspacePaths {
  import opened PyText

  /** The components of a path text: the pieces between slashes. */
  function Split(s: string): (r: seq<string>)
    ensures r != []
  {
    if s == "" then [""]
    else
      var rest := Split(s[1..]);
      if s[0] == '/' then [""] + rest else [[s[0]] + rest[0]] + rest[1..]
  }

  /** `..` is resolved, `.` and empty components are dropped. */
  function Normal(base: seq<string>, parts: seq<string>): seq<string>
    decreases |parts|
  {
    if parts == [] then base
    else if parts[0] == "" || parts[0] == "." then Normal(base, parts[1..])
    else if parts[0] == ".." then Normal(if base == [] then [] else base[..|base| - 1], parts[1..])
    else Normal(base + [parts[0]], parts[1..])
  }

  /** The text of an absolute, normalised path. */
  function Text(parts: seq<string>): string {
    if |parts| == 0 then "/" else if |parts| == 1 then "/" + parts[0] else "/" + parts[0] + Text(parts[1..])
  }

  predicate Clean(part: string) {
    part != "" && part != "." && part != ".." && '/' !in part
  }

  predicate AllClean(parts: seq<string>) {
    forall part :: part in parts ==> Clean(part)
  }

  /** `_resolve_under_workspace`: the absolute path, if it lies in the workspace `ws`. */
  function Resolve(ws: seq<string>, text: string): Option<string> {
    var t := Strip(text);
    var parts := Normal(if t != "" && t[0] == '/' then [] else ws, Split(t));
    if ws <= parts then Some(Text(parts)) else None
  }

  /* ---- a resolved path resolves to itself exactly if it does not end in a blank ---- */

  lemma {:induction false} SplitPieces(s: string)
    ensures forall part :: part in Split(s) ==> '/' !in part
  {
    if s != "" {
      SplitPieces(s[1..]);
    }
  }

  lemma {:induction false} SplitOne(part: string, rest: string)
    requires '/' !in part
    ensures Split(part + "/" + rest) == [part] + Split(rest)
    ensures Split(part) == [part]
  {
    if part != "" {
      SplitOne(part[1..], rest);
      var s := part + "/" + rest;
      assert s[1..] == part[1..] + "/" + rest && s[0] == part[0];
      assert [part[0]] + part[1..] == part;
    } else {
      var s := part + "/" + rest;
      assert s[1..] == rest && s[0] == '/';
    }
  }

  lemma {:induction false} SplitText(parts: seq<string>)
    requires parts != [] && forall part :: part in parts ==> '/' !in part
    ensures Split(Text(parts)) == [""] + parts
  {
    var s := Text(parts);
    if |parts| == 1 {
      assert s[1..] == parts[0];
      SplitOne(parts[0], "");
      assert parts == [parts[0]];
    } else {
      SplitText(parts[1..]);
      var tail := Text(parts[1..]);
      assert tail == "/" + tail[1..] && s[1..] == parts[0] + "/" + tail[1..];
      SplitOne(parts[0], tail[1..]);
      assert Split(tail)[1..] == Split(tail[1..]) && ([""] + parts[1..])[1..] == parts[1..];
      assert parts == [parts[0]] + parts[1..];
    }
  }

  lemma {:induction false} NormalClean(base: seq<string>, parts: seq<string>)
    requires AllClean(base) && forall part :: part in parts ==> '/' !in part
    ensures AllClean(Normal(base, parts))
    decreases |parts|
  {
    if parts != [] {
      var next := if parts[0] == "" || parts[0] == "." then base
                  else if parts[0] == ".." then (if base == [] then [] else base[..|base| - 1])
                  else base + [parts[0]];
      NormalClean(next, parts[1..]);
    }
  }

  lemma {:induction false} NormalOfClean(base: seq<string>, parts: seq<string>, rest: seq<string>)
    requires AllClean(parts)
    ensures Normal(base, parts + rest) == Normal(base + parts, rest)
    decreases |parts|
  {
    if parts == [] {
      assert base + parts == base && parts + rest == rest;
    } else {
      assert Clean(parts[0]);
      NormalOfClean(base + [parts[0]], parts[1..], rest);
      assert base + [parts[0]] + parts[1..] == base + parts;
      assert (parts + rest)[1..] == parts[1..] + rest;
    }
  }

  function TotalLength(parts: seq<string>): nat {
    if parts == [] then 0 else |parts[0]| + 1 + TotalLength(parts[1..])
  }

  lemma {:induction false} TotalLengthSnoc(parts: seq<string>, part: string)
    ensures TotalLength(parts + [part]) == TotalLength(parts) + |part| + 1
  {
    if parts != [] {
      TotalLengthSnoc(parts[1..], part);
      assert (parts + [part])[1..] == parts[1..] + [part];
    }
  }

  lemma {:induction false} NormalShrinks(base: seq<string>, parts: seq<string>)
    ensures TotalLength(Normal(base, parts)) <= TotalLength(base) + TotalLength(parts)
    decreases |parts|
  {
    if parts != [] {
      if parts[0] == "" || parts[0] == "." {
        NormalShrinks(base, parts[1..]);
      } else if parts[0] == ".." {
        if base != [] {
          TotalLengthSnoc(base[..|base| - 1], base[|base| - 1]);
          assert base == base[..|base| - 1] + [base[|base| - 1]];
        }
        NormalShrinks(if base == [] then [] else base[..|base| - 1], parts[1..]);
      } else {
        TotalLengthSnoc(base, parts[0]);
        NormalShrinks(base + [parts[0]], parts[1..]);
      }
    }
  }

  lemma {:induction false} SplitLength(s: string)
    ensures TotalLength(Split(s)) == |s| + 1
  {
    if s != "" {
      SplitLength(s[1..]);
      var rest := Split(s[1..]);
      if s[0] == '/' {
        assert Split(s)[1..] == rest;
      } else {
        assert Split(s)[1..] == rest[1..];
      }
    }
  }

  lemma {:induction false} TextLength(parts: seq<string>)
    ensures |Text(parts)| == if parts == [] then 1 else TotalLength(parts)
  {
    if |parts| > 1 {
      TextLength(parts[1..]);
    }
  }

  lemma {:induction false} ResolvedParts(ws: seq<string>, text: string) returns (parts: seq<string>)
    requires AllClean(ws) && Resolve(ws, text).Some?
    ensures AllClean(parts) && ws <= parts && Resolve(ws, text).value == Text(parts)
  {
    var t := Strip(text);
    var base := if t != "" && t[0] == '/' then [] else ws;
    parts := Normal(base, Split(t));
    SplitPieces(t);
    NormalClean(base, Split(t));
  }

  lemma {:induction false} StripShorter(s: string)
    ensures |Strip(s)| <= |s| && (|Strip(s)| == |s| ==> Strip(s) == s)
  {
    LStripShorter(s);
  }

  lemma {:induction false} LStripShorter(s: string)
    ensures |LStrip(s)| <= |s| && (|LStrip(s)| == |s| ==> LStrip(s) == s)
  {
    if s != "" && IsSpace(s[0]) {
      LStripShorter(s[1..]);
    }
  }

  /** Resolving what was resolved before gives the same path exactly if that path has no trailing blank, which
      `strip` would take off. */
  lemma {:induction false} ResolvedAgain(ws: seq<string>, text: string)
    requires AllClean(ws) && Resolve(ws, text).Some?
    ensures var p := Resolve(ws, text).value; Resolve(ws, p) == Some(p) <==> Strip(p) == p
  {
    var p := Resolve(ws, text).value;
    var parts := ResolvedParts(ws, text);
    var t := Strip(p);
    assert p[0] == '/' && LStrip(p) == p;
    if t == p {
      if parts != [] {
        SplitText(parts);
        NormalOfText(parts, []);
      } else {
        assert Split("/") == ["", ""] && ["", ""][1..] == [""] && [""][1..] == [];
        assert Normal([], ["", ""]) == [];
      }
    } else {
      StripShorter(p);
      ShorterResolution(ws, p);
    }
  }

  lemma {:induction false} ShorterResolution(ws: seq<string>, p: string)
    requires p != "" && p[0] == '/' && LStrip(p) == p && |Strip(p)| < |p|
    ensures Resolve(ws, p) != Some(p)
  {
    var t := Strip(p);
    assert t != "" && t[0] == '/' by { SlashStays(p); }
    var parts := Normal([], Split(t));
    var rest := Split(t[1..]);
    assert Split(t) == [""] + rest;
    assert ([""] + rest)[1..] == rest;
    assert parts == Normal([], rest);
    NormalShrinks([], rest);
    SplitLength(t[1..]);
    TextLength(parts);
  }

  lemma {:induction false} SlashStays(s: string)
    requires s != "" && s[0] == '/'
    ensures RStrip(s) != "" && RStrip(s)[0] == '/'
  {
    if IsSpace(s[|s| - 1]) {
      SlashStays(s[..|s| - 1]);
    }
  }

  lemma {:induction false} TextEnds(parts: seq<string>)
    requires parts != [] && parts[|parts| - 1] != ""
    ensures var last := parts[|parts| - 1]; var t := Text(parts); t[|t| - 1] == last[|last| - 1]
  {
    if |parts| > 1 {
      TextEnds(parts[1..]);
    }
  }

  /** A name without blanks at its ends. */
  predicate Plain(name: string) {
    Clean(name) && !IsSpace(name[0]) && !IsSpace(name[|name| - 1])
  }

  /** Paths that resolve differently the second time exist in every workspace: "name /." is one. */
  lemma {:induction false} TrailingBlankPath(ws: seq<string>, name: string)
    requires AllClean(ws) && name != "" && !IsSpace(name[0]) && '/' !in name
    ensures var p := Text(ws + [name + " "]);
            Resolve(ws, name + " /.") == Some(p) && Resolve(ws, p) != Some(p)
  {
    var t := name + " " + "/" + ".";
    assert t == name + " /." && LStrip(t) == t && RStrip(t) == t;
    SplitOne(name + " ", ".");
    SplitOne(".", "");
    var parts := [name + " ", "."];
    assert Split(t) == parts && parts[1..] == ["."] && ["."][1..] == [];
    assert Normal(ws, parts) == ws + [name + " "];
    var p := Text(ws + [name + " "]);
    TextEnds(ws + [name + " "]);
    StripStops(p);
    ResolvedAgain(ws, t);
  }

  /** The second time, the trailing blank of such a path is lost. */
  lemma {:induction false} TrailingBlankLost(ws: seq<string>, name: string)
    requires AllClean(ws) && Plain(name)
    ensures Resolve(ws, Text(ws + [name + " "])) == Some(Text(ws + [name]))
    ensures Resolve(ws, Text(ws + [name])) == Some(Text(ws + [name]))
    ensures Text(ws + [name + " "]) != Text(ws + [name])
  {
    var q, r := Text(ws + [name + " "]), Text(ws + [name]);
    TextSnoc(ws, name);
    TextEnds(ws + [name]);
    StripLast(r);
    CleanResolves(ws, ws + [name]);
  }

  lemma {:induction false} StripLast(r: string)
    requires r != "" && !IsSpace(r[0]) && !IsSpace(r[|r| - 1])
    ensures Strip(r + " ") == r && Strip(r) == r
  {
    var q := r + " ";
    assert LStrip(q) == q && LStrip(r) == r && RStrip(r) == r;
    assert IsSpace(' ') && q[|q| - 1] == ' ' && q[..|q| - 1] == r;
    assert RStrip(q) == RStrip(q[..|q| - 1]);
  }

  lemma {:induction false} CleanResolves(ws: seq<string>, parts: seq<string>)
    requires AllClean(parts) && parts != [] && ws <= parts && Strip(Text(parts)) == Text(parts)
    ensures Resolve(ws, Text(parts)) == Some(Text(parts))
  {
    SplitText(parts);
    NormalOfText(parts, []);
  }

  lemma {:induction false} NormalOfText(parts: seq<string>, rest: seq<string>)
    requires AllClean(parts)
    ensures Normal([], [""] + (parts + rest)) == Normal(parts, rest)
    ensures Normal([], [""] + parts) == parts
  {
    assert ([""] + (parts + rest))[1..] == parts + rest && ([""] + parts)[1..] == parts;
    NormalOfClean([], parts, rest);
    NormalOfClean([], parts, []);
    assert [] + parts == parts && parts + [] == parts;
  }

  lemma {:induction false} TextSnoc(ws: seq<string>, name: string)
    ensures Text(ws + [name + " "]) == Text(ws + [name]) + " "
  {
    if ws != [] {
      TextSnoc(ws[1..], name);
      assert (ws + [name])[1..] == ws[1..] + [name] && (ws + [name + " "])[1..] == ws[1..] + [name + " "];
    }
  }

  lemma {:induction false} StripStops(s: string)
    requires s != "" && IsSpace(s[|s| - 1])
    ensures Strip(s) != s
  {}

  /** Paths that resolve to three different ones exist in every workspace: "name /. /." is one. */
  lemma {:induction false} TwiceBlankPath(ws: seq<string>, name: string)
    returns (path: string, q: string, r: string, w: string)
    requires AllClean(ws) && Plain(name)
    ensures path == name + " /. /." && Strip(path) == path
    ensures r == Text(ws + [name + " "]) && w == Text(ws + [name]) && r != w && q !in {r, w}
    ensures Resolve(ws, path) == Some(q) && Resolve(ws, q) == Some(r) && Resolve(ws, r) == Some(w)
  {
    path := name + " /. /.";
    q, r, w := Text(ws + [name + " "] + [". "]), Text(ws + [name + " "]), Text(ws + [name]);
    TwiceBlankFirst(ws, name, path);
    TwiceBlankSecond(ws, name);
    TrailingBlankLost(ws, name);
    TextGrows(ws + [name + " "], ". ");
    TextSnoc(ws, name);
  }

  lemma {:induction false} TwiceBlankFirst(ws: seq<string>, name: string, path: string)
    requires AllClean(ws) && Plain(name) && path == name + " /. /."
    ensures Strip(path) == path && Resolve(ws, path) == Some(Text(ws + [name + " "] + [". "]))
  {
    assert LStrip(path) == path && RStrip(path) == path;
    SplitThree(name + " ", ". ", ".");
    assert path == (name + " ") + "/" + (". " + "/" + ".");
    var parts := [name + " ", ". "];
    assert Clean(name + " ") && Clean(". ") by { CleanSnoc([], name); }
    NormalOfClean(ws, parts, ["."]);
    assert ws + parts == ws + [name + " "] + [". "];
    assert ["."][1..] == [];
  }

  lemma {:induction false} SplitThree(a: string, b: string, c: string)
    requires '/' !in a && '/' !in b && '/' !in c
    ensures Split(a + "/" + (b + "/" + c)) == [a, b] + [c]
  {
    SplitOne(a, b + "/" + c);
    SplitOne(b, c);
    SplitOne(c, "");
  }

  lemma {:induction false} TwiceBlankSecond(ws: seq<string>, name: string)
    requires AllClean(ws) && Plain(name)
    ensures Resolve(ws, Text(ws + [name + " "] + [". "])) == Some(Text(ws + [name + " "]))
  {
    var parts := ws + [name + " "];
    var t := Text(parts + ["."]);
    TextSnoc(parts, ".");
    TextEnds(parts + ["."]);
    assert "." + " " == ". ";
    StripLast(t);
    CleanSnoc(ws, name);
    SplitText(parts + ["."]);
    NormalOfText(parts, ["."]);
    assert ["."][1..] == [];
  }

  lemma {:induction false} CleanSnoc(ws: seq<string>, name: string)
    requires AllClean(ws) && Clean(name)
    ensures AllClean(ws + [name + " "])
    ensures forall part :: part in ws + [name + " "] + ["."] ==> '/' !in part
  {
    assert name + " " != "." && name + " " != ".." by {
      assert (name + " ")[|name|] == ' ';
    }
    assert Clean(name + " ");
    forall part | part in ws + [name + " "] + ["."] ensures '/' !in part {
      assert part == "." || part == name + " " || (part in ws && Clean(part));
    }
  }

  lemma {:induction false} TextGrows(parts: seq<string>, part: string)
    requires parts != []
    ensures |Text(parts + [part])| == |Text(parts)| + 1 + |part|
  {
    TextLength(parts);
    TextLength(parts + [part]);
    TotalLengthSnoc(parts, part);
  }

  /* ---- parent directories ---- */

  lemma {:induction false} NormalOne(base: seq<string>, part: string, rest: seq<string>)
    ensures Normal(base, [part] + rest)
            == if part == "" || part == "." then Normal(base, rest)
               else if part == ".." then Normal(if base == [] then [] else base[..|base| - 1], rest)
               else Normal(base + [part], rest)
  {}

  /** `..` takes back the component before it. */
  lemma {:induction false} ParentCancels(ws: seq<string>, a: string, b: string)
    requires AllClean(ws) && Plain(a) && Plain(b)
    ensures Resolve(ws, a + "/../" + b) == Some(Text(ws + [b]))
  {
    var t := a + "/" + (".." + "/" + b);
    assert t == a + "/../" + b;
    assert LStrip(t) == t && RStrip(t) == t;
    SplitThree(a, "..", b);
    assert [a, ".."] + [b] == [a] + ([".."] + ([b] + []));
    NormalOne(ws, a, [".."] + ([b] + []));
    NormalOne(ws + [a], "..", [b] + []);
    assert (ws + [a])[..|ws|] == ws;
    NormalOne(ws, b, []);
  }

  /** A path that leaves the workspace for a neighbour is refused. */
  lemma {:induction false} NeighbourIsOutside(ws: seq<string>, name: string)
    requires ws != [] && Plain(name) && name != ws[|ws| - 1]
    ensures Resolve(ws, "../" + name).None?
  {
    var t, up := ".." + "/" + name, ws[..|ws| - 1];
    assert t == "../" + name;
    assert LStrip(t) == t && RStrip(t) == t;
    SplitOne("..", name);
    SplitOne(name, "");
    assert [".."] + [name] == [".."] + ([name] + []);
    NormalOne(ws, "..", [name] + []);
    NormalOne(up, name, []);
    assert (up + [name])[|ws| - 1] == name;
  }
}
