/** The line scanner of include/deep_jit/utils/parser.hpp: which file names a source tracks. */
module IncludeScan {
  import opened Bytes

  const HASH: byte := 0x23
  const LESS: byte := 0x3c
  const GREATER: byte := 0x3e
  const QUOTE: byte := 0x22
  const NEWLINE: byte := 0x0a

  /** The word of the directive, in ASCII. */
  const DIRECTIVE: bytes := [0x69, 0x6e, 0x63, 0x6c, 0x75, 0x64, 0x65]

  predicate IsSpace(c: byte) { c == 0x20 || c == 0x09 || c == 0x0c || c == 0x0b }

  function TrimLeft(s: bytes): (r: bytes)
    ensures |r| <= |s|
  {
    if s != [] && IsSpace(s[0]) then TrimLeft(s[1..]) else s
  }

  predicate IsCloser(c: byte) { c == GREATER || c == QUOTE }

  /** The first closing character at or after `from`; |s| when there is none. */
  function FindCloser(s: bytes, from: nat): (k: nat)
    requires from <= |s|
    ensures from <= k <= |s|
    ensures k < |s| ==> IsCloser(s[k])
    ensures forall i :: from <= i < k ==> !IsCloser(s[i])
    decreases |s| - from
  {
    if from == |s| || IsCloser(s[from]) then from else FindCloser(s, from + 1)
  }

  predicate HasPrefix(prefixes: seq<bytes>, name: bytes) { exists p :: p in prefixes && p <= name }

  /** A file name that a standard directive may carry. */
  predicate CleanName(name: bytes) {
    name != [] && !IsSpace(name[0]) && !IsSpace(name[|name| - 1])
  }

  datatype Scan = Untracked | Tracked(name: bytes) | NonStandard

  function ParseInclude(prefixes: seq<bytes>, line: bytes): (r: Scan)
    ensures r.Tracked? ==> 0 < |r.name| <= |line|
  {
    var line := TrimLeft(line);
    if line == [] || line[0] != HASH then Untracked else
    var line := TrimLeft(line[1..]);
    if !(DIRECTIVE <= line) then Untracked else
    var line := TrimLeft(line[|DIRECTIVE|..]);
    if line == [] || (line[0] != LESS && line[0] != QUOTE) then Untracked else
    var closing := FindCloser(line, 1);
    if closing == |line| then Untracked else
    var name := line[1..closing];
    if line[0] != LESS || line[closing] != GREATER || !CleanName(name) then NonStandard
    else if HasPrefix(prefixes, name) then Tracked(name) else Untracked
  }

  // ---- What the scanner accepts, stated without scanning ----

  ghost predicate Blank(s: bytes) { forall i :: 0 <= i < |s| ==> IsSpace(s[i]) }

  /** A directive line: blanks, '#', blanks, the word, blanks, an opening character, a body with no
      closing character in it, a closing character, and anything. */
  datatype Shape = Shape(w1: bytes, w2: bytes, w3: bytes, open: byte, body: bytes, close: byte, rest: bytes) {
    function Text(): bytes {
      w1 + ([HASH] + (w2 + (DIRECTIVE + (w3 + ([open] + body + [close] + rest)))))
    }

    ghost predicate Valid() {
      && Blank(w1) && Blank(w2) && Blank(w3)
      && (open == LESS || open == QUOTE) && IsCloser(close)
      && forall i :: 0 <= i < |body| ==> !IsCloser(body[i])
    }

    function Verdict(prefixes: seq<bytes>): Scan {
      if open == LESS && close == GREATER && CleanName(body) then
        if HasPrefix(prefixes, body) then Tracked(body) else Untracked
      else NonStandard
    }
  }

  lemma {:induction false} TrimBlank(w: bytes, s: bytes)
    requires Blank(w) && (s == [] || !IsSpace(s[0]))
    ensures TrimLeft(w + s) == s
  {
    if w == [] {
      assert w + s == s;
    } else {
      assert (w + s)[1..] == w[1..] + s;
      TrimBlank(w[1..], s);
    }
  }

  lemma {:induction false} TrimSplits(s: bytes) returns (w: bytes)
    ensures Blank(w) && s == w + TrimLeft(s)
    ensures TrimLeft(s) == [] || !IsSpace(TrimLeft(s)[0])
  {
    w := [];
    if s != [] && IsSpace(s[0]) {
      w := TrimSplits(s[1..]);
      w := [s[0]] + w;
    }
  }

  /** Every line of the shape gets the shape's verdict. */
  lemma ShapeDecides(prefixes: seq<bytes>, sh: Shape)
    requires sh.Valid()
    ensures ParseInclude(prefixes, sh.Text()) == sh.Verdict(prefixes)
  {
    var target := [sh.open] + sh.body + [sh.close] + sh.rest;
    var afterWord := sh.w3 + target;
    var afterHash := sh.w2 + (DIRECTIVE + afterWord);
    TrimBlank(sh.w1, [HASH] + afterHash);
    assert ([HASH] + afterHash)[1..] == afterHash;
    TrimBlank(sh.w2, DIRECTIVE + afterWord);
    assert (DIRECTIVE + afterWord)[|DIRECTIVE|..] == afterWord;
    TrimBlank(sh.w3, target);
    var k := FindCloser(target, 1);
    assert target[1 + |sh.body|] == sh.close;
    assert forall i :: 0 <= i < |sh.body| ==> target[1 + i] == sh.body[i];
    assert target[1..k] == sh.body;
  }

  /** The line is a directive with a closing character, step by step. */
  predicate IsDirective(line: bytes) {
    var l1 := TrimLeft(line);
    && l1 != [] && l1[0] == HASH
    && var l2 := TrimLeft(l1[1..]);
       && DIRECTIVE <= l2
       && var l3 := TrimLeft(l2[|DIRECTIVE|..]);
          l3 != [] && (l3[0] == LESS || l3[0] == QUOTE) && FindCloser(l3, 1) < |l3|
  }

  lemma VerdictIsDirective(prefixes: seq<bytes>, line: bytes)
    requires ParseInclude(prefixes, line) != Untracked
    ensures IsDirective(line)
  {
  }

  lemma SplitAt(l: bytes, k: nat)
    requires 1 <= k < |l|
    ensures l == [l[0]] + l[1..k] + [l[k]] + l[k + 1..]
    ensures forall i :: 0 <= i < k - 1 ==> l[1..k][i] == l[i + 1]
  {
  }

  lemma DirectiveHasShape(line: bytes) returns (sh: Shape)
    requires IsDirective(line)
    ensures sh.Valid() && sh.Text() == line
  {
    var w1 := TrimSplits(line);
    var l1 := TrimLeft(line);
    assert l1 == [HASH] + l1[1..];
    var w2 := TrimSplits(l1[1..]);
    var l2 := TrimLeft(l1[1..]);
    assert l2 == DIRECTIVE + l2[|DIRECTIVE|..];
    var w3 := TrimSplits(l2[|DIRECTIVE|..]);
    var l3 := TrimLeft(l2[|DIRECTIVE|..]);
    var k := FindCloser(l3, 1);
    SplitAt(l3, k);
    sh := Shape(w1, w2, w3, l3[0], l3[1..k], l3[k], l3[k + 1..]);
    assert sh.Valid();
  }

  /** A line that the scanner does not pass over has the shape. */
  lemma VerdictHasShape(prefixes: seq<bytes>, line: bytes) returns (sh: Shape)
    requires ParseInclude(prefixes, line) != Untracked
    ensures sh.Valid() && sh.Text() == line
  {
    VerdictIsDirective(prefixes, line);
    sh := DirectiveHasShape(line);
  }

  /** The scanner's verdict on a line is exactly what its shape says: a tracked name, a rejected
      directive, or nothing. */
  lemma ScanIsShape(prefixes: seq<bytes>, line: bytes, verdict: Scan)
    requires verdict != Untracked
    ensures ParseInclude(prefixes, line) == verdict <==>
            exists sh: Shape :: sh.Valid() && sh.Text() == line && sh.Verdict(prefixes) == verdict
  {
    if ParseInclude(prefixes, line) == verdict {
      var sh := VerdictHasShape(prefixes, line);
      ShapeDecides(prefixes, sh);
    }
    forall sh: Shape | sh.Valid() && sh.Text() == line
      ensures sh.Verdict(prefixes) == ParseInclude(prefixes, line)
    {
      ShapeDecides(prefixes, sh);
    }
  }

  // ---- Lines ----

  /** The first newline of s; |s| when there is none. */
  function FindNewline(s: bytes): (k: nat)
    ensures k <= |s|
    ensures k < |s| ==> s[k] == NEWLINE
    ensures NEWLINE !in s[..k]
  {
    if s == [] || s[0] == NEWLINE then 0
    else
      var k := FindNewline(s[1..]);
      assert s[..1 + k] == [s[0]] + s[1..][..k];
      1 + k
  }

  /** The scanner's verdicts on the lines of a source, in order, without the untracked ones. */
  function Directives(prefixes: seq<bytes>, view: bytes): (ds: seq<Scan>)
    ensures forall i :: 0 <= i < |ds| ==> ds[i] != Untracked
    ensures forall i :: 0 <= i < |ds| && ds[i].Tracked? ==> |ds[i].name| <= |view|
    decreases |view|
  {
    if view == [] then [] else
    var k := FindNewline(view);
    var d := ParseInclude(prefixes, view[..k]);
    (if d == Untracked then [] else [d]) +
    Directives(prefixes, if k == |view| then [] else view[k + 1..])
  }
}
