/** The Python string and `os.path` operations the pipeline builds its object keys,
    local paths and container commands with, as pure functions on `seq<char>`.
    Each one follows CPython's definition for the single-character separators and
    non-empty patterns these call sites use. */
module PyStr {

  /** `s.startswith(p)` */
  predicate StartsWith(s: string, p: string) {
    |p| <= |s| && s[..|p|] == p
  }

  /** `s.endswith(p)` */
  predicate EndsWith(s: string, p: string) {
    |p| <= |s| && s[|s| - |p|..] == p
  }

  /** `p in s`: substring containment. */
  predicate Contains(s: string, p: string)
    decreases |s|
  {
    StartsWith(s, p) || (|s| > 0 && Contains(s[1..], p))
  }

  /** `s.rfind(c)`: the last index of `c`, or -1. */
  function LastIndex(s: string, c: char): (r: int)
    ensures -1 <= r < |s|
    ensures r >= 0 ==> s[r] == c
    ensures forall k :: r < k < |s| ==> s[k] != c
    ensures r == -1 <==> c !in s
  {
    if |s| == 0 then -1
    else if s[|s| - 1] == c then |s| - 1
    else LastIndex(s[..|s| - 1], c)
  }

  /** `s.split(c)` for a one-character separator. */
  function Split(s: string, c: char): (r: seq<string>)
    ensures |r| >= 1
  {
    if |s| == 0 then [""]
    else
      var rest := Split(s[1..], c);
      if s[0] == c then [""] + rest
      else [[s[0]] + rest[0]] + rest[1..]
  }

  /** `c.join(parts)` for a one-character separator. */
  function Join(parts: seq<string>, c: char): string
  {
    if |parts| == 0 then ""
    else if |parts| == 1 then parts[0]
    else parts[0] + [c] + Join(parts[1..], c)
  }

  /** `s.split(c)[0]`, which always exists. */
  function FirstSegment(s: string, c: char): string {
    Split(s, c)[0]
  }

  /** `s.replace(pat, rep)`: every non-overlapping occurrence, left to right. */
  function ReplaceAll(s: string, pat: string, rep: string): string
    requires |pat| > 0
    decreases |s|
  {
    if |s| < |pat| then s
    else if s[..|pat|] == pat then rep + ReplaceAll(s[|pat|..], pat, rep)
    else [s[0]] + ReplaceAll(s[1..], pat, rep)
  }

  /** `s.rstrip(c)` */
  function RStrip(s: string, c: char): string
  {
    if |s| > 0 && s[|s| - 1] == c then RStrip(s[..|s| - 1], c) else s
  }

  predicate AllChar(s: string, c: char) {
    forall k :: 0 <= k < |s| ==> s[k] == c
  }

  /** `os.path.basename(p)`: what follows the last '/'. */
  function Basename(p: string): string {
    p[LastIndex(p, '/') + 1..]
  }

  /** `os.path.dirname(p)`: what precedes the last '/', trailing slashes removed
      unless the head is nothing but slashes. */
  function Dirname(p: string): string {
    var head := p[..LastIndex(p, '/') + 1];
    if head != "" && !AllChar(head, '/') then RStrip(head, '/') else head
  }

  /** `os.path.join(a, b)` with two components. */
  function PathJoin(a: string, b: string): string {
    if StartsWith(b, "/") then b
    else if a == "" || EndsWith(a, "/") then a + b
    else a + "/" + b
  }

  /** `os.path.splitext(p)`: the extension starts at the last '.', provided it
      follows the last '/' and the file name has a non-dot character before it
      (so ".bashrc" has no extension). */
  function SplitExt(p: string): (string, string) {
    var sep := LastIndex(p, '/');
    var dot := LastIndex(p, '.');
    if dot > sep && exists k :: sep + 1 <= k < dot && p[k] != '.' then (p[..dot], p[dot..])
    else (p, "")
  }

  function Stem(p: string): string { SplitExt(p).0 }

  function Ext(p: string): string { SplitExt(p).1 }

  predicate IsLower(ch: char) { 'a' <= ch <= 'z' }
  predicate IsUpper(ch: char) { 'A' <= ch <= 'Z' }

  function ToUpper(ch: char): char {
    if IsLower(ch) then (ch as int - 32) as char else ch
  }

  function ToLower(ch: char): char {
    if IsUpper(ch) then (ch as int + 32) as char else ch
  }

  /** `s.title()` on ASCII text: a letter is upper-cased when the character before
      it is not a letter, lower-cased otherwise. */
  function Title(s: string): string { TitleAfter(s, false) }

  function TitleAfter(s: string, prevCased: bool): string
  {
    if s == [] then []
    else if IsLower(s[0]) || IsUpper(s[0]) then
      [if prevCased then ToLower(s[0]) else ToUpper(s[0])] + TitleAfter(s[1..], true)
    else [s[0]] + TitleAfter(s[1..], false)
  }

  function Digit(d: nat): char
    requires d < 10
  {
    ('0' as int + d) as char
  }

  predicate IsDigit(ch: char) { '0' <= ch <= '9' }

  /** `str(n)`, or an f-string `{n}`, for an integer n >= 0. */
  function NatToString(n: nat): (s: string)
    ensures |s| >= 1
    ensures forall k :: 0 <= k < |s| ==> IsDigit(s[k])
    ensures s[0] == '0' ==> n == 0
  {
    if n < 10 then [Digit(n)] else NatToString(n / 10) + [Digit(n % 10)]
  }

  /** `int(s)` on a string of decimal digits: the inverse of `NatToString`. */
  function ParseNat(s: string): nat
    requires forall k :: 0 <= k < |s| ==> IsDigit(s[k])
  {
    if s == [] then 0
    else
      assert IsDigit(s[|s| - 1]);
      10 * ParseNat(s[..|s| - 1]) + (s[|s| - 1] as int - '0' as int)
  }

  // ---------------------------------------------------------------------------
  // Properties

  lemma {:induction false} ParseNatToString(n: nat)
    ensures ParseNat(NatToString(n)) == n
  {
    if n >= 10 {
      var s := NatToString(n);
      ParseNatToString(n / 10);
      assert s[..|s| - 1] == NatToString(n / 10);
    }
  }

  lemma {:induction false} SplitNoSeparator(s: string, c: char)
    requires c !in s
    ensures Split(s, c) == [s]
  {
    if |s| > 0 {
      SplitNoSeparator(s[1..], c);
      assert [s[0]] + s[1..] == s;
    }
  }

  /** Splitting at the first separator. */
  lemma {:induction false} SplitAtSeparator(a: string, b: string, c: char)
    requires c !in a
    ensures Split(a + [c] + b, c) == [a] + Split(b, c)
  {
    if |a| == 0 {
      assert a + [c] + b == [c] + b;
      assert ([c] + b)[1..] == b;
    } else {
      var s := a + [c] + b;
      assert s[0] == a[0];
      assert s[1..] == a[1..] + [c] + b;
      SplitAtSeparator(a[1..], b, c);
      assert [a[0]] + a[1..] == a;
    }
  }

  /** `",".join` is inverted by `.split(",")` on a non-empty list whose items hold no comma. */
  lemma {:induction false} SplitJoin(parts: seq<string>, c: char)
    requires |parts| >= 1
    requires forall i :: 0 <= i < |parts| ==> c !in parts[i]
    ensures Split(Join(parts, c), c) == parts
  {
    if |parts| == 1 {
      SplitNoSeparator(parts[0], c);
    } else {
      SplitJoin(parts[1..], c);
      SplitAtSeparator(parts[0], Join(parts[1..], c), c);
      assert [parts[0]] + parts[1..] == parts;
    }
  }

  /** `c.join(s.split(c)) == s` for every string. */
  lemma {:induction false} JoinSplit(s: string, c: char)
    ensures Join(Split(s, c), c) == s
  {
    if |s| > 0 {
      JoinSplit(s[1..], c);
      var rest := Split(s[1..], c);
      if s[0] == c {
        assert Join([""] + rest, c) == "" + [c] + Join(rest, c);
        assert [c] + s[1..] == s;
      } else {
        var r := [[s[0]] + rest[0]] + rest[1..];
        if |rest| == 1 {
          assert Join(r, c) == [s[0]] + rest[0];
        } else {
          assert r[1..] == rest[1..];
          assert Join(r, c) == [s[0]] + rest[0] + [c] + Join(rest[1..], c);
          assert Join(rest, c) == rest[0] + [c] + Join(rest[1..], c);
        }
        assert [s[0]] + s[1..] == s;
      }
    }
  }

  /** The first segment of `a + "/" + b` is `a` when `a` holds no separator. */
  lemma FirstSegmentOf(a: string, b: string, c: char)
    requires c !in a
    ensures FirstSegment(a + [c] + b, c) == a
  {
    SplitAtSeparator(a, b, c);
  }

  /** The last separator of `a + [c] + b` is the one between them when `b` holds none. */
  lemma {:induction false} LastIndexAfter(a: string, b: string, c: char)
    requires c !in b
    ensures LastIndex(a + [c] + b, c) == |a|
  {
    var s := a + [c] + b;
    assert s[|a|] == c;
    forall k | |a| < k < |s| ensures s[k] != c {
      assert s[k] == b[k - |a| - 1];
    }
  }

  lemma {:induction false} LastIndexAbsent(s: string, c: char)
    requires c !in s
    ensures LastIndex(s, c) == -1
  {
  }

  /** `os.path.basename(dir + "/" + name) == name` and
      `os.path.dirname(dir + "/" + name) == dir` for a plain name and a directory
      without a trailing slash. */
  lemma BasenameDirname(dir: string, name: string)
    requires '/' !in name
    requires dir != "" && dir[|dir| - 1] != '/'
    ensures Basename(dir + "/" + name) == name
    ensures Dirname(dir + "/" + name) == dir
  {
    var p := dir + "/" + name;
    LastIndexAfter(dir, name, '/');
    assert p[..|dir| + 1] == dir + "/";
    assert p[|dir| + 1..] == name;
    var head := dir + "/";
    assert !AllChar(head, '/') by {
      assert head[|dir| - 1] == dir[|dir| - 1];
    }
    assert head[..|head| - 1] == dir;
    assert RStrip(head, '/') == RStrip(dir, '/');
  }

  lemma BasenamePlain(name: string)
    requires '/' !in name
    ensures Basename(name) == name
    ensures Dirname(name) == ""
  {
    LastIndexAbsent(name, '/');
  }

  /** `os.path.join(a, b) == a + "/" + b` for the relative names keys are built from. */
  lemma PathJoinPlain(a: string, b: string)
    requires a != "" && a[|a| - 1] != '/'
    requires b == "" || b[0] != '/'
    ensures PathJoin(a, b) == a + "/" + b
  {
    assert !StartsWith(b, "/") by {
      if b != "" { assert b[..1] == [b[0]]; }
    }
    assert !EndsWith(a, "/") by {
      assert a[|a| - 1..] == [a[|a| - 1]];
    }
  }

  /** The extension `splitext` reports never contains a '/', and starts with '.'
      when there is one. */
  lemma ExtShape(p: string)
    ensures '/' !in Ext(p)
    ensures Ext(p) != "" ==> Ext(p)[0] == '.'
    ensures Stem(p) + Ext(p) == p
  {
    var sep := LastIndex(p, '/');
    var dot := LastIndex(p, '.');
    if dot > sep && exists k :: sep + 1 <= k < dot && p[k] != '.' {
      var e := p[dot..];
      forall k | 0 <= k < |e| ensures e[k] != '/' {
        assert e[k] == p[dot + k];
      }
      assert p[..dot] + p[dot..] == p;
    }
  }

  /** `splitext(stem + ext)` splits at `ext` when `ext` is '.' followed by
      characters that are neither '.' nor '/', and the stem's last segment has a
      character other than '.'. */
  lemma {:induction false} SplitExtAt(stem: string, tail: string)
    requires '.' !in tail && '/' !in tail
    requires |stem| > 0 && stem[|stem| - 1] != '.' && stem[|stem| - 1] != '/'
    ensures SplitExt(stem + "." + tail) == (stem, "." + tail)
  {
    var p := stem + "." + tail;
    assert p == stem + ['.'] + tail;
    LastIndexAfter(stem, tail, '.');
    var dot := |stem|;
    var sep := LastIndex(p, '/');
    assert p[dot] == '.' && p[dot] != '/';
    assert sep < dot by {
      forall k | dot < k < |p| ensures p[k] != '/' {
        assert p[k] == tail[k - dot - 1];
      }
    }
    assert p[dot - 1] == stem[|stem| - 1];
    assert p[dot - 1] != '/';
    assert sep + 1 <= dot - 1;
    assert p[..dot] == stem;
    assert p[dot..] == "." + tail;
  }

  /** A string with no occurrence of `pat` is left as it is by `replace`. */
  lemma {:induction false} ReplaceAbsent(s: string, pat: string, rep: string)
    requires |pat| > 0
    requires !Contains(s, pat)
    ensures ReplaceAll(s, pat, rep) == s
    decreases |s|
  {
    if |s| >= |pat| {
      assert s[..|pat|] != pat;
      ReplaceAbsent(s[1..], pat, rep);
      assert [s[0]] + s[1..] == s;
    }
  }

  /** `replace` on a leading occurrence rewrites it and continues after it. */
  lemma ReplaceLeading(pat: string, rest: string, rep: string)
    requires |pat| > 0
    ensures ReplaceAll(pat + rest, pat, rep) == rep + ReplaceAll(rest, pat, rep)
  {
    assert (pat + rest)[..|pat|] == pat;
    assert (pat + rest)[|pat|..] == rest;
  }

  /** A substring of the tail is a substring of the whole. */
  lemma {:induction false} ContainsInSuffix(a: string, b: string, p: string)
    requires Contains(b, p)
    ensures Contains(a + b, p)
    decreases |a|
  {
    if |a| > 0 {
      ContainsInSuffix(a[1..], b, p);
      assert (a + b)[1..] == a[1..] + b;
    } else {
      assert a + b == b;
    }
  }

  lemma ContainsPrefix(s: string, p: string, rest: string)
    requires s == p + rest
    ensures Contains(s, p)
  {
    assert s[..|p|] == p;
  }

  /** Substring containment is what `validate_size` tests, so every name holding
      "female" also holds "male". */
  lemma FemaleContainsMale(name: string)
    requires Contains(name, "female")
    ensures Contains(name, "male")
  {
    var i := ContainsWitness(name, "female");
    assert name == name[..i] + ("fe" + (name[i + 2..])) by {
      assert name[i..i + 6] == "female";
    }
    assert name[i + 2..] == "male" + name[i + 6..] by {
      assert name[i + 2..i + 6] == "male";
    }
    ContainsPrefix(name[i + 2..], "male", name[i + 6..]);
    ContainsInSuffix("fe", name[i + 2..], "male");
    ContainsInSuffix(name[..i], "fe" + name[i + 2..], "male");
  }

  /** Where a contained pattern starts. */
  lemma {:induction false} ContainsWitness(s: string, p: string) returns (i: nat)
    requires Contains(s, p)
    ensures i + |p| <= |s| && s[i..i + |p|] == p
    decreases |s|
  {
    if StartsWith(s, p) {
      i := 0;
    } else {
      var j := ContainsWitness(s[1..], p);
      i := j + 1;
      assert s[i..i + |p|] == s[1..][j..j + |p|];
    }
  }

  /** No occurrence of the pattern inside a string made of characters the pattern
      does not start with. */
  lemma {:induction false} NotContainsWithout(s: string, p: string)
    requires |p| > 0 && p[0] !in s
    ensures !Contains(s, p)
    decreases |s|
  {
    if |s| > 0 {
      assert s[1..] == s[1..];
      forall ch | ch in s[1..] ensures ch in s { }
      NotContainsWithout(s[1..], p);
      assert !StartsWith(s, p) by {
        if |p| <= |s| { assert s[..|p|][0] == s[0]; }
      }
    }
  }

  /** `replace` on a string whose only occurrence of the pattern is at its end. */
  lemma {:induction false} ReplaceTrailing(a: string, pat: string, rep: string)
    requires |pat| > 0 && pat[0] !in a
    ensures ReplaceAll(a + pat, pat, rep) == a + rep
    decreases |a|
  {
    var s := a + pat;
    if a == [] {
      assert s == pat + "";
      ReplaceLeading(pat, "", rep);
    } else {
      assert s[..|pat|] != pat by {
        assert s[..|pat|][0] == a[0];
      }
      assert s[1..] == a[1..] + pat;
      assert ReplaceAll(s, pat, rep) == [a[0]] + ReplaceAll(a[1..] + pat, pat, rep);
      ReplaceTrailing(a[1..], pat, rep);
      assert [a[0]] + (a[1..] + rep) == a + rep;
    }
  }

  /** A base name holds no '/'. */
  lemma BasenameHasNoSlash(p: string)
    ensures '/' !in Basename(p)
  {
    var r := LastIndex(p, '/');
    assert p[r + 1..] == Basename(p);
  }

  /** The pieces `split` returns hold no separator. */
  lemma {:induction false} SplitPartsFree(s: string, c: char)
    ensures forall i :: 0 <= i < |Split(s, c)| ==> c !in Split(s, c)[i]
  {
    if |s| > 0 {
      SplitPartsFree(s[1..], c);
      var rest := Split(s[1..], c);
      if s[0] != c {
        assert c !in rest[0];
        assert c !in [s[0]] + rest[0];
      }
    }
  }

  lemma FirstSegmentHasNoSeparator(s: string, c: char)
    ensures c !in FirstSegment(s, c)
  {
    SplitPartsFree(s, c);
  }

  /** The same text, grouped the other way. */
  lemma Regroup(a: string, b: string, c: string, d: string)
    ensures a + b + c + d == a + (b + c + d)
  {
  }

  /** `replace` brings in no character that neither the string nor the
      replacement holds. */
  lemma {:induction false} ReplaceKeepsAbsent(s: string, pat: string, rep: string, c: char)
    requires |pat| > 0 && c !in s && c !in rep
    ensures c !in ReplaceAll(s, pat, rep)
    decreases |s|
  {
    if |s| >= |pat| {
      if s[..|pat|] == pat {
        assert forall ch :: ch in s[|pat|..] ==> ch in s;
        ReplaceKeepsAbsent(s[|pat|..], pat, rep, c);
      } else {
        assert forall ch :: ch in s[1..] ==> ch in s;
        ReplaceKeepsAbsent(s[1..], pat, rep, c);
      }
    }
  }

  /** `title` only changes the case of letters, so a non-letter absent from the
      string stays absent. */
  lemma {:induction false} TitleKeepsAbsent(s: string, prevCased: bool, c: char)
    requires !IsLower(c) && !IsUpper(c) && c !in s
    ensures c !in TitleAfter(s, prevCased)
  {
    if s != [] {
      assert forall ch :: ch in s[1..] ==> ch in s;
      TitleKeepsAbsent(s[1..], IsLower(s[0]) || IsUpper(s[0]), c);
    }
  }
}
