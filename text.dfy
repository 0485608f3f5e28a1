/** String operations the components use: decimal rendering of numbers, `trim`,
    ASCII `toLowerCase`, the `/\s+/g` replacement and `a || b || c` fallbacks. */
module Text {

  /** The character of a decimal digit. */
  function DigitChar(d: nat): (c: char)
    requires d < 10
    ensures IsDigit(c) && DigitValue(c) == d
  {
    ['0', '1', '2', '3', '4', '5', '6', '7', '8', '9'][d]
  }

  predicate IsDigit(c: char) {
    '0' <= c <= '9'
  }

  function DigitValue(c: char): nat
    requires IsDigit(c)
  {
    (c as int - '0' as int) as nat
  }

  predicate AllDigits(s: string) {
    forall i :: 0 <= i < |s| ==> IsDigit(s[i])
  }

  /** The number a string of decimal digits denotes (the reference reading of a rendered number). */
  function DigitsValue(s: string): nat
    requires AllDigits(s)
  {
    if s == [] then 0 else DigitsValue(s[..|s| - 1]) * 10 + DigitValue(s[|s| - 1])
  }

  /** `${n}` for a non-negative integer: its decimal digits, without leading zeros. */
  function NatToString(n: nat): (r: string)
    ensures |r| >= 1 && AllDigits(r)
    ensures DigitsValue(r) == n
    ensures r[0] == '0' ==> n == 0
    ensures n < 10 ==> |r| == 1
  {
    if n < 10 then [DigitChar(n)]
    else
      var r := NatToString(n / 10) + [DigitChar(n % 10)];
      assert r[..|r| - 1] == NatToString(n / 10);
      r
  }

  /** The characters `String.prototype.trim` and the regular expression class `\s` treat as
      white space: the ECMAScript WhiteSpace and LineTerminator code points (tab, line tabulation,
      form feed, space, no-break space, the byte order mark, the space separators of category Zs,
      line feed, carriage return, U+2028 and U+2029). */
  predicate IsSpace(c: char) {
    || c == ' ' || c == '\t' || c == '\n' || c == '\r' || c == '\U{000B}' || c == '\U{000C}'
    || c == '\U{00A0}' || c == '\U{1680}' || ('\U{2000}' <= c <= '\U{200A}')
    || c == '\U{2028}' || c == '\U{2029}' || c == '\U{202F}' || c == '\U{205F}'
    || c == '\U{3000}' || c == '\U{FEFF}'
  }

  predicate NoSpace(s: string) {
    forall i :: 0 <= i < |s| ==> !IsSpace(s[i])
  }

  predicate AllSpace(s: string) {
    forall i :: 0 <= i < |s| ==> IsSpace(s[i])
  }

  /** The index of the first character of `s` that is not white space (|s| if there is none). */
  function TrimStart(s: string): (i: nat)
    ensures i <= |s|
    ensures AllSpace(s[..i])
    ensures i < |s| ==> !IsSpace(s[i])
  {
    if s == [] || !IsSpace(s[0]) then 0 else 1 + TrimStart(s[1..])
  }

  /** One past the index of the last character of `s` that is not white space (0 if there is none). */
  function TrimEnd(s: string): (j: nat)
    ensures j <= |s|
    ensures AllSpace(s[j..])
    ensures j > 0 ==> !IsSpace(s[j - 1])
  {
    if s == [] || !IsSpace(s[|s| - 1]) then |s|
    else
      var j := TrimEnd(s[..|s| - 1]);
      assert s[j..] == s[..|s| - 1][j..] + [s[|s| - 1]];
      j
  }

  /** `s.trim()`: `s` without its leading and trailing white space. */
  function Trim(s: string): (r: string)
    ensures |r| <= |s|
    ensures r == "" <==> AllSpace(s)
    ensures r != "" ==> !IsSpace(r[0]) && !IsSpace(r[|r| - 1])
    ensures exists i, j :: 0 <= i <= j <= |s| && r == s[i..j] && AllSpace(s[..i]) && AllSpace(s[j..])
  {
    var i := TrimStart(s);
    var t := s[i..];
    var j := TrimEnd(t);
    assert s[i + j..] == t[j..];
    assert s[i..i + j] == t[..j];
    assert AllSpace(s) ==> i == |s|;
    assert j == 0 ==> i == |s|;
    assert s[..|s|] == s;
    t[..j]
  }

  lemma NoSpaceAppend(a: string, b: string)
    requires NoSpace(a) && NoSpace(b)
    ensures NoSpace(a + b)
  {
    forall i | 0 <= i < |a + b| ensures !IsSpace((a + b)[i]) {
      if i >= |a| { assert (a + b)[i] == b[i - |a|]; }
    }
  }

  /** A string without white space at either end is its own trim. */
  lemma TrimOfUnpadded(s: string)
    requires s != [] ==> !IsSpace(s[0]) && !IsSpace(s[|s| - 1])
    ensures Trim(s) == s
  {
    assert TrimStart(s) == 0;
    assert s[0..] == s;
    assert TrimEnd(s) == |s|;
    assert s[..|s|] == s;
  }

  /** ASCII lower case of one character; every other character is kept. */
  function LowerChar(c: char): (d: char)
    ensures IsSpace(d) <==> IsSpace(c)
    ensures ('A' <= c <= 'Z') ==> ('a' <= d <= 'z')
    ensures !('A' <= c <= 'Z') ==> d == c
  {
    if 'A' <= c <= 'Z' then (c as int + 32) as char else c
  }

  /** `s.toLowerCase()` restricted to ASCII letters. */
  function ToLower(s: string): (r: string)
    ensures |r| == |s|
    ensures forall i :: 0 <= i < |s| ==> r[i] == LowerChar(s[i])
  {
    if s == [] then [] else [LowerChar(s[0])] + ToLower(s[1..])
  }

  /** The number of characters dropped by skipping a leading run of white space. */
  function SpaceRun(s: string): (n: nat)
    ensures n <= |s|
    ensures AllSpace(s[..n])
    ensures n < |s| ==> !IsSpace(s[n])
  {
    TrimStart(s)
  }

  /** `s.replace(/\s+/g, '_')`: every maximal run of white space becomes one underscore. */
  function CollapseSpaces(s: string): (r: string)
    ensures |r| <= |s|
    ensures NoSpace(r)
    ensures NoSpace(s) ==> r == s
    decreases |s|
  {
    if s == [] then []
    else if IsSpace(s[0]) then
      var rest := s[1..];
      ['_'] + CollapseSpaces(rest[SpaceRun(rest)..])
    else [s[0]] + CollapseSpaces(s[1..])
  }

  lemma CollapseLeadingRun(run: string, post: string)
    requires run != [] && AllSpace(run)
    requires post == [] || !IsSpace(post[0])
    ensures CollapseSpaces(run + post) == "_" + CollapseSpaces(post)
  {
    var s := run + post;
    assert s[0] == run[0];
    var rest := s[1..];
    assert rest == run[1..] + post;
    assert SpaceRun(rest) == |run| - 1 by {
      SpaceRunOf(run[1..], post);
    }
    assert rest[|run| - 1..] == post;
  }

  /** A whole run of white space, however long, turns into exactly one underscore. */
  lemma {:induction false} CollapseRun(pre: string, run: string, post: string)
    requires NoSpace(pre) && run != [] && AllSpace(run)
    requires post == [] || !IsSpace(post[0])
    ensures CollapseSpaces(pre + run + post) == pre + "_" + CollapseSpaces(post)
    decreases |pre|
  {
    if pre == [] {
      CollapseRunAfterNothing(pre, run, post);
    } else {
      assert NoSpace(pre[1..]) by {
        forall i | 0 <= i < |pre[1..]| ensures !IsSpace(pre[1..][i]) {
          assert pre[1..][i] == pre[i + 1];
        }
      }
      CollapseRun(pre[1..], run, post);
      CollapseRunAfterLetter(pre, run, post);
    }
  }

  lemma CollapseRunAfterNothing(pre: string, run: string, post: string)
    requires pre == [] && run != [] && AllSpace(run)
    requires post == [] || !IsSpace(post[0])
    ensures CollapseSpaces(pre + run + post) == pre + "_" + CollapseSpaces(post)
  {
    assert pre + run + post == run + post;
    assert pre + "_" + CollapseSpaces(post) == "_" + CollapseSpaces(post);
    CollapseLeadingRun(run, post);
  }

  lemma CollapseRunAfterLetter(pre: string, run: string, post: string)
    requires pre != [] && !IsSpace(pre[0])
    requires CollapseSpaces(pre[1..] + run + post) == pre[1..] + "_" + CollapseSpaces(post)
    ensures CollapseSpaces(pre + run + post) == pre + "_" + CollapseSpaces(post)
  {
    SplitHead(pre, run, post);
    CollapseKeepsLetter(pre[0], pre[1..] + run + post);
    SplitHead(pre, "_", CollapseSpaces(post));
  }

  lemma SplitHead<T>(a: seq<T>, b: seq<T>, c: seq<T>)
    requires a != []
    ensures a + b + c == [a[0]] + (a[1..] + b + c)
  {
    assert a == [a[0]] + a[1..];
  }

  lemma CollapseKeepsLetter(c: char, t: string)
    requires !IsSpace(c)
    ensures CollapseSpaces([c] + t) == [c] + CollapseSpaces(t)
  {
    assert ([c] + t)[1..] == t;
  }

  lemma {:induction false} SpaceRunOf(run: string, post: string)
    requires AllSpace(run)
    requires post == [] || !IsSpace(post[0])
    ensures SpaceRun(run + post) == |run|
    decreases |run|
  {
    if run != [] {
      assert (run + post)[1..] == run[1..] + post;
      SpaceRunOf(run[1..], post);
    } else {
      assert run + post == post;
    }
  }

  /** `a || b || c || ...`: the first non-empty candidate, or "" when all are empty. */
  function FirstNonEmpty(cands: seq<string>): (r: string)
    ensures r == "" <==> forall i :: 0 <= i < |cands| ==> cands[i] == ""
    ensures r != "" ==> exists i :: 0 <= i < |cands| && cands[i] == r && forall j :: 0 <= j < i ==> cands[j] == ""
  {
    if cands == [] then ""
    else if cands[0] != "" then cands[0]
    else
      var r := FirstNonEmpty(cands[1..]);
      assert r != "" ==> exists i :: 0 <= i < |cands[1..]| && cands[1..][i] == r && forall j :: 0 <= j < i ==> cands[1..][j] == "";
      assert r != "" ==> exists i :: 0 <= i < |cands| && cands[i] == r && forall j :: 0 <= j < i ==> cands[j] == "" by {
        if r != "" {
          var i :| 0 <= i < |cands[1..]| && cands[1..][i] == r && forall j :: 0 <= j < i ==> cands[1..][j] == "";
          assert cands[i + 1] == r;
          assert forall j :: 0 <= j < i + 1 ==> cands[j] == "" by {
            forall j | 0 <= j < i + 1 ensures cands[j] == "" {
              if j > 0 { assert cands[j] == cands[1..][j - 1]; }
            }
          }
        }
      }
      r
  }

  /** The three-way fallback `a || b || c`. */
  lemma FirstNonEmptyOfThree(a: string, b: string, c: string)
    ensures FirstNonEmpty([a, b, c]) == if a != "" then a else if b != "" then b else c
  {
    assert [c][1..] == [];
    assert FirstNonEmpty([c]) == c;
    assert [b, c][1..] == [c];
    assert FirstNonEmpty([b, c]) == if b != "" then b else c;
    assert [a, b, c][1..] == [b, c];
  }

  /** The index of the first `c` in `s`, or |s| when there is none. */
  function IndexOf(s: string, c: char): (i: nat)
    ensures i <= |s|
    ensures forall k :: 0 <= k < i ==> s[k] != c
    ensures i < |s| ==> s[i] == c
  {
    if s == [] || s[0] == c then 0 else 1 + IndexOf(s[1..], c)
  }

  /** Looking past a prefix without `c`. */
  lemma IndexOfAppend(a: string, b: string, c: char)
    requires c !in a
    ensures IndexOf(a + b, c) == |a| + IndexOf(b, c)
  {
    var i := IndexOf(a + b, c);
    var j := IndexOf(b, c);
    if j < |b| { assert (a + b)[|a| + j] == c; }
    forall k | 0 <= k < |a| + j ensures (a + b)[k] != c {
      if k >= |a| { assert (a + b)[k] == b[k - |a|]; }
    }
  }

  /** The form decoding of `+` as a space. */
  function PlusToSpace(s: string): (r: string)
    ensures |r| == |s|
    ensures forall i :: 0 <= i < |s| ==> r[i] == if s[i] == '+' then ' ' else s[i]
    ensures '+' !in s ==> r == s
  {
    if s == [] then [] else [if s[0] == '+' then ' ' else s[0]] + PlusToSpace(s[1..])
  }
}
