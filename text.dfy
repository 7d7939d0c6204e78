/** String operations the gateway relies on, with the exact character classes
    of the language each caller is written in. */
module Text {

  /** The characters JavaScript's `String.prototype.trim` removes and `\s`
      matches (WhiteSpace and LineTerminator). */
  predicate JsSpace(c: char)
  {
    c in {'\t', '\n', '\U{000B}', '\U{000C}', '\r', ' ', '\U{00A0}', '\U{1680}',
          '\U{2028}', '\U{2029}', '\U{202F}', '\U{205F}', '\U{3000}', '\U{FEFF}'}
    || ('\U{2000}' <= c <= '\U{200A}')
  }

  /** The characters Python's `str.strip()` removes (`str.isspace`). */
  predicate PySpace(c: char)
  {
    c in {'\t', '\n', '\U{000B}', '\U{000C}', '\r', '\U{001C}', '\U{001D}', '\U{001E}',
          '\U{001F}', ' ', '\U{0085}', '\U{00A0}', '\U{1680}', '\U{2028}', '\U{2029}',
          '\U{202F}', '\U{205F}', '\U{3000}'}
    || ('\U{2000}' <= c <= '\U{200A}')
  }

  /** Which whitespace class a trim uses. */
  datatype Lang = Js | Py

  predicate IsSpace(lang: Lang, c: char)
  {
    if lang == Js then JsSpace(c) else PySpace(c)
  }

  function TrimStart(lang: Lang, s: string): (r: string)
    ensures |r| <= |s| && r == s[|s| - |r|..]
    ensures r == [] || !IsSpace(lang, r[0])
    ensures forall i :: 0 <= i < |s| - |r| ==> IsSpace(lang, s[i])
  {
    if s == [] || !IsSpace(lang, s[0]) then s else TrimStart(lang, s[1..])
  }

  function TrimEnd(lang: Lang, s: string): (r: string)
    ensures |r| <= |s| && r == s[..|r|]
    ensures r == [] || !IsSpace(lang, r[|r| - 1])
    ensures forall i :: |r| <= i < |s| ==> IsSpace(lang, s[i])
  {
    if s == [] || !IsSpace(lang, s[|s| - 1]) then s else TrimEnd(lang, s[..|s| - 1])
  }

  /** JavaScript `s.trim()` (lang Js) or Python `s.strip()` (lang Py). */
  function Trim(lang: Lang, s: string): (r: string)
    ensures r == [] || (!IsSpace(lang, r[0]) && !IsSpace(lang, r[|r| - 1]))
  {
    TrimEnd(lang, TrimStart(lang, s))
  }

  /** A string already free of surrounding whitespace is its own trim. */
  lemma TrimNoop(lang: Lang, s: string)
    requires s == [] || (!IsSpace(lang, s[0]) && !IsSpace(lang, s[|s| - 1]))
    ensures Trim(lang, s) == s
  {
  }

  /** Python `s.rstrip(c)`: every trailing `c` removed. */
  function RStripChar(s: string, c: char): (r: string)
    ensures |r| <= |s| && r == s[..|r|]
    ensures r == [] || r[|r| - 1] != c
    ensures forall i :: |r| <= i < |s| ==> s[i] == c
  {
    if s == [] || s[|s| - 1] != c then s else RStripChar(s[..|s| - 1], c)
  }

  predicate StartsWith(s: string, p: string)
  {
    |p| <= |s| && s[..|p|] == p
  }

  /** Strings that differ in their first character are not prefixes of one
      another. */
  lemma FirstCharDiffers(s: string, p: string)
    requires s != [] && p != [] && s[0] != p[0]
    ensures !StartsWith(s, p)
  {
  }

  predicate EndsWith(s: string, p: string)
  {
    |p| <= |s| && s[|s| - |p|..] == p
  }

  /** `p` occurs in `s` at position `i`. */
  predicate OccursAt(s: string, p: string, i: int)
  {
    0 <= i <= |s| - |p| && s[i..i + |p|] == p
  }

  /** Python's `p in s` on strings: `p` occurs in `s`. */
  predicate HasSubstring(s: string, p: string)
  {
    exists i | 0 <= i <= |s| - |p| :: OccursAt(s, p, i)
  }

  predicate Contains(s: string, c: char)
  {
    c in s
  }

  /** `s.indexOf(c)` / `s.find(c)`: the first position of `c`, or -1. */
  function IndexOf(s: string, c: char): (i: int)
    ensures -1 <= i < |s|
    ensures i == -1 <==> !Contains(s, c)
    ensures i >= 0 ==> s[i] == c && forall j :: 0 <= j < i ==> s[j] != c
  {
    if s == [] then -1
    else if s[0] == c then 0
    else
      var i := IndexOf(s[1..], c);
      assert Contains(s, c) ==> Contains(s[1..], c) by {
        if Contains(s, c) {
          var j :| 0 <= j < |s| && s[j] == c;
          assert s[1..][j - 1] == c;
        }
      }
      if i < 0 then -1 else i + 1
  }

  lemma {:induction false} IndexOfAppend(a: string, b: string, c: char)
    requires !Contains(a, c) && Contains(b, c)
    ensures IndexOf(a + b, c) == |a| + IndexOf(b, c)
  {
    if a != [] {
      assert a[0] != c;
      assert (a + b)[0] == a[0];
      assert (a + b)[1..] == a[1..] + b;
      assert forall j :: 0 <= j < |a[1..]| ==> a[1..][j] == a[j + 1];
      IndexOfAppend(a[1..], b, c);
    } else {
      assert a + b == b;
    }
  }

  /** Splitting a line, a separator and the rest peels off the line. */
  lemma SplitOnCons(pre: string, rest: string, c: char)
    requires !Contains(pre, c)
    ensures SplitOn(pre + [c] + rest, c) == [pre] + SplitOn(rest, c)
  {
    var s := pre + [c] + rest;
    assert s == pre + ([c] + rest);
    assert ([c] + rest)[0] == c;
    assert IndexOf([c] + rest, c) == 0;
    IndexOfAppend(pre, [c] + rest, c);
    assert s[..|pre|] == pre;
    assert s[|pre| + 1..] == rest;
  }

  /** JavaScript `s.split(c)` / Python `s.split(c)` for a one-character separator. */
  function SplitOn(s: string, c: char): (parts: seq<string>)
    ensures |parts| >= 1
    ensures forall i :: 0 <= i < |parts| ==> !Contains(parts[i], c)
    decreases |s|
  {
    var i := IndexOf(s, c);
    if i < 0 then [s] else [s[..i]] + SplitOn(s[i + 1..], c)
  }

  /** `parts.join(sep)`. */
  function Join(parts: seq<string>, sep: string): string
  {
    if parts == [] then ""
    else if |parts| == 1 then parts[0]
    else parts[0] + sep + Join(parts[1..], sep)
  }

  /** JavaScript `s.split(/\r?\n/)`: split at each line feed, dropping one
      carriage return right before it. The last piece, which no line feed
      follows, keeps a trailing carriage return. */
  function SplitLines(s: string): (lines: seq<string>)
    ensures |lines| >= 1
  {
    var parts := SplitOn(s, '\n');
    seq(|parts|, i requires 0 <= i < |parts| => if i < |parts| - 1 then DropCr(parts[i]) else parts[i])
  }

  function DropCr(s: string): (r: string)
  {
    if s != [] && s[|s| - 1] == '\r' then s[..|s| - 1] else s
  }

  /** Splitting lines that were joined with "\n" or "\r\n" gives them back,
      provided no line holds a line feed or ends with a carriage return. */
  lemma SplitLinesJoin(lines: seq<string>, eol: string)
    requires |lines| >= 1
    requires eol == "\n" || eol == "\r\n"
    requires forall i :: 0 <= i < |lines| ==> !Contains(lines[i], '\n')
    requires forall i :: 0 <= i < |lines| ==> lines[i] == [] || lines[i][|lines[i]| - 1] != '\r'
    ensures SplitLines(Join(lines, eol)) == lines
  {
    var cr := eol[..|eol| - 1];
    assert cr == if eol == "\n" then "" else "\r";
    SplitOnJoin(lines, eol);
    DropCrTerminated(lines, cr);
    TerminatedLast(lines, cr);
    var parts := Terminated(lines, cr);
    forall i | 0 <= i < |lines| ensures SplitLines(Join(lines, eol))[i] == lines[i] {
      if i == |lines| - 1 {
        assert SplitLines(Join(lines, eol))[i] == parts[i];
      } else {
        assert SplitLines(Join(lines, eol))[i] == DropCr(parts[i]);
      }
    }
  }

  /** The last line is left unterminated. */
  lemma {:induction false} TerminatedLast(lines: seq<string>, cr: string)
    requires |lines| >= 1
    ensures Terminated(lines, cr)[|lines| - 1] == lines[|lines| - 1]
  {
    if |lines| > 1 {
      TerminatedLast(lines[1..], cr);
    }
  }

  /** All lines but the last, each followed by `cr`. */
  function Terminated(lines: seq<string>, cr: string): (r: seq<string>)
    ensures |r| == |lines|
  {
    if |lines| <= 1 then lines else [lines[0] + cr] + Terminated(lines[1..], cr)
  }

  lemma {:induction false} DropCrTerminated(lines: seq<string>, cr: string)
    requires cr == "" || cr == "\r"
    requires forall i :: 0 <= i < |lines| ==> lines[i] == [] || lines[i][|lines[i]| - 1] != '\r'
    ensures forall i :: 0 <= i < |lines| ==> DropCr(Terminated(lines, cr)[i]) == lines[i]
  {
    if |lines| > 1 {
      DropCrTerminated(lines[1..], cr);
      var s := lines[0] + cr;
      assert cr == "\r" ==> s[..|s| - 1] == lines[0];
      assert DropCr(s) == lines[0];
      forall i | 1 <= i < |lines| ensures DropCr(Terminated(lines, cr)[i]) == lines[i] {
        assert Terminated(lines, cr)[i] == Terminated(lines[1..], cr)[i - 1];
        assert lines[1..][i - 1] == lines[i];
      }
    }
  }

  /** A line ending: a line feed, optionally preceded by characters that are
      not line feeds ("\n" and "\r\n" are the two the system uses). */
  predicate LineEnding(eol: string)
  {
    |eol| >= 1 && eol[|eol| - 1] == '\n' && !Contains(eol[..|eol| - 1], '\n')
  }

  lemma JoinStep(lines: seq<string>, eol: string)
    requires |lines| >= 2 && LineEnding(eol)
    ensures Join(lines, eol) == (lines[0] + eol[..|eol| - 1]) + ['\n'] + Join(lines[1..], eol)
  {
    assert eol == eol[..|eol| - 1] + ['\n'];
  }

  lemma {:induction false} SplitOnJoin(lines: seq<string>, eol: string)
    requires |lines| >= 1
    requires LineEnding(eol)
    requires forall i :: 0 <= i < |lines| ==> !Contains(lines[i], '\n')
    ensures SplitOn(Join(lines, eol), '\n') == Terminated(lines, eol[..|eol| - 1])
  {
    if |lines| == 1 {
      assert IndexOf(lines[0], '\n') == -1;
    } else {
      SplitJoinStep(lines, eol);
      SplitOnJoin(lines[1..], eol);
    }
  }

  lemma SplitJoinStep(lines: seq<string>, eol: string)
    requires |lines| >= 2
    requires LineEnding(eol)
    requires !Contains(lines[0], '\n')
    ensures SplitOn(Join(lines, eol), '\n')
         == [lines[0] + eol[..|eol| - 1]] + SplitOn(Join(lines[1..], eol), '\n')
  {
    var cr := eol[..|eol| - 1];
    JoinStep(lines, eol);
    ConcatNoChar(lines[0], cr, '\n');
    SplitOnCons(lines[0] + cr, Join(lines[1..], eol), '\n');
  }

  lemma ConcatNoChar(a: string, b: string, c: char)
    requires !Contains(a, c) && !Contains(b, c)
    ensures !Contains(a + b, c)
  {
    assert forall j :: 0 <= j < |a + b| ==> (a + b)[j] == if j < |a| then a[j] else b[j - |a|];
  }

  /** JavaScript `s.replace(/c/g, r)`. */
  function ReplaceAll(s: string, c: char, r: string): (t: string)
    ensures !Contains(s, c) ==> t == s
  {
    if s == [] then []
    else (if s[0] == c then r else [s[0]]) + ReplaceAll(s[1..], c, r)
  }

  /** ASCII lower-casing, as Python's `str.lower` does on ASCII text. */
  function ToLowerAscii(s: string): (r: string)
    ensures |r| == |s|
  {
    seq(|s|, i requires 0 <= i < |s| =>
      if 'A' <= s[i] <= 'Z' then (s[i] as int + 32) as char else s[i])
  }

  // ---- ordering -------------------------------------------------------------

  /** Python's `a <= b` on strings: code point by code point, a proper
      prefix first. */
  predicate StrLe(a: string, b: string)
  {
    a == [] || (b != [] && (a[0] < b[0] || (a[0] == b[0] && StrLe(a[1..], b[1..]))))
  }

  /** Any two strings are ordered one way or the other. */
  lemma {:induction false} StrLeTotal(a: string, b: string)
    ensures StrLe(a, b) || StrLe(b, a)
  {
    if a != [] && b != [] && a[0] == b[0] {
      StrLeTotal(a[1..], b[1..]);
    }
  }

  lemma {:induction false} StrLeRefl(a: string)
    ensures StrLe(a, a)
  {
    if a != [] {
      StrLeRefl(a[1..]);
    }
  }

  lemma {:induction false} StrLeTrans(a: string, b: string, c: string)
    requires StrLe(a, b) && StrLe(b, c)
    ensures StrLe(a, c)
  {
    if a != [] && a[0] == b[0] && b[0] == c[0] {
      StrLeTrans(a[1..], b[1..], c[1..]);
    }
  }

  /** Two strings ordered both ways are equal. */
  lemma {:induction false} StrLeAntisymmetric(a: string, b: string)
    requires StrLe(a, b) && StrLe(b, a)
    ensures a == b
  {
    if a != [] {
      StrLeAntisymmetric(a[1..], b[1..]);
      assert a == [a[0]] + a[1..] && b == [b[0]] + b[1..];
    }
  }

  predicate SortedStrings(ss: seq<string>)
  {
    forall i, j :: 0 <= i < j < |ss| ==> StrLe(ss[i], ss[j])
  }

  /** `x` placed before the first element it does not follow. */
  function InsertString(x: string, ss: seq<string>): (r: seq<string>)
    requires SortedStrings(ss)
    ensures SortedStrings(r)
    ensures multiset(r) == multiset(ss) + multiset{x}
  {
    if ss == [] then [x]
    else if StrLe(x, ss[0]) then
      InsertFirst(x, ss);
      [x] + ss
    else
      var rest := InsertString(x, ss[1..]);
      StrLeTotal(x, ss[0]);
      assert ss == [ss[0]] + ss[1..];
      forall k | 0 <= k < |rest| ensures StrLe(ss[0], rest[k]) {
        assert rest[k] in multiset(rest);
        if rest[k] != x {
          assert rest[k] in ss[1..];
        }
      }
      [ss[0]] + rest
  }

  /** A string no greater than the first of a sorted list starts it. */
  lemma InsertFirst(x: string, ss: seq<string>)
    requires SortedStrings(ss) && ss != [] && StrLe(x, ss[0])
    ensures SortedStrings([x] + ss)
  {
    forall j | 0 < j < |ss| ensures StrLe(x, ss[j]) {
      StrLeTrans(x, ss[0], ss[j]);
    }
  }

  /** Python's `sorted` on strings. */
  function SortStrings(ss: seq<string>): (r: seq<string>)
    ensures SortedStrings(r)
    ensures multiset(r) == multiset(ss)
  {
    if ss == [] then []
    else
      assert ss == [ss[0]] + ss[1..];
      InsertString(ss[0], SortStrings(ss[1..]))
  }

  /** Sorting is determined by the strings alone: two sorted lists of the
      same strings are equal. */
  lemma {:induction false} SortedUnique(a: seq<string>, b: seq<string>)
    requires SortedStrings(a) && SortedStrings(b) && multiset(a) == multiset(b)
    ensures a == b
    decreases |a|
  {
    if a != [] {
      assert |b| == |a| by {
        assert |multiset(a)| == |a| && |multiset(b)| == |b|;
      }
      assert a[0] in multiset(b) && b[0] in multiset(a);
      SortedHeadLeast(b, a[0]);
      SortedHeadLeast(a, b[0]);
      StrLeAntisymmetric(a[0], b[0]);
      MultisetTail(a);
      MultisetTail(b);
      SortedUnique(a[1..], b[1..]);
      assert a == [a[0]] + a[1..] && b == [b[0]] + b[1..];
    }
  }

  /** The head of a sorted list is no greater than any of its elements. */
  lemma SortedHeadLeast(a: seq<string>, x: string)
    requires SortedStrings(a) && x in multiset(a)
    ensures StrLe(a[0], x)
  {
    var i :| 0 <= i < |a| && a[i] == x;
    if i == 0 {
      StrLeRefl(x);
    }
  }

  lemma MultisetTail(a: seq<string>)
    requires a != []
    ensures multiset(a[1..]) == multiset(a) - multiset{a[0]}
  {
    assert a == [a[0]] + a[1..];
  }
}
