/**
 * The JavaScript string operations the core uses, on strings as sequences of characters:
 * `trim`, `split` on one character, `join`, `toLowerCase` (ASCII letters), `includes`
 * and `startsWith`, and the character classes `\s`, `\d` and `\w` of its regular expressions.
 */
module Text {
  import opened Seqs

  /**
   * White space as JavaScript defines it: the characters `trim` removes and `\s` matches
   * (tab, line feed, vertical tab, form feed, carriage return, space, no-break space,
   * the Unicode space separators, line and paragraph separator, byte order mark).
   */
  predicate IsSpace(c: char) {
    c == '\t' || c == '\n' || c == '\U{000B}' || c == '\U{000C}' || c == '\r' || c == ' '
    || c == '\U{00A0}' || c == '\U{1680}' || ('\U{2000}' <= c <= '\U{200A}')
    || c == '\U{2028}' || c == '\U{2029}' || c == '\U{202F}' || c == '\U{205F}'
    || c == '\U{3000}' || c == '\U{FEFF}'
  }

  /** `\d`: an ASCII digit. */
  predicate IsDigit(c: char) {
    '0' <= c <= '9'
  }

  /** `\w`: an ASCII letter, digit or underscore. */
  predicate IsWordChar(c: char) {
    ('a' <= c <= 'z') || ('A' <= c <= 'Z') || IsDigit(c) || c == '_'
  }

  /** A string made of white space only (the empty string included). */
  predicate IsBlank(s: string) {
    forall i :: 0 <= i < |s| ==> IsSpace(s[i])
  }

  /** `s.trimStart()`: drops the leading white space. */
  function TrimStart(s: string): (r: string)
    ensures |r| <= |s| && r == s[|s| - |r|..]
    ensures forall i :: 0 <= i < |s| - |r| ==> IsSpace(s[i])
    ensures r == [] || !IsSpace(r[0])
  {
    if s != [] && IsSpace(s[0]) then TrimStart(s[1..]) else s
  }

  /** `s.trimEnd()`: drops the trailing white space. */
  function TrimEnd(s: string): (r: string)
    ensures |r| <= |s| && r == s[..|r|]
    ensures forall i :: |r| <= i < |s| ==> IsSpace(s[i])
    ensures r == [] || !IsSpace(r[|r| - 1])
  {
    if s != [] && IsSpace(s[|s| - 1]) then TrimEnd(s[..|s| - 1]) else s
  }

  /**
   * `s.trim()`: the part of `s` left after dropping white space at both ends. It is
   * empty or starts and ends with a non-space; `TrimIsMiddle` says which part it is.
   */
  function Trim(s: string): (r: string)
    ensures |r| <= |s|
    ensures r == [] || (!IsSpace(r[0]) && !IsSpace(r[|r| - 1]))
  {
    TrimEnd(TrimStart(s))
  }

  /**
   * The trimmed string is the stretch of `s` that starts after the leading white space,
   * and everything after that stretch is white space too.
   */
  lemma TrimIsMiddle(s: string)
    ensures var a := |s| - |TrimStart(s)|;
      && a + |Trim(s)| <= |s|
      && (forall i :: 0 <= i < |Trim(s)| ==> Trim(s)[i] == s[a + i])
      && (forall i :: 0 <= i < a ==> IsSpace(s[i]))
      && (forall i :: a + |Trim(s)| <= i < |s| ==> IsSpace(s[i]))
  {
    var t := TrimStart(s);
    var r := TrimEnd(t);
    assert Trim(s) == r;
    TrimMiddleOf(s, t, r);
  }

  /** `r`, a prefix of the suffix `t` of `s` followed in `t` by white space only, sits in `s` where `t` starts. */
  lemma TrimMiddleOf(s: string, t: string, r: string)
    requires |t| <= |s| && t == s[|s| - |t|..]
    requires |r| <= |t| && r == t[..|r|]
    requires forall i :: |r| <= i < |t| ==> IsSpace(t[i])
    ensures forall i :: 0 <= i < |r| ==> r[i] == s[|s| - |t| + i]
    ensures forall i :: |s| - |t| + |r| <= i < |s| ==> IsSpace(s[i])
  {
    var a := |s| - |t|;
    forall i | a + |r| <= i < |s|
      ensures IsSpace(s[i])
    {
      assert s[i] == t[i - a];
    }
    forall i | 0 <= i < |r|
      ensures r[i] == s[a + i]
    {
      assert r[i] == t[i];
    }
  }

  /** Trimming the start of a string that starts with a non-space changes nothing. */
  lemma TrimStartUnchanged(s: string)
    requires s == [] || !IsSpace(s[0])
    ensures TrimStart(s) == s
  {
  }

  /** Trimming after `trimStart` is trimming. */
  lemma TrimAfterTrimStart(s: string)
    ensures Trim(TrimStart(s)) == Trim(s)
  {
    TrimStartUnchanged(TrimStart(s));
  }

  /** Trimming removes characters, never adds one. */
  lemma TrimAvoids(s: string, c: char)
    requires c !in s
    ensures c !in Trim(s)
  {
  }

  /** Trimming leaves nothing exactly when the string is blank. */
  lemma TrimEmptyIffBlank(s: string)
    ensures Trim(s) == [] <==> IsBlank(s)
  {
    var t := TrimStart(s);
    if Trim(s) == [] {
      assert t == [];
    } else {
      var k := |s| - |t|;
      assert s[k] == t[0];
    }
  }

  /** Trimming a trimmed string changes nothing. */
  lemma TrimIdempotent(s: string)
    ensures Trim(Trim(s)) == Trim(s)
  {
    var t := Trim(s);
    TrimUnchanged(t);
  }

  /** A string that neither starts nor ends with white space is its own trim. */
  lemma TrimUnchanged(s: string)
    requires s == [] || (!IsSpace(s[0]) && !IsSpace(s[|s| - 1]))
    ensures Trim(s) == s
  {
  }

  /**
   * `s.split(sep)` for a one-character separator: the pieces between the separators, in
   * order. There is always at least one piece and no piece holds the separator.
   */
  function Split(s: string, sep: char): (r: seq<string>)
    ensures |r| >= 1
    ensures forall i :: 0 <= i < |r| ==> sep !in r[i]
  {
    if s == [] then [[]]
    else
      var rest := Split(s[1..], sep);
      if s[0] == sep then [[]] + rest else [[s[0]] + rest[0]] + rest[1..]
  }

  /** `parts.join(sep)`: the parts with `sep` between consecutive ones; `[].join(sep)` is "". */
  function Join(parts: seq<string>, sep: string): string {
    if |parts| == 0 then []
    else if |parts| == 1 then parts[0]
    else parts[0] + sep + Join(parts[1..], sep)
  }

  /** Joining the pieces of a split with the separator gives the original string back. */
  lemma {:induction false} JoinSplit(s: string, sep: char)
    ensures Join(Split(s, sep), [sep]) == s
  {
    if s != [] {
      var rest := Split(s[1..], sep);
      JoinSplit(s[1..], sep);
      if s[0] != sep {
        if |rest| > 1 {
          assert rest == [rest[0]] + rest[1..];
          assert Join(rest, [sep]) == rest[0] + [sep] + Join(rest[1..], [sep]);
        }
      }
    }
  }

  /** A string without the separator splits into itself alone. */
  lemma {:induction false} SplitWithoutSeparator(s: string, sep: char)
    requires sep !in s
    ensures Split(s, sep) == [s]
  {
    if s != [] {
      assert sep !in s[1..];
      SplitWithoutSeparator(s[1..], sep);
      assert [s[0]] + s[1..] == s;
    }
  }

  /** Splitting at a separator splits each side. */
  lemma {:induction false} SplitAtSeparator(a: string, b: string, sep: char)
    ensures Split(a + [sep] + b, sep) == Split(a, sep) + Split(b, sep)
  {
    if a == [] {
      assert a + [sep] + b == [sep] + b;
      assert ([sep] + b)[1..] == b;
    } else {
      var s := a + [sep] + b;
      assert s[0] == a[0];
      assert s[1..] == a[1..] + [sep] + b;
      SplitAtSeparator(a[1..], b, sep);
    }
  }

  /** Splitting a join of separator-free parts gives the parts back. */
  lemma {:induction false} SplitJoin(parts: seq<string>, sep: char)
    requires |parts| >= 1
    requires forall i :: 0 <= i < |parts| ==> sep !in parts[i]
    ensures Split(Join(parts, [sep]), sep) == parts
  {
    if |parts| == 1 {
      SplitWithoutSeparator(parts[0], sep);
    } else {
      SplitJoin(parts[1..], sep);
      SplitAtSeparator(parts[0], Join(parts[1..], [sep]), sep);
      SplitWithoutSeparator(parts[0], sep);
      assert parts == [parts[0]] + parts[1..];
    }
  }
  /** Lines without line feeds, joined with line feeds, split back into the same lines. */
  lemma SplitJoinLines(lines: seq<string>)
    requires |lines| >= 1
    requires forall i :: 0 <= i < |lines| ==> '\n' !in lines[i]
    ensures Split(Join(lines, "\n"), '\n') == lines
  {
    SplitJoin(lines, '\n');
  }


  /** A character that is in no part and not in the separator is not in the join. */
  lemma {:induction false} JoinAvoids(parts: seq<string>, sep: string, c: char)
    requires forall i :: 0 <= i < |parts| ==> c !in parts[i]
    requires c !in sep
    ensures c !in Join(parts, sep)
  {
    if |parts| > 1 {
      JoinAvoids(parts[1..], sep, c);
    }
  }

  /** A join is empty only when there is nothing to join or the parts are empty. */
  lemma {:induction false} JoinNonEmpty(parts: seq<string>, sep: string)
    requires |parts| >= 1 && parts[0] != []
    ensures |Join(parts, sep)| >= |parts[0]| > 0
    ensures Join(parts, sep)[..|parts[0]|] == parts[0]
  {
  }

  /** `line.trim() !== ''`: the line holds something other than white space. */
  predicate IsContentLine(line: string) {
    Trim(line) != []
  }

  /** The pieces of `text` split on line feeds that are not blank, untrimmed and in order. */
  function NonBlankLines(text: string): (lines: seq<string>)
    ensures forall i :: 0 <= i < |lines| ==> IsContentLine(lines[i]) && lines[i] != [] && '\n' !in lines[i]
  {
    var pieces := Split(text, '\n');
    FilterPreserves(pieces, IsContentLine, (x: string) => '\n' !in x);
    Filter(pieces, IsContentLine)
  }

  /** A line is kept exactly when it is a piece of the split and not blank. */
  lemma NonBlankLinesMember(text: string, line: string)
    ensures line in NonBlankLines(text) <==> line in Split(text, '\n') && !IsBlank(line)
  {
    FilterMember(Split(text, '\n'), IsContentLine, line);
    TrimEmptyIffBlank(line);
  }

  /** `c.toLowerCase()` for ASCII letters; every other character is left as it is. */
  function ToLowerChar(c: char): (r: char)
    ensures 'A' <= c <= 'Z' ==> r as int == c as int + 32
    ensures !('A' <= c <= 'Z') ==> r == c
  {
    if 'A' <= c <= 'Z' then (c as int + 32) as char else c
  }

  /** `s.toLowerCase()`, character by character. */
  function ToLower(s: string): (r: string)
    ensures |r| == |s|
    ensures forall i :: 0 <= i < |s| ==> r[i] == ToLowerChar(s[i])
  {
    seq(|s|, i requires 0 <= i < |s| => ToLowerChar(s[i]))
  }

  /** Lowering a lowered string changes nothing. */
  lemma ToLowerIdempotent(s: string)
    ensures ToLower(ToLower(s)) == ToLower(s)
  {
  }

  /** `s.includes(t)`: `t` occurs in `s` at some position. */
  predicate Contains(s: string, t: string) {
    StartsWith(s, t) || (s != [] && Contains(s[1..], t))
  }

  /** `s.startsWith(p)`. */
  predicate StartsWith(s: string, p: string) {
    |p| <= |s| && s[..|p|] == p
  }

  /** The length of the run of characters at the start of `s` that satisfy `cls`. */
  function LeadingRun(s: string, cls: char -> bool): (n: nat)
    ensures n <= |s|
    ensures forall i :: 0 <= i < n ==> cls(s[i])
    ensures n < |s| ==> !cls(s[n])
  {
    if s != [] && cls(s[0]) then 1 + LeadingRun(s[1..], cls) else 0
  }

  /** A run of characters of the class, followed by one that is not, is the leading run. */
  lemma {:induction false} LeadingRunOf(run: string, rest: string, cls: char -> bool)
    requires forall i :: 0 <= i < |run| ==> cls(run[i])
    requires rest == [] || !cls(rest[0])
    ensures LeadingRun(run + rest, cls) == |run|
  {
    if run != [] {
      assert (run + rest)[0] == run[0];
      assert (run + rest)[1..] == run[1..] + rest;
      LeadingRunOf(run[1..], rest, cls);
    }
  }

  /** `s || fallback` on a string: the fallback replaces only the empty string. */
  function OrElse(s: string, fallback: string): (r: string)
    ensures s != [] ==> r == s
    ensures s == [] ==> r == fallback
  {
    if s != [] then s else fallback
  }

  /** The number of characters in all the parts together. */
  function TotalLength(parts: seq<string>): nat {
    if parts == [] then 0 else |parts[0]| + TotalLength(parts[1..])
  }

  /** Where part `i` begins when the parts are written out with one separator between neighbours. */
  function PartOffset(parts: seq<string>, i: nat): nat
    requires i <= |parts|
  {
    TotalLength(parts[..i]) + i
  }

  /**
   * `s` is the parts written out in order with the character `sep` between neighbours and
   * nothing else: each part at its offset, a separator after every part but the last, and
   * no character more.
   */
  predicate LaidOut(s: string, parts: seq<string>, sep: char) {
    && parts != []
    && |s| == TotalLength(parts) + |parts| - 1
    && forall i :: 0 <= i < |parts| ==>
      && PartOffset(parts, i) + |parts[i]| <= |s|
      && s[PartOffset(parts, i)..PartOffset(parts, i) + |parts[i]|] == parts[i]
      && (i + 1 < |parts| ==> PartOffset(parts, i) + |parts[i]| < |s| && s[PartOffset(parts, i) + |parts[i]|] == sep)
  }

  lemma {:induction false} JoinLength(parts: seq<string>, sep: char)
    requires parts != []
    ensures |Join(parts, [sep])| == TotalLength(parts) + |parts| - 1
  {
    if |parts| > 1 {
      JoinLength(parts[1..], sep);
    }
  }

  /** Part `i` of a join sits at its offset, followed by the separator unless it is the last. */
  lemma {:induction false} JoinPartAt(parts: seq<string>, sep: char, i: nat)
    requires i < |parts|
    ensures var s, o := Join(parts, [sep]), PartOffset(parts, i);
      && o + |parts[i]| <= |s| && s[o..o + |parts[i]|] == parts[i]
      && (i + 1 < |parts| ==> o + |parts[i]| < |s| && s[o + |parts[i]|] == sep)
  {
    JoinLength(parts, sep);
    assert parts[..0] == [];
    if |parts| > 1 {
      var s, rest := Join(parts, [sep]), Join(parts[1..], [sep]);
      assert s == parts[0] + [sep] + rest;
      if i > 0 {
        JoinPartAt(parts[1..], sep, i - 1);
        assert parts[..i][1..] == parts[1..][..i - 1];
        assert PartOffset(parts, i) == |parts[0]| + 1 + PartOffset(parts[1..], i - 1);
        assert s[|parts[0]| + 1..] == rest;
      }
    }
  }

  /** Joining with a one-character separator lays the parts out with it between neighbours. */
  lemma JoinLaidOut(parts: seq<string>, sep: char)
    requires parts != []
    ensures LaidOut(Join(parts, [sep]), parts, sep)
  {
    JoinLength(parts, sep);
    forall i | 0 <= i < |parts|
      ensures var s, o := Join(parts, [sep]), PartOffset(parts, i);
        && o + |parts[i]| <= |s| && s[o..o + |parts[i]|] == parts[i]
        && (i + 1 < |parts| ==> o + |parts[i]| < |s| && s[o + |parts[i]|] == sep)
    {
      JoinPartAt(parts, sep, i);
    }
  }

  /**
   * Lines that are not empty and hold no line feed, joined with spaces, give one line
   * that is empty exactly when there were no lines, and that starts with the first line.
   */
  lemma JoinLines(lines: seq<string>)
    requires forall i :: 0 <= i < |lines| ==> lines[i] != [] && '\n' !in lines[i]
    ensures '\n' !in Join(lines, " ")
    ensures Join(lines, " ") == [] <==> lines == []
    ensures lines != [] ==> Join(lines, " ")[..|lines[0]|] == lines[0]
  {
    JoinAvoids(lines, " ", '\n');
    if lines != [] {
      JoinNonEmpty(lines, " ");
    }
  }
  /**
   * Lines `a` up to `b` of `lines` joined with spaces, as the parsers build their text
   * fields: a single line, empty exactly when `lines` has no line `a`, starting with line `a`.
   */
  lemma JoinedRange(lines: seq<string>, a: nat, b: nat)
    requires a < b
    requires forall i :: 0 <= i < |lines| ==> lines[i] != [] && '\n' !in lines[i]
    ensures var f := Join(Slice(lines, a, b), " ");
      && '\n' !in f
      && (f == [] <==> |lines| <= a)
      && (|lines| > a ==> |f| >= |lines[a]| && f[..|lines[a]|] == lines[a])
  {
    var part := Slice(lines, a, b);
    JoinLines(part);
    if |lines| > a {
      assert part[0] == lines[a];
    }
  }

}
