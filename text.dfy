/** The string operations of Python's `str` that the classifier relies on,
    written out on `seq<char>`. */
module Text {
  import opened Wrappers

  // ---------------------------------------------------------------- case

  /** `str.lower()` restricted to ASCII letters. */
  function LowerChar(c: char): char {
    if 'A' <= c <= 'Z' then (c as int + 32) as char else c
  }

  function UpperChar(c: char): char {
    if 'a' <= c <= 'z' then (c as int - 32) as char else c
  }

  function Lower(s: string): (r: string)
    ensures |r| == |s|
  {
    if s == [] then [] else [LowerChar(s[0])] + Lower(s[1..])
  }

  function Upper(s: string): (r: string)
    ensures |r| == |s|
  {
    if s == [] then [] else [UpperChar(s[0])] + Upper(s[1..])
  }

  /** Text without upper-case ASCII letters is its own lower case. */
  lemma {:induction false} LowerKeepsLowercase(s: string)
    requires forall i :: 0 <= i < |s| ==> !('A' <= s[i] <= 'Z')
    ensures Lower(s) == s
  {
    if s != [] {
      LowerKeepsLowercase(s[1..]);
      assert s == [s[0]] + s[1..];
    }
  }

  // ---------------------------------------------------------------- search

  /** `sub` occurs in `s` starting at index `i`. */
  predicate OccursAt(s: string, sub: string, i: int) {
    0 <= i && i + |sub| <= |s| && s[i..i + |sub|] == sub
  }

  /** `sub in s`: `sub` occurs at some index of `s`; the empty string
      occurs in every string. */
  predicate Contains(s: string, sub: string) {
    exists i :: 0 <= i <= |s| - |sub| && OccursAt(s, sub, i)
  }

  lemma ContainsInMiddle(a: string, b: string, c: string)
    ensures Contains(a + b + c, b)
  {
    var s := a + b + c;
    assert OccursAt(s, b, |a|);
  }

  /** An occurrence stays an occurrence when text is added on both sides. */
  lemma ContainsWithin(a: string, b: string, c: string, sub: string)
    requires Contains(b, sub)
    ensures Contains(a + b + c, sub)
  {
    var i :| 0 <= i <= |b| - |sub| && OccursAt(b, sub, i);
    var s := a + b + c;
    assert s[|a| + i..|a| + i + |sub|] == b[i..i + |sub|];
    assert OccursAt(s, sub, |a| + i);
  }

  /** `s.startswith(prefix)`. */
  predicate StartsWith(s: string, prefix: string) {
    |prefix| <= |s| && s[..|prefix|] == prefix
  }

  /** Index of the last occurrence of `c`, as `str.rfind` (None for -1). */
  function RFind(s: string, c: char): (r: Option<nat>)
    ensures r.Some? ==> r.value < |s| && s[r.value] == c
    ensures r.Some? ==> forall j :: r.value < j < |s| ==> s[j] != c
    ensures r.None? ==> c !in s
  {
    if s == [] then None
    else if s[|s| - 1] == c then Some(|s| - 1)
    else RFind(s[..|s| - 1], c)
  }

  // ---------------------------------------------------------------- split / join

  /** `s.split(sep)` for a one-character separator: the pieces between
      separators, always at least one. */
  function Split(s: string, sep: char): (parts: seq<string>)
    ensures |parts| >= 1
    ensures sep in s ==> |parts| >= 2
    ensures forall k :: 0 <= k < |parts| ==> sep !in parts[k]
  {
    if s == [] then [""]
    else if s[0] == sep then [""] + Split(s[1..], sep)
    else
      var rest := Split(s[1..], sep);
      [[s[0]] + rest[0]] + rest[1..]
  }

  /** `s.count(c)`. */
  function CountChar(s: string, c: char): nat {
    if s == [] then 0 else (if s[0] == c then 1 else 0) + CountChar(s[1..], c)
  }

  /** Splitting gives one more piece than there are separators, and there
      is a separator exactly when the count is positive. */
  lemma {:induction false} SplitLength(s: string, sep: char)
    ensures |Split(s, sep)| == CountChar(s, sep) + 1
    ensures CountChar(s, sep) > 0 <==> sep in s
  {
    if s != [] {
      SplitLength(s[1..], sep);
      assert s == [s[0]] + s[1..];
    }
  }

  /** `sep.join(parts)`. */
  function Join(parts: seq<string>, sep: string): string {
    if parts == [] then ""
    else if |parts| == 1 then parts[0]
    else parts[0] + sep + Join(parts[1..], sep)
  }

  /** Splitting and joining again with the same separator gives back the
      original string. */
  lemma {:induction false} JoinSplit(s: string, sep: char)
    ensures Join(Split(s, sep), [sep]) == s
  {
    if s != [] {
      var rest := Split(s[1..], sep);
      JoinSplit(s[1..], sep);
      if s[0] == sep {
        assert Split(s, sep) == [""] + rest;
        assert ([""] + rest)[1..] == rest;
      } else {
        JoinExtendsFirst(s[0], rest, [sep]);
      }
      assert s == [s[0]] + s[1..];
    }
  }

  /** Putting a character in front of the first piece puts it in front of
      the joined text. */
  lemma JoinExtendsFirst(c: char, rest: seq<string>, sep: string)
    requires |rest| >= 1
    ensures Join([[c] + rest[0]] + rest[1..], sep) == [c] + Join(rest, sep)
  {
    var parts := [[c] + rest[0]] + rest[1..];
    if |rest| > 1 {
      assert parts[1..] == rest[1..];
    }
  }

  /** Every piece joined into a list occurs in the joined text. */
  lemma {:induction false} JoinContainsPart(parts: seq<string>, sep: string, k: nat)
    requires k < |parts|
    ensures Contains(Join(parts, sep), parts[k])
  {
    if |parts| == 1 {
      ContainsInMiddle("", parts[0], "");
      assert "" + parts[0] + "" == parts[0];
    } else if k == 0 {
      ContainsInMiddle("", parts[0], sep + Join(parts[1..], sep));
      assert "" + parts[0] + (sep + Join(parts[1..], sep)) == Join(parts, sep);
    } else {
      JoinContainsPart(parts[1..], sep, k - 1);
      var tail := Join(parts[1..], sep);
      var pre := parts[0] + sep;
      assert Join(parts, sep) == pre + tail + "";
      ContainsWithin(pre, tail, "", parts[k]);
    }
  }

  // ---------------------------------------------------------------- replace / strip / slice

  /** `s.replace(pat, rep)`: a single left-to-right pass over `s`, replacing
      non-overlapping occurrences of `pat`. */
  function ReplaceAll(s: string, pat: string, rep: string): string
    requires |pat| > 0
    decreases |s|
  {
    if |s| < |pat| then s
    else if s[..|pat|] == pat then rep + ReplaceAll(s[|pat|..], pat, rep)
    else [s[0]] + ReplaceAll(s[1..], pat, rep)
  }

  /** Replacing one character by a different one removes every occurrence
      of it, and adds no character other than the replacement. */
  lemma {:induction false} ReplaceCharRemoves(s: string, c: char, d: char, e: char)
    requires c != d && e != d
    ensures c !in ReplaceAll(s, [c], [d])
    ensures e in ReplaceAll(s, [c], [d]) ==> e in s
    ensures |ReplaceAll(s, [c], [d])| == |s|
    decreases |s|
  {
    if |s| < 1 {
    } else if s[..1] == [c] {
      ReplaceCharRemoves(s[1..], c, d, e);
      assert s == [s[0]] + s[1..];
    } else {
      ReplaceCharRemoves(s[1..], c, d, e);
      assert s[0] == s[..1][0];
    }
  }

  /** Replacing a pattern that does not occur leaves the string unchanged. */
  lemma {:induction false} ReplaceAbsent(s: string, pat: string, rep: string)
    requires |pat| > 0 && !Contains(s, pat)
    ensures ReplaceAll(s, pat, rep) == s
    decreases |s|
  {
    if |s| >= |pat| {
      assert !OccursAt(s, pat, 0);
      if Contains(s[1..], pat) {
        var i :| 0 <= i <= |s[1..]| - |pat| && OccursAt(s[1..], pat, i);
        assert s[i + 1..i + 1 + |pat|] == s[1..][i..i + |pat|];
        assert OccursAt(s, pat, i + 1);
      }
      ReplaceAbsent(s[1..], pat, rep);
      assert s == [s[0]] + s[1..];
    }
  }

  /** The whitespace characters of `str.isspace()`. */
  predicate IsSpace(c: char) {
    c == ' ' || ('\U{9}' <= c <= '\U{D}') || ('\U{1C}' <= c <= '\U{1F}')
    || c == '\U{85}' || c == '\U{A0}' || c == '\U{1680}' || ('\U{2000}' <= c <= '\U{200A}')
    || c == '\U{2028}' || c == '\U{2029}' || c == '\U{202F}' || c == '\U{205F}' || c == '\U{3000}'
  }

  function StripStart(s: string): (r: string)
    ensures |r| <= |s|
    ensures r != [] ==> !IsSpace(r[0])
  {
    if s != [] && IsSpace(s[0]) then StripStart(s[1..]) else s
  }

  function StripEnd(s: string): (r: string)
    ensures |r| <= |s|
    ensures r != [] ==> !IsSpace(r[|r| - 1])
    ensures r != [] ==> !IsSpace(r[0]) || (s != [] && r[0] == s[0])
  {
    if s != [] && IsSpace(s[|s| - 1]) then StripEnd(s[..|s| - 1]) else s
  }

  /** `s.strip()`. */
  function Strip(s: string): (r: string)
    ensures |r| <= |s|
  {
    StripEnd(StripStart(s))
  }

  /** `s[:n]`. */
  function Take(s: string, n: nat): (r: string)
    ensures |r| == if |s| <= n then |s| else n
    ensures r == s[..|r|]
  {
    if |s| <= n then s else s[..n]
  }

  /** `s[1:]`. */
  function DropFirst(s: string): string {
    if s == [] then [] else s[1..]
  }

  // ---------------------------------------------------------------- paths

  /** `os.path.splitext(p)[1]` on a POSIX path: the extension starting at
      the last dot of the file name, unless every character before that
      dot is itself a dot (hidden files have no extension). */
  function Extension(p: string): (ext: string)
    ensures ext != "" ==> ext[0] == '.' && '/' !in ext
  {
    var parts := Split(p, '/');
    NameExtension(parts[|parts| - 1])
  }

  /** The extension of a file name without slashes. */
  function NameExtension(name: string): (ext: string)
    ensures ext != "" ==> ext[0] == '.'
  {
    match RFind(name, '.')
    case None => ""
    case Some(k) =>
      if exists j :: 0 <= j < k && name[j] != '.' then name[k..] else ""
  }

  /** The last piece `split` gives is the end of the string after its last
      separator, or the whole string. */
  lemma {:induction false} SplitLast(s: string, sep: char)
    ensures var parts := Split(s, sep); var last := parts[|parts| - 1];
      && |last| <= |s| && last == s[|s| - |last|..]
      && (|last| < |s| ==> s[|s| - |last| - 1] == sep)
  {
    if s != [] {
      var t := s[1..];
      SplitLast(t, sep);
      var rest := Split(t, sep);
      var last := rest[|rest| - 1];
      if s[0] == sep {
        assert Split(s, sep) == [""] + rest;
        SuffixShift(s, last);
      } else if |rest| == 1 {
        SplitLength(t, sep);
        assert Split(s, sep) == [[s[0]] + rest[0]];
        assert [s[0]] + t == s;
      } else {
        SplitLength(t, sep);
        assert sep in t && sep !in last;
        assert Split(s, sep)[|Split(s, sep)| - 1] == last;
        SuffixShift(s, last);
      }
    }
  }

  /** A suffix of `s[1..]` is a suffix of `s`, preceded by the same
      character unless it is all of `s[1..]`. */
  lemma SuffixShift(s: string, last: string)
    requires s != [] && |last| <= |s| - 1 && last == s[1..][|s| - 1 - |last|..]
    ensures last == s[|s| - |last|..]
    ensures |last| < |s| - 1 ==> s[|s| - |last| - 1] == s[1..][|s| - 1 - |last| - 1]
  {
  }

  /** `p` has its extension starting at index `k`: a dot after which the
      path holds neither a dot nor a slash, preceded within its path
      component by a character other than a dot. */
  predicate ExtensionAt(p: string, k: int) {
    && 0 <= k < |p| && p[k] == '.'
    && (forall m :: k < m < |p| ==> p[m] != '.' && p[m] != '/')
    && (exists j :: 0 <= j < k && p[j] != '.' && p[j] != '/' && forall m :: j < m < k ==> p[m] != '/')
  }

  /** A character with no slash after it lies in the last path component. */
  lemma InLastComponent(p: string, off: int, i: int)
    requires 0 <= off <= |p| && (off > 0 ==> p[off - 1] == '/')
    requires 0 <= i < |p| && p[i] != '/'
    requires forall m :: i < m < |p| ==> p[m] != '/'
    ensures i >= off
  {
  }

  /** `p[off..]` is the last path component of `p`. */
  predicate LastComponentAt(p: string, off: int) {
    0 <= off <= |p| && (off > 0 ==> p[off - 1] == '/') && '/' !in p[off..]
  }

  /** A non-empty extension of the last component starts at a dot `k`
      after which the path has no dot, preceded in that component by a
      character `j` other than a dot. */
  lemma NameExtensionFound(p: string, off: int) returns (j: int, k: int)
    requires LastComponentAt(p, off) && NameExtension(p[off..]) != ""
    ensures 0 <= j < k < |p| && p[k] == '.' && p[j] != '.' && p[j] != '/'
    ensures (forall m :: j <= m < |p| ==> p[m] != '/') && (forall m :: k < m < |p| ==> p[m] != '.')
    ensures NameExtension(p[off..]) == p[k..]
  {
    var name := p[off..];
    var i, d := NameExtensionParts(name);
    NoSlashInComponent(p, off, off + i, |p|);
    NoDotAfter(p, off, d);
    assert p[off + i] == name[i] && p[off + d] == name[d];
    assert name[d..] == p[off + d..];
    j, k := off + i, off + d;
  }

  /** Where the extension of a single name starts, and a character before it. */
  lemma NameExtensionParts(name: string) returns (j: int, d: int)
    requires NameExtension(name) != ""
    ensures 0 <= j < d < |name| && name[j] != '.' && name[d] == '.'
    ensures RFind(name, '.') == Some(d) && NameExtension(name) == name[d..]
  {
    d := RFind(name, '.').value;
    j :| 0 <= j < d && name[j] != '.';
  }

  lemma ExtensionAtIntro(p: string, j: int, k: int)
    requires 0 <= j < k < |p| && p[k] == '.' && p[j] != '.' && p[j] != '/'
    requires forall m :: j <= m < |p| ==> p[m] != '/'
    requires forall m :: k < m < |p| ==> p[m] != '.'
    ensures ExtensionAt(p, k)
  {
  }

  lemma NoSlashInComponent(p: string, off: int, a: int, b: int)
    requires LastComponentAt(p, off) && off <= a <= b <= |p|
    ensures forall m :: a <= m < b ==> p[m] != '/'
  {
    forall m | a <= m < b ensures p[m] != '/' {
      assert p[m] == p[off..][m - off];
    }
  }

  lemma NoDotAfter(p: string, off: int, d: int)
    requires 0 <= off <= |p| && RFind(p[off..], '.') == Some(d)
    ensures forall m :: off + d < m < |p| ==> p[m] != '.'
  {
    forall m | off + d < m < |p| ensures p[m] != '.' {
      assert p[m] == p[off..][m - off];
    }
  }

  lemma NameExtensionNotEmpty(p: string, off: int, k: int)
    requires LastComponentAt(p, off) && ExtensionAt(p, k)
    ensures NameExtension(p[off..]) != ""
  {
    var name := p[off..];
    InLastComponent(p, off, k);
    assert name[k - off] == '.';
    assert RFind(name, '.').value == k - off;
    var j :| 0 <= j < k && p[j] != '.' && p[j] != '/' && forall m :: j < m < k ==> p[m] != '/';
    InLastComponent(p, off, j);
  }

  /** The extension is the end of the path from the dot `ExtensionAt`
      finds, and it is empty exactly when there is no such dot: the last
      path component has no dot, or only dots before its last dot. */
  lemma ExtensionAtLastDot(p: string)
    ensures Extension(p) != "" <==> exists k :: ExtensionAt(p, k)
    ensures Extension(p) != "" ==>
      |Extension(p)| <= |p| && Extension(p) == p[|p| - |Extension(p)|..] && ExtensionAt(p, |p| - |Extension(p)|)
    ensures Extension(p) != "" ==> '.' !in Extension(p)[1..]
  {
    var off := LastComponentStart(p);
    var ext := NameExtension(p[off..]);
    if ext != "" {
      var j, k := NameExtensionFound(p, off);
      ExtensionAtIntro(p, j, k);
      assert |p| - |ext| == k;
      forall i | 1 <= i < |ext| ensures ext[i] != '.' {
        assert ext[i] == p[k + i];
      }
    }
    if exists k :: ExtensionAt(p, k) {
      var k :| ExtensionAt(p, k);
      NameExtensionNotEmpty(p, off, k);
    }
  }

  /** Where the last path component of `p` starts; the extension is that
      component's. */
  lemma LastComponentStart(p: string) returns (off: int)
    ensures LastComponentAt(p, off) && Extension(p) == NameExtension(p[off..])
  {
    var parts := Split(p, '/');
    SplitLast(p, '/');
    off := |p| - |parts[|parts| - 1]|;
    assert parts[|parts| - 1] == p[off..];
  }

  // ---------------------------------------------------------------- formatting

  function DigitChar(d: nat): char
    requires d < 10
  {
    ('0' as int + d) as char
  }

  /** `str(n)` for a non-negative integer. */
  function NatToString(n: nat): (r: string)
    ensures |r| >= 1
    decreases n
  {
    if n < 10 then [DigitChar(n)] else NatToString(n / 10) + [DigitChar(n % 10)]
  }

  /** `str(i)` for an integer. */
  function IntToString(i: int): string {
    if i < 0 then "-" + NatToString(-i) else NatToString(i)
  }

  /** `str(xs)` for a list of strings: each element written by `repr`. */
  function ListRepr(xs: seq<string>): string {
    "[" + Join(ReprAll(xs), ", ") + "]"
  }

  function ReprAll(xs: seq<string>): (r: seq<string>)
    ensures |r| == |xs|
    ensures forall k :: 0 <= k < |xs| ==> r[k] == Repr(xs[k])
  {
    if xs == [] then [] else [Repr(xs[0])] + ReprAll(xs[1..])
  }

  // ---------------------------------------------------------------- repr

  /** The quote `repr` writes a string between: a double quote when the
      string holds a single quote and no double quote, else a single quote. */
  function ReprQuote(s: string): char {
    if '\'' in s && '"' !in s then '"' else '\''
  }

  /** Characters `repr` writes as they are. Of the characters above U+00FF
      every one counts as printable here. */
  predicate ReprPrintable(c: char) {
    ' ' <= c && c != '\U{7F}' && !('\U{80}' <= c <= '\U{A0}') && c != '\U{AD}'
  }

  function HexDigit(d: nat): char
    requires d < 16
  {
    if d < 10 then DigitChar(d) else ('a' as int + d - 10) as char
  }

  /** How `repr` writes one character of a string quoted by `quote`: the
      quote and the backslash after a backslash, tab, line feed and carriage
      return by their letters, other unprintable characters as `\xhh`. */
  function EscapeChar(c: char, quote: char): (r: string)
    ensures |r| >= 1
  {
    if c == quote || c == '\\' then ['\\', c]
    else if c == '\t' then ['\\', 't']
    else if c == '\n' then ['\\', 'n']
    else if c == '\r' then ['\\', 'r']
    else if !ReprPrintable(c) then ['\\', 'x', HexDigit(c as int / 16), HexDigit(c as int % 16)]
    else [c]
  }

  function Escape(s: string, quote: char): string {
    if s == [] then [] else EscapeChar(s[0], quote) + Escape(s[1..], quote)
  }

  /** `repr(s)` for a string. */
  function Repr(s: string): (r: string)
    ensures |r| >= 2 && r[0] == ReprQuote(s) && r[|r| - 1] == ReprQuote(s)
  {
    [ReprQuote(s)] + Escape(s, ReprQuote(s)) + [ReprQuote(s)]
  }

  function HexValue(c: char): nat {
    if '0' <= c <= '9' then c as int - '0' as int
    else if 'a' <= c <= 'f' then c as int - 'a' as int + 10
    else 0
  }

  /** How Python reads the text between the quotes of a string literal, for
      the escapes `repr` writes. */
  function Unescape(t: string): string
    decreases |t|
  {
    if t == [] then []
    else if t[0] != '\\' || |t| == 1 then [t[0]] + Unescape(t[1..])
    else if t[1] == 't' then ['\t'] + Unescape(t[2..])
    else if t[1] == 'n' then ['\n'] + Unescape(t[2..])
    else if t[1] == 'r' then ['\r'] + Unescape(t[2..])
    else if t[1] == 'x' && |t| >= 4 then [(HexValue(t[2]) * 16 + HexValue(t[3])) as char] + Unescape(t[4..])
    else [t[1]] + Unescape(t[2..])
  }

  lemma HexRoundTrip(d: nat)
    requires d < 16
    ensures HexValue(HexDigit(d)) == d
  {
  }

  /** Reading back one written character, whatever follows it. */
  lemma UnescapeChar(c: char, quote: char, rest: string)
    requires quote != 't' && quote != 'n' && quote != 'r' && quote != 'x'
    ensures Unescape(EscapeChar(c, quote) + rest) == [c] + Unescape(rest)
  {
    var e := EscapeChar(c, quote);
    var t := e + rest;
    if c == quote || c == '\\' {
      assert t[2..] == rest;
    } else if c == '\t' || c == '\n' || c == '\r' {
      assert t[2..] == rest;
    } else if !ReprPrintable(c) {
      var hi, lo := c as int / 16, c as int % 16;
      HexRoundTrip(hi);
      HexRoundTrip(lo);
      assert t[2] == HexDigit(hi) && t[3] == HexDigit(lo);
      assert t[4..] == rest;
    } else {
      assert t[1..] == rest;
    }
  }

  lemma {:induction false} UnescapeEscape(s: string, quote: char)
    requires quote == '\'' || quote == '"'
    ensures Unescape(Escape(s, quote)) == s
  {
    if s != [] {
      UnescapeChar(s[0], quote, Escape(s[1..], quote));
      UnescapeEscape(s[1..], quote);
      assert s == [s[0]] + s[1..];
    }
  }

  /** Reading back what `repr` wrote between its quotes gives the string:
      `repr` loses nothing. */
  lemma ReprRoundTrip(s: string)
    ensures var r := Repr(s); Unescape(r[1..|r| - 1]) == s
  {
    var r := Repr(s);
    assert r[1..|r| - 1] == Escape(s, ReprQuote(s));
    UnescapeEscape(s, ReprQuote(s));
  }

  /** The quote is never written bare inside the literal: each occurrence
      of it between the quotes follows a backslash. */
  lemma {:induction false} EscapedQuotesFollowBackslash(s: string, quote: char)
    requires quote == '\'' || quote == '"'
    ensures forall i :: 0 <= i < |Escape(s, quote)| && Escape(s, quote)[i] == quote ==>
      i > 0 && Escape(s, quote)[i - 1] == '\\'
  {
    if s != [] {
      EscapedQuotesFollowBackslash(s[1..], quote);
      var e, rest := EscapeChar(s[0], quote), Escape(s[1..], quote);
      assert Escape(s, quote) == e + rest;
      forall i | 0 <= i < |e + rest| && (e + rest)[i] == quote
        ensures i > 0 && (e + rest)[i - 1] == '\\'
      {
        if i >= |e| {
          assert (e + rest)[i] == rest[i - |e|];
          if i - |e| == 0 {
            assert false;
          }
        }
      }
    }
  }

  /** Text without quotes, backslashes or unprintable characters is written
      between single quotes as it is. */
  lemma {:induction false} ReprPlain(s: string)
    requires forall i :: 0 <= i < |s| ==> ReprPrintable(s[i]) && s[i] != '\'' && s[i] != '\\'
    ensures Repr(s) == "'" + s + "'"
  {
    PlainEscape(s, '\'');
  }

  lemma {:induction false} PlainEscape(s: string, quote: char)
    requires forall i :: 0 <= i < |s| ==> ReprPrintable(s[i]) && s[i] != quote && s[i] != '\\'
    ensures Escape(s, quote) == s
  {
    if s != [] {
      PlainEscape(s[1..], quote);
      assert s == [s[0]] + s[1..];
    }
  }

  /** A single quote and no double quote: `repr` switches to double quotes
      and writes the single quote bare. */
  lemma ReprSwitchesQuote(s: string)
    requires '\'' in s && '"' !in s
    requires forall i :: 0 <= i < |s| ==> ReprPrintable(s[i]) && s[i] != '\\'
    ensures Repr(s) == "\"" + s + "\""
  {
    PlainEscape(s, '"');
  }

  /** A one-element list is its element's `repr` between brackets. */
  lemma ListReprSingle(x: string)
    ensures ListRepr([x]) == "[" + Repr(x) + "]"
  {
    assert ReprAll([x]) == [Repr(x)];
  }

  /** So `don't` is written `"don't"`. */
  lemma ReprApostrophe()
    ensures Repr("don't") == "\"don't\""
  {
    var s := "don't";
    assert s[3] == '\'';
    ReprSwitchesQuote(s);
    assert "\"" + s + "\"" == "\"don't\"";
  }
}
