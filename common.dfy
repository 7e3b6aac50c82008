/**
 * Shared vocabulary: optional values, the string operations the agents
 * apply to their text (substring search, Python-style `split`, `strip`,
 * `lower`), decimal rendering and parsing, and a generic
 * insertion sort used wherever the source calls `sorted`/`list.sort`.
 */
module Common {

  datatype Option<T> = None | Some(value: T)
  {
    function GetOr(default: T): T
    {
      if Some? then value else default
    }
  }

  /** A computation that either produces a value or raises (the message is Python's `str(exception)`). */
  datatype Result<T> = Ok(value: T) | Err(message: string)

  function Min(a: int, b: int): int { if a <= b then a else b }
  function Max(a: int, b: int): int { if a <= b then b else a }

  // ---------------------------------------------------------------- substrings

  predicate OccursAt(s: string, sub: string, i: nat)
  {
    i + |sub| <= |s| && s[i..i + |sub|] == sub
  }

  /** Python's `sub in s`. */
  predicate Contains(s: string, sub: string)
  {
    exists i: nat :: i + |sub| <= |s| && OccursAt(s, sub, i)
  }

  /** Python's `any(w in text for w in words)`. */
  predicate MentionsAny(text: string, words: seq<string>)
  {
    exists k :: 0 <= k < |words| && Contains(text, words[k])
  }

  predicate StartsWith(s: string, prefix: string)
  {
    |prefix| <= |s| && s[..|prefix|] == prefix
  }

  predicate EndsWith(s: string, suffix: string)
  {
    |suffix| <= |s| && s[|s| - |suffix|..] == suffix
  }

  /** Appending to an empty sequence gives the appended part, whatever its elements. */
  lemma AppendToEmpty<T>(a: seq<T>, b: seq<T>)
    requires a == []
    ensures a + b == b
  {
  }

  /** `s[:n]`. */
  function Prefix(s: string, n: nat): (r: string)
    ensures |r| == Min(n, |s|) && StartsWith(s, r)
  {
    s[..Min(n, |s|)]
  }

  /** Python's `s.find(sub, start)`: the first occurrence at or after `start`, or -1. */
  function FindFrom(s: string, sub: string, start: nat): (r: int)
    requires start <= |s|
    decreases |s| - start
    ensures r == -1 || (start <= r && OccursAt(s, sub, r))
    ensures r == -1 ==> forall i: nat :: start <= i <= |s| ==> !OccursAt(s, sub, i)
    ensures r != -1 ==> forall i: nat :: start <= i < r ==> !OccursAt(s, sub, i)
  {
    if OccursAt(s, sub, start) then start
    else if start == |s| then -1
    else FindFrom(s, sub, start + 1)
  }

  /** Python's `s.find(sub)`. */
  function Find(s: string, sub: string): (r: int)
    ensures r == -1 <==> !Contains(s, sub)
    ensures r != -1 ==> 0 <= r && OccursAt(s, sub, r)
    ensures r != -1 ==> forall i: nat :: i < r ==> !OccursAt(s, sub, i)
  {
    var r := FindFrom(s, sub, 0);
    assert r == -1 ==> forall i: nat :: i + |sub| <= |s| ==> !OccursAt(s, sub, i);
    r
  }

  /** Python's `s.rfind(sub)`: the last occurrence, or -1. */
  function RFind(s: string, sub: string): (r: int)
    ensures r == -1 || 0 <= r <= |s| - |sub|
  {
    RFindBelow(s, sub, |s|)
  }

  function RFindBelow(s: string, sub: string, upto: nat): (r: int)
    requires upto <= |s|
    ensures r == -1 || 0 <= r <= Min(upto, |s| - |sub|)
  {
    if OccursAt(s, sub, upto) then upto
    else if upto == 0 then -1
    else RFindBelow(s, sub, upto - 1)
  }

  lemma {:induction false} RFindBelowLast(s: string, sub: string, upto: nat)
    requires upto <= |s|
    ensures var r := RFindBelow(s, sub, upto);
      (r == -1 || OccursAt(s, sub, r)) && forall i: nat :: r < i <= upto ==> !OccursAt(s, sub, i)
  {
    if !OccursAt(s, sub, upto) && upto > 0 {
      RFindBelowLast(s, sub, upto - 1);
    }
  }

  /** `rfind` finds an occurrence, and none lies after it; -1 means there is none at all. */
  lemma RFindLast(s: string, sub: string)
    ensures var r := RFind(s, sub);
      (r == -1 <==> !Contains(s, sub))
      && (r != -1 ==> OccursAt(s, sub, r))
      && forall i: nat :: r < i ==> !OccursAt(s, sub, i)
  {
    RFindBelowLast(s, sub, |s|);
    var r := RFind(s, sub);
    if r != -1 {
      assert r + |sub| <= |s| && OccursAt(s, sub, r);
    }
  }

  // ---------------------------------------------------------------- split / join

  /** The inverse of `SplitOn`: Python's `sep.join(parts)`. */
  function Join(parts: seq<string>, sep: string): string
  {
    if |parts| == 0 then ""
    else if |parts| == 1 then parts[0]
    else parts[0] + sep + Join(parts[1..], sep)
  }

  /** Python's `s.split(sep)` for a non-empty separator. */
  function SplitOn(s: string, sep: string): (parts: seq<string>)
    requires |sep| > 0
    decreases |s|
    ensures |parts| >= 1
    ensures Contains(s, sep) <==> |parts| >= 2
    ensures forall k :: 0 <= k < |parts| ==> !Contains(parts[k], sep)
  {
    var i := Find(s, sep);
    if i == -1 then [s]
    else
      var rest := SplitOn(s[i + |sep|..], sep);
      assert !Contains(s[..i], sep) by {
        forall j: nat | j + |sep| <= i ensures !OccursAt(s[..i], sep, j) {
          assert s[..i][j..j + |sep|] == s[j..j + |sep|];
          assert !OccursAt(s, sep, j);
        }
      }
      [s[..i]] + rest
  }

  /** Splitting and joining on the same separator gives back the text. */
  lemma JoinCons(head: string, rest: seq<string>, sep: string)
    requires |rest| >= 1
    ensures Join([head] + rest, sep) == head + sep + Join(rest, sep)
  {
    assert ([head] + rest)[1..] == rest;
  }

  lemma SplitOnCons(s: string, sep: string, i: nat)
    requires |sep| > 0 && Find(s, sep) == i
    ensures SplitOn(s, sep) == [s[..i]] + SplitOn(s[i + |sep|..], sep)
    ensures s == s[..i] + sep + s[i + |sep|..]
  {
    Around(s, i, i + |sep|);
  }

  lemma Around(s: string, i: nat, j: nat)
    requires i <= j <= |s|
    ensures s == s[..i] + s[i..j] + s[j..]
  {
  }

  lemma {:induction false} JoinSplit(s: string, sep: string)
    requires |sep| > 0
    decreases |s|
    ensures Join(SplitOn(s, sep), sep) == s
  {
    var i := Find(s, sep);
    if i != -1 {
      var tail := s[i + |sep|..];
      SplitOnCons(s, sep, i);
      JoinSplit(tail, sep);
      JoinCons(s[..i], SplitOn(tail, sep), sep);
    }
  }

  /** Python's `s.split(sep, 1)[0]`: the text before the first separator. */
  function BeforeFirst(s: string, sep: string): (r: string)
    requires |sep| > 0
    ensures r == SplitOn(s, sep)[0]
    ensures StartsWith(s, r)
    ensures !Contains(r, sep)
    ensures Contains(s, sep) ==> OccursAt(s, sep, |r|)
    ensures !Contains(s, sep) ==> r == s
  {
    var i := Find(s, sep);
    if i == -1 then s else s[..i]
  }

  // ---------------------------------------------------------------- whitespace

  /** The characters Python's `str.strip()`/`str.split()` treat as blanks (ASCII range and U+0085, U+00A0). */
  predicate IsSpace(c: char)
  {
    c == ' ' || c == '\t' || c == '\n' || c == '\r' || c == '\U{0B}' || c == '\U{0C}'
    || c == '\U{1C}' || c == '\U{1D}' || c == '\U{1E}' || c == '\U{1F}'
    || c == '\U{85}' || c == '\U{A0}'
  }

  function TrimStart(s: string): (r: string)
    ensures |r| <= |s| && r == s[|s| - |r|..]
    ensures r == [] || !IsSpace(r[0])
    ensures forall i :: 0 <= i < |s| - |r| ==> IsSpace(s[i])
  {
    if |s| > 0 && IsSpace(s[0]) then
      var r := TrimStart(s[1..]);
      assert s[1..][|s| - 1 - |r|..] == s[|s| - |r|..];
      assert forall i :: 0 < i < |s| - |r| ==> s[i] == s[1..][i - 1];
      r
    else s
  }

  function TrimEnd(s: string): (r: string)
    ensures |r| <= |s| && r == s[..|r|]
    ensures r == [] || !IsSpace(r[|r| - 1])
    ensures forall i :: |r| <= i < |s| ==> IsSpace(s[i])
  {
    if |s| > 0 && IsSpace(s[|s| - 1]) then
      var r := TrimEnd(s[..|s| - 1]);
      assert s[..|s| - 1][..|r|] == s[..|r|];
      assert forall i :: |r| <= i < |s| - 1 ==> s[i] == s[..|s| - 1][i];
      r
    else s
  }

  /** Python's `s.strip()`. */
  function Strip(s: string): (r: string)
    ensures r == [] || (!IsSpace(r[0]) && !IsSpace(r[|r| - 1]))
    ensures r == [] <==> forall i :: 0 <= i < |s| ==> IsSpace(s[i])
  {
    TrimEnd(TrimStart(s))
  }

  /** `s.strip()` is `s` from some point on, with only blanks cut before it and after it; `i` is that point. */
  lemma StripCutsBlanks(s: string) returns (i: nat)
    ensures StrippedAt(s, Strip(s), i)
  {
    var t := TrimStart(s);
    i := |s| - |t|;
    TrimmedBoth(s, t, TrimEnd(t), i);
  }

  /** Blanks cut from the front of `s`, then from the back of what is left, leave `s` stripped. */
  lemma TrimmedBoth(s: string, t: string, r: string, i: nat)
    requires i <= |s| && t == s[i..] && forall k :: 0 <= k < i ==> IsSpace(s[k])
    requires |r| <= |t| && r == t[..|r|] && forall k :: |r| <= k < |t| ==> IsSpace(t[k])
    ensures StrippedAt(s, r, i)
  {
    assert r == t[..|r|];
    assert s[i..i + |r|] == s[i..][..|r|];
    forall k | i + |r| <= k < |s| ensures IsSpace(s[k]) {
      assert s[k] == t[k - i] && IsSpace(t[k - i]);
    }
  }

  /** `r` is `s` from `i` on, with only blanks before it and after it. */
  predicate StrippedAt(s: string, r: string, i: int)
  {
    0 <= i <= i + |r| <= |s| && r == s[i..i + |r|]
    && (forall k :: 0 <= k < i ==> IsSpace(s[k]))
    && (forall k :: i + |r| <= k < |s| ==> IsSpace(s[k]))
  }

  /** Python's `s.split()`: the maximal runs of non-blank characters. */
  function Words(s: string): (ws: seq<string>)
    decreases |s|
    ensures forall k :: 0 <= k < |ws| ==> ws[k] != [] && forall i :: 0 <= i < |ws[k]| ==> !IsSpace(ws[k][i])
  {
    if |s| == 0 then []
    else if IsSpace(s[0]) then Words(s[1..])
    else
      var n := WordLength(s);
      [s[..n]] + Words(s[n..])
  }

  /** The strings one after the other, with nothing between them. */
  function Concat(ws: seq<string>): string
  {
    if |ws| == 0 then "" else ws[0] + Concat(ws[1..])
  }

  /** The non-blank characters of `s`, in order. */
  function NonBlank(s: string): (r: string)
    ensures |r| <= |s|
    ensures forall i :: 0 <= i < |r| ==> !IsSpace(r[i])
  {
    if |s| == 0 then "" else (if IsSpace(s[0]) then "" else [s[0]]) + NonBlank(s[1..])
  }

  /** `w` is a maximal run of non-blank characters of `s`, starting at `p`. */
  predicate RunAt(s: string, w: string, p: nat)
  {
    p + |w| <= |s| && s[p..p + |w|] == w
    && (p == 0 || IsSpace(s[p - 1])) && (p + |w| == |s| || IsSpace(s[p + |w|]))
  }

  /**
   * `split()` keeps every non-blank character, in order, and nothing else;
   * each word is a maximal run, bounded by blanks or the ends of the text;
   * so there are no words exactly when the text is blank.
   */
  lemma WordsAreRuns(s: string)
    ensures Concat(Words(s)) == NonBlank(s)
    ensures Words(s) == [] <==> forall i :: 0 <= i < |s| ==> IsSpace(s[i])
  {
    WordsConcat(s);
    if Words(s) == [] {
      forall i | 0 <= i < |s| ensures IsSpace(s[i]) {
        if !IsSpace(s[i]) { NonBlankKeeps(s, i); }
      }
    } else {
      var p := WordRun(s, 0);
      assert s[p] == Words(s)[0][0];
    }
  }

  /** A non-blank character leaves something in `NonBlank`. */
  lemma {:induction false} NonBlankKeeps(s: string, i: nat)
    requires i < |s| && !IsSpace(s[i])
    ensures NonBlank(s) != []
    decreases i
  {
    if i > 0 && IsSpace(s[0]) {
      NonBlankKeeps(s[1..], i - 1);
    }
  }

  lemma {:induction false} WordsConcat(s: string)
    ensures Concat(Words(s)) == NonBlank(s)
    decreases |s|
  {
    if |s| == 0 {
    } else if IsSpace(s[0]) {
      WordsConcat(s[1..]);
    } else {
      var n := WordLength(s);
      WordsConcat(s[n..]);
      assert Words(s) == [s[..n]] + Words(s[n..]);
      NonBlankOfWord(s, n);
    }
  }

  /** Where the `k`-th word of `s` starts. */
  lemma {:induction false} WordRun(s: string, k: nat) returns (p: nat)
    requires k < |Words(s)|
    ensures RunAt(s, Words(s)[k], p)
    decreases |s|, 1
  {
    if IsSpace(s[0]) {
      p := WordRunAfterBlank(s, k);
    } else if k == 0 {
      p := 0;
      LeadingWordRun(s);
    } else {
      p := WordRunAfterWord(s, k);
    }
  }

  lemma {:induction false} WordRunAfterBlank(s: string, k: nat) returns (p: nat)
    requires k < |Words(s)| && IsSpace(s[0])
    ensures RunAt(s, Words(s)[k], p)
    decreases |s|, 0
  {
    var rest := s[1..];
    WordsSkipBlank(s);
    var q := WordRun(rest, k);
    RunAfterBlank(s, Words(rest)[k], q);
    p := q + 1;
  }

  lemma {:induction false} WordRunAfterWord(s: string, k: nat) returns (p: nat)
    requires 0 < k < |Words(s)| && !IsSpace(s[0])
    ensures RunAt(s, Words(s)[k], p)
    decreases |s|, 0
  {
    var n := WordLength(s);
    var rest := s[n..];
    WordsSkipWord(s);
    var q := WordRun(rest, k - 1);
    RunAfterWord(s, n, Words(rest)[k - 1], q);
    p := q + n;
  }

  lemma RunAfterBlank(s: string, w: string, q: nat)
    requires |s| > 0 && IsSpace(s[0]) && RunAt(s[1..], w, q)
    ensures RunAt(s, w, q + 1)
  {
    RunShift(s, w, q, 1);
  }

  lemma WordsSkipWord(s: string)
    requires |s| > 0 && !IsSpace(s[0])
    ensures |Words(s)| == 1 + |Words(s[WordLength(s)..])|
    ensures forall k :: 0 < k < |Words(s)| ==> Words(s)[k] == Words(s[WordLength(s)..])[k - 1]
  {
  }

  lemma WordsSkipBlank(s: string)
    requires |s| > 0 && IsSpace(s[0])
    ensures Words(s) == Words(s[1..])
  {
  }

  /** The leading word of a text that starts with one is a run at 0. */
  lemma LeadingWordRun(s: string)
    requires |s| > 0 && !IsSpace(s[0])
    ensures Words(s)[0] == s[..WordLength(s)] && RunAt(s, Words(s)[0], 0)
  {
    var n := WordLength(s);
    assert s[..n] == s[0..0 + n];
  }

  /** A run of what follows the leading word is a run of the whole text. */
  lemma RunAfterWord(s: string, n: nat, w: string, q: nat)
    requires n == WordLength(s) && RunAt(s[n..], w, q) && w != [] && !IsSpace(w[0])
    ensures RunAt(s, w, q + n)
  {
    RunShift(s, w, q, n);
  }

  /** A run of `s[d..]` not at its start is a run of `s`, `d` further on. */
  lemma RunShift(s: string, w: string, p: nat, d: nat)
    requires d <= |s| && RunAt(s[d..], w, p) && (p > 0 || d == 0 || IsSpace(s[d - 1]))
    ensures RunAt(s, w, p + d)
  {
    assert s[p + d..p + d + |w|] == s[d..][p..p + |w|];
    if p > 0 { assert s[p + d - 1] == s[d..][p - 1]; }
    if p + |w| < |s| - d { assert s[p + d + |w|] == s[d..][p + |w|]; }
  }

  /** Splitting off the leading word: its characters come first, then the rest's. */
  lemma {:induction false} NonBlankOfWord(s: string, n: nat)
    requires n <= |s| && forall i :: 0 <= i < n ==> !IsSpace(s[i])
    ensures NonBlank(s) == s[..n] + NonBlank(s[n..])
    decreases n
  {
    if n > 0 {
      NonBlankOfWord(s[1..], n - 1);
      assert s[1..][n - 1..] == s[n..];
      assert s[..n] == [s[0]] + s[1..][..n - 1];
    }
  }

  /** Length of the leading run of non-blank characters. */
  function WordLength(s: string): (n: nat)
    ensures n <= |s|
    ensures forall i :: 0 <= i < n ==> !IsSpace(s[i])
    ensures n < |s| ==> IsSpace(s[n])
    ensures |s| > 0 && !IsSpace(s[0]) ==> n > 0
  {
    if |s| == 0 || IsSpace(s[0]) then 0 else 1 + WordLength(s[1..])
  }

  // ---------------------------------------------------------------- case

  /**
   * Python's `str.lower()` on ASCII and Latin-1 letters (this covers the
   * accented capitals of Spanish text, such as the first letter of "Cómo").
   */
  function LowerChar(c: char): (d: char)
    ensures 'A' <= c <= 'Z' ==> d as int == c as int + 32
    ensures !('A' <= c <= 'Z') && !('À' <= c <= 'Þ') ==> d == c
  {
    if 'A' <= c <= 'Z' || ('À' <= c <= 'Þ' && c != '×') then
      (c as int + 32) as char
    else c
  }

  function Lower(s: string): (r: string)
    ensures |r| == |s|
    ensures forall i :: 0 <= i < |s| ==> r[i] == LowerChar(s[i])
  {
    seq(|s|, i requires 0 <= i < |s| => LowerChar(s[i]))
  }

  /** `lower()` is idempotent. */
  lemma LowerIdempotent(s: string)
    ensures Lower(Lower(s)) == Lower(s)
  {
    forall i | 0 <= i < |s| ensures LowerChar(LowerChar(s[i])) == LowerChar(s[i]) {
    }
  }

  // ---------------------------------------------------------------- decimal text

  function DigitChar(d: nat): (c: char)
    requires d < 10
    ensures IsDigit(c) && c as int - '0' as int == d
  {
    ('0' as int + d) as char
  }

  /** Python's `str(n)` for a non-negative integer. */
  function NatToString(n: nat): (r: string)
    ensures |r| >= 1
    ensures forall i :: 0 <= i < |r| ==> '0' <= r[i] <= '9'
    ensures n >= 10 ==> r[0] != '0'
    decreases n
  {
    if n < 10 then [DigitChar(n)] else NatToString(n / 10) + [DigitChar(n % 10)]
  }

  predicate IsDigit(c: char) { '0' <= c <= '9' }

  function DigitsValue(s: string): nat
    requires forall i :: 0 <= i < |s| ==> IsDigit(s[i])
  {
    if |s| == 0 then 0
    else
      assert IsDigit(s[|s| - 1]);
      10 * DigitsValue(s[..|s| - 1]) + (s[|s| - 1] as int - '0' as int)
  }

  predicate AllDigits(s: string)
  {
    forall i :: 0 <= i < |s| ==> IsDigit(s[i])
  }

  /** Python's `int(s)` for an optional sign followed by ASCII digits; None where `int` raises. */
  function ParseInt(s: string): (r: Option<int>)
    ensures r.Some? <==> |s| > 0 && (AllDigits(s) || ((s[0] == '-' || s[0] == '+') && |s| > 1 && AllDigits(s[1..])))
    ensures |s| > 0 && AllDigits(s) ==> r == Some(DigitsValue(s) as int)
    ensures r.Some? && s[0] == '-' ==> r.value == -(DigitsValue(s[1..]) as int)
    ensures r.Some? && s[0] == '+' ==> r.value == DigitsValue(s[1..]) as int
  {
    if |s| > 0 && (s[0] == '-' || s[0] == '+') then
      var body := s[1..];
      if |body| > 0 && forall i :: 0 <= i < |body| ==> IsDigit(body[i]) then
        Some(if s[0] == '-' then -(DigitsValue(body) as int) else DigitsValue(body) as int)
      else None
    else if |s| > 0 && forall i :: 0 <= i < |s| ==> IsDigit(s[i]) then
      Some(DigitsValue(s) as int)
    else None
  }

  lemma {:induction false} DigitsValueOfNat(n: nat)
    ensures DigitsValue(NatToString(n)) == n
    decreases n
  {
    var r := NatToString(n);
    if n >= 10 {
      var prefix := NatToString(n / 10);
      DigitsValueOfNat(n / 10);
      assert r == prefix + [DigitChar(n % 10)];
      assert r[..|r| - 1] == prefix;
      assert DigitsValue(r) == 10 * DigitsValue(prefix) + n % 10;
    } else {
      assert r == [DigitChar(n)];
      assert r[..0] == [];
    }
  }

  /** Reading back a rendered number gives the number: `int(str(n)) == n`. */
  lemma ParseRendered(n: nat)
    ensures ParseInt(NatToString(n)) == Some(n)
  {
    DigitsValueOfNat(n);
  }

  // ---------------------------------------------------------------- repr of a string

  /** The quote `repr` puts around a string: `"` when it holds a `'` and no `"`, otherwise `'`. */
  function ReprQuote(s: string): (q: char)
    ensures q == '"' <==> '\'' in s && '"' !in s
    ensures q == '"' || q == '\''
  {
    if '\'' in s && '"' !in s then '"' else '\''
  }

  /** A code point below 256 that `repr` writes as itself: not a C0 or C1 control, no-break space or soft hyphen. */
  predicate Latin1Printable(c: char)
  {
    c as int >= 256 || (c as int >= 32 && !(127 <= c as int <= 160) && c as int != 173)
  }

  function HexDigit(d: nat): (c: char)
    requires d < 16
    ensures HexValue(c) == d
  {
    if d < 10 then ('0' as int + d) as char else ('a' as int + d - 10) as char
  }

  function HexValue(c: char): nat
  {
    if '0' <= c <= '9' then c as int - '0' as int
    else if 'a' <= c <= 'f' then c as int - 'a' as int + 10
    else 0
  }

  /** How `repr` writes one character inside quotes `q`. */
  function EscapeChar(c: char, q: char): (r: string)
    ensures |r| >= 1 && (r[0] == '\\' <==> (c == '\\' || c == q || !Latin1Printable(c)))
  {
    if c == '\\' then ['\\', '\\']
    else if c == q then ['\\', q]
    else if c == '\n' then ['\\', 'n']
    else if c == '\r' then ['\\', 'r']
    else if c == '\t' then ['\\', 't']
    else if !Latin1Printable(c) then ['\\', 'x', HexDigit(c as int / 16), HexDigit(c as int % 16)]
    else [c]
  }

  function Escape(s: string, q: char): string
  {
    if s == [] then [] else EscapeChar(s[0], q) + Escape(s[1..], q)
  }

  /** Python's `repr` of a string, as `%r` and `str()` of a `ValueError` or `KeyError` show it. */
  function Repr(s: string): (r: string)
    ensures |r| >= 2 && r[0] == ReprQuote(s) && r[|r| - 1] == ReprQuote(s)
  {
    var q := ReprQuote(s);
    [q] + Escape(s, q) + [q]
  }

  /** Reading the text between the quotes back gives the string again. */
  lemma ReprRoundTrip(s: string)
    ensures var r := Repr(s); |r| >= |s| + 2 && Unescape(r[1..|r| - 1]) == s
  {
    var q := ReprQuote(s);
    EscapeLength(s, q);
    UnescapeEscape(s, q);
    assert Repr(s)[1..|Repr(s)| - 1] == Escape(s, q);
  }

  /** Reading escapes back: `\n`, `\r`, `\t`, `\xhh`, and a backslash before any other character. */
  function Unescape(t: string): string
    decreases |t|
  {
    if t == [] then []
    else if t[0] == '\\' && |t| >= 2 then
      if t[1] == 'n' then ['\n'] + Unescape(t[2..])
      else if t[1] == 'r' then ['\r'] + Unescape(t[2..])
      else if t[1] == 't' then ['\t'] + Unescape(t[2..])
      else if t[1] == 'x' && |t| >= 4 then [(16 * (HexValue(t[2]) % 16) + HexValue(t[3]) % 16) as char] + Unescape(t[4..])
      else [t[1]] + Unescape(t[2..])
    else [t[0]] + Unescape(t[1..])
  }

  lemma {:induction false} EscapeLength(s: string, q: char)
    ensures |Escape(s, q)| >= |s|
  {
    if s != [] {
      EscapeLength(s[1..], q);
    }
  }

  lemma EscapeCharReadsBack(c: char, q: char, rest: string)
    requires q == '"' || q == '\''
    ensures Unescape(EscapeChar(c, q) + rest) == [c] + Unescape(rest)
  {
    var e := EscapeChar(c, q);
    if e == [c] {
      assert (e + rest)[1..] == rest;
    } else if |e| == 4 {
      var v := c as int;
      assert (16 * (HexValue(e[2]) % 16) + HexValue(e[3]) % 16) == v;
      assert (e + rest)[4..] == rest;
    } else {
      assert (e + rest)[2..] == rest;
    }
  }

  /** Unescaping undoes escaping. */
  lemma {:induction false} UnescapeEscape(s: string, q: char)
    requires q == '"' || q == '\''
    ensures Unescape(Escape(s, q)) == s
  {
    if s != [] {
      UnescapeEscape(s[1..], q);
      assert Escape(s, q) == EscapeChar(s[0], q) + Escape(s[1..], q);
      EscapeCharReadsBack(s[0], q, Escape(s[1..], q));
      assert s == [s[0]] + s[1..];
    }
  }

  /** A value without backslashes, quotes or control characters is shown verbatim between single quotes. */
  lemma {:induction false} ReprOfPlain(s: string)
    requires forall i :: 0 <= i < |s| ==> s[i] != '\\' && s[i] != '\'' && Latin1Printable(s[i])
    ensures Repr(s) == ['\''] + s + ['\'']
  {
    PlainEscapesToItself(s, '\'');
  }

  /** A value holding a single quote and no double quote is shown between double quotes. */
  lemma ReprOfApostrophe()
    ensures Repr("it's") == "\"it's\""
  {
    PlainEscapesToItself("it's", '"');
  }

  lemma {:induction false} PlainEscapesToItself(s: string, q: char)
    requires forall i :: 0 <= i < |s| ==> s[i] != '\\' && s[i] != q && Latin1Printable(s[i])
    ensures Escape(s, q) == s
  {
    if s != [] {
      PlainEscapesToItself(s[1..], q);
      assert s == [s[0]] + s[1..];
    }
  }

  // ---------------------------------------------------------------- counting

  function CountWhere<T>(s: seq<T>, p: T -> bool): (n: nat)
    ensures n <= |s|
  {
    if |s| == 0 then 0 else (if p(s[0]) then 1 else 0) + CountWhere(s[1..], p)
  }

  function Filter<T>(s: seq<T>, p: T -> bool): (r: seq<T>)
    ensures |r| == CountWhere(s, p)
    ensures forall x :: x in r ==> x in s && p(x)
    ensures forall x :: x in s && p(x) ==> x in r
  {
    if |s| == 0 then [] else (if p(s[0]) then [s[0]] else []) + Filter(s[1..], p)
  }

  /** Python's `len(l) == len(set(l))`. */
  predicate Distinct<T(==)>(s: seq<T>)
  {
    forall i, j :: 0 <= i < j < |s| ==> s[i] != s[j]
  }

  function Elements<T(==)>(s: seq<T>): set<T>
  {
    set x | x in s
  }

  /** The number of distinct elements equals the length exactly when there are no repetitions. */
  lemma {:induction false} DistinctIffNoSmallerSet<T>(s: seq<T>)
    ensures |Elements(s)| <= |s|
    ensures |Elements(s)| == |s| <==> Distinct(s)
  {
    if |s| > 0 {
      var t := s[1..];
      DistinctIffNoSmallerSet(t);
      assert s == [s[0]] + t;
      if s[0] in t {
        assert Elements(s) == Elements(t);
        var j :| 0 <= j < |t| && t[j] == s[0];
        assert s[0] == s[j + 1];
      } else {
        assert Elements(s) == Elements(t) + {s[0]};
        if Distinct(t) {
          forall i, j | 0 <= i < j < |s| ensures s[i] != s[j] {
            if i > 0 { assert s[i] == t[i - 1] && s[j] == t[j - 1]; }
            else { assert s[j] == t[j - 1]; }
          }
        } else {
          var i, j :| 0 <= i < j < |t| && t[i] == t[j];
          assert s[i + 1] == s[j + 1];
        }
      }
    }
  }

  /** The first occurrences of each element, in order: a deterministic stand-in for iterating `set(l)`. */
  function Dedup<T(==)>(s: seq<T>): (r: seq<T>)
    ensures Distinct(r)
    ensures Elements(r) == Elements(s)
    ensures |r| <= |s|
  {
    if |s| == 0 then []
    else
      var rest := Dedup(s[..|s| - 1]);
      var x := s[|s| - 1];
      assert Elements(s) == Elements(s[..|s| - 1]) + {x} by {
        assert s == s[..|s| - 1] + [x];
      }
      if x in rest then rest else rest + [x]
  }

  // ---------------------------------------------------------------- paths

  /** No character after the last occurrence of `c` is `c`. */
  lemma AfterLast(s: string, c: char)
    ensures var r := RFind(s, [c]);
      (r == -1 <==> c !in s)
      && (r != -1 ==> 0 <= r < |s| && s[r] == c)
      && forall i :: r < i < |s| ==> s[i] != c
  {
    RFindLast(s, [c]);
    var r := RFind(s, [c]);
    forall i | r < i < |s| ensures s[i] != c {
      assert !OccursAt(s, [c], i) && s[i..i + 1] == [s[i]];
    }
    if r != -1 {
      assert OccursAt(s, [c], r) && s[r..r + 1] == [s[r]];
    } else {
      forall i | 0 <= i < |s| ensures s[i] != c {
        assert !OccursAt(s, [c], i) && s[i..i + 1] == [s[i]];
      }
    }
  }

  /** `Path(p).name`: the text after the last `/`, the whole path when it has none. */
  function FileName(path: string): (name: string)
    ensures EndsWith(path, name)
    ensures '/' !in name
    ensures |name| == |path| || path[|path| - |name| - 1] == '/'
  {
    var slash := RFind(path, "/");
    AfterLast(path, '/');
    if slash == -1 then path else path[slash + 1..]
  }

  /**
   * `Path(p).suffix`: the name's text from its last `.`, when that dot is
   * neither the name's first nor its last character; `""` otherwise.
   */
  function Suffix(path: string): (r: string)
    ensures r == "" || (|r| >= 2 && r[0] == '.' && EndsWith(path, r))
    ensures forall i :: 0 < i < |r| ==> r[i] != '.' && r[i] != '/'
    ensures var name := FileName(path);
      (r != "" ==> EndsWith(name, r) && |r| < |name|)
      && (r == "" ==> forall d :: 0 < d < |name| - 1 && name[d] == '.' ==> '.' in name[d + 1..])
  {
    var name := FileName(path);
    var dot := RFind(name, ".");
    AfterLast(name, '.');
    if 0 < dot < |name| - 1 then
      SuffixOfSuffix(path, name, dot);
      name[dot..]
    else
      assert forall d :: 0 < d < |name| - 1 && name[d] == '.' ==> '.' in name[d + 1..] by {
        if dot == |name| - 1 {
          forall d | 0 < d < |name| - 1 && name[d] == '.' ensures '.' in name[d + 1..] {
            assert name[d + 1..][|name| - 2 - d] == name[dot];
          }
        }
      }
      ""
  }

  lemma SuffixOfSuffix(path: string, name: string, dot: nat)
    requires EndsWith(path, name) && dot < |name|
    ensures EndsWith(path, name[dot..])
  {
    assert name[dot..] == path[|path| - |name| + dot..];
  }

  /** The glob results for each extension, in the order of the extensions. */
  function Globbed(exts: seq<string>, glob: string -> seq<string>): (r: seq<string>)
    ensures forall x :: x in r <==> exists k :: 0 <= k < |exts| && x in glob(exts[k])
  {
    if exts == [] then []
    else
      var init := exts[..|exts| - 1];
      var r := Globbed(init, glob) + glob(exts[|exts| - 1]);
      assert forall k :: 0 <= k < |init| ==> init[k] == exts[k];
      r
  }

  /** The paths that contain none of the given fragments, order kept. */
  function WithoutExcluded(paths: seq<string>, fragments: seq<string>): (r: seq<string>)
    ensures |r| <= |paths|
    ensures forall x :: x in r <==> x in paths && !MentionsAny(x, fragments)
  {
    if paths == [] then []
    else
      var last := paths[|paths| - 1];
      assert paths == paths[..|paths| - 1] + [last];
      WithoutExcluded(paths[..|paths| - 1], fragments) + (if MentionsAny(last, fragments) then [] else [last])
  }

  // ---------------------------------------------------------------- sorting

  ghost predicate Total<T(!new)>(le: (T, T) -> bool)
  {
    forall a, b :: le(a, b) || le(b, a)
  }

  predicate SortedBy<T>(s: seq<T>, le: (T, T) -> bool)
  {
    forall i :: 0 < i < |s| ==> le(s[i - 1], s[i])
  }

  /** Inserts `x` in front of the first element it may precede. */
  function InsertBy<T>(x: T, s: seq<T>, le: (T, T) -> bool): (r: seq<T>)
    ensures |r| == |s| + 1
    ensures multiset(r) == multiset(s) + multiset{x}
  {
    if |s| == 0 then [x]
    else if le(x, s[0]) then [x] + s
    else
      assert s == [s[0]] + s[1..];
      [s[0]] + InsertBy(x, s[1..], le)
  }

  /** A stable insertion sort (each element goes in front of the elements it ties with that came after it). */
  function SortBy<T>(s: seq<T>, le: (T, T) -> bool): (r: seq<T>)
    ensures |r| == |s|
    ensures multiset(r) == multiset(s)
  {
    if |s| == 0 then []
    else
      assert s == [s[0]] + s[1..];
      InsertBy(s[0], SortBy(s[1..], le), le)
  }

  lemma {:induction false} InsertBySorted<T(!new)>(x: T, s: seq<T>, le: (T, T) -> bool)
    requires Total(le)
    requires SortedBy(s, le)
    ensures SortedBy(InsertBy(x, s, le), le)
    ensures |s| > 0 ==> InsertBy(x, s, le)[0] == x || InsertBy(x, s, le)[0] == s[0]
  {
    if |s| > 0 && !le(x, s[0]) {
      var t := s[1..];
      assert SortedBy(t, le) by {
        forall i | 0 < i < |t| ensures le(t[i - 1], t[i]) { assert t[i - 1] == s[i] && t[i] == s[i + 1]; }
      }
      InsertBySorted(x, t, le);
      var r := InsertBy(x, s, le);
      assert r == [s[0]] + InsertBy(x, t, le);
      assert le(s[0], x);
      forall i | 0 < i < |r| ensures le(r[i - 1], r[i]) {
        if i == 1 {
          if |t| > 0 { assert le(s[0], s[1]); }
        }
      }
    }
  }

  /** `SortBy` returns a sorted permutation of its input whenever the order is total. */
  lemma {:induction false} SortBySorted<T(!new)>(s: seq<T>, le: (T, T) -> bool)
    requires Total(le)
    ensures SortedBy(SortBy(s, le), le)
    ensures multiset(SortBy(s, le)) == multiset(s)
  {
    if |s| > 0 {
      SortBySorted(s[1..], le);
      InsertBySorted(s[0], SortBy(s[1..], le), le);
    }
  }

  /** Inserting `x` puts it in front of every element it ties with, so among those it comes first. */
  lemma {:induction false} InsertByFilter<T(!new)>(x: T, s: seq<T>, le: (T, T) -> bool, q: T -> bool)
    requires forall a, b :: q(a) && q(b) ==> le(a, b)
    ensures Filter(InsertBy(x, s, le), q) == (if q(x) then [x] else []) + Filter(s, q)
  {
    if |s| == 0 {
      FilterCons(x, [], q);
    } else if le(x, s[0]) {
      FilterCons(x, s, q);
    } else {
      var t := s[1..];
      assert !(q(x) && q(s[0]));
      InsertByFilter(x, t, le, q);
      FilterPassOver(s[0], x, t, InsertBy(x, t, le), q);
      assert s == [s[0]] + t;
    }
  }

  /** An element that `x` does not tie with may pass in front of it without changing the filtered order. */
  lemma FilterPassOver<T>(a: T, x: T, t: seq<T>, inserted: seq<T>, q: T -> bool)
    requires !(q(x) && q(a))
    requires Filter(inserted, q) == (if q(x) then [x] else []) + Filter(t, q)
    ensures Filter([a] + inserted, q) == (if q(x) then [x] else []) + Filter([a] + t, q)
  {
    FilterCons(a, inserted, q);
    FilterCons(a, t, q);
    if q(a) {
      assert !q(x);
      assert Filter(inserted, q) == Filter(t, q);
      assert [] + Filter([a] + t, q) == Filter([a] + t, q);
    } else {
      assert Filter([a] + inserted, q) == Filter(inserted, q);
      assert Filter([a] + t, q) == Filter(t, q);
    }
  }

  lemma FilterCons<T>(a: T, t: seq<T>, q: T -> bool)
    ensures Filter([a] + t, q) == (if q(a) then [a] else []) + Filter(t, q)
  {
    assert ([a] + t)[1..] == t;
  }


  /**
   * `SortBy` is stable: the elements of any class of mutually tying elements
   * come out in the order they went in.
   */
  lemma {:induction false} SortByStable<T(!new)>(s: seq<T>, le: (T, T) -> bool, q: T -> bool)
    requires forall a, b :: q(a) && q(b) ==> le(a, b)
    ensures Filter(SortBy(s, le), q) == Filter(s, q)
  {
    if |s| > 0 {
      SortByStable(s[1..], le, q);
      InsertByFilter(s[0], SortBy(s[1..], le), le, q);
    }
  }
}

/**
 * The graph engine the three agents are built on: nodes, conditional edges
 * keyed by the label a router returns, and the distinguished end node.
 */
module Workflow {
  import opened Common

  datatype Target<N> = Goto(node: N) | End

  /** An outgoing edge set: unconditional, or a table from router labels to targets. */
  datatype Edges<N, L> = Direct(to: Target<N>) | Conditional(table: map<L, Target<N>>)

  /** How a bounded run ended; `UnknownLabel` is what the engine raises when a router's label is not in its table. */
  datatype RunOutcome = Completed(steps: nat) | Exhausted | UnknownLabel

  /** What a language-model call gives a node: a reply already decoded into the node's record, or a failure. */
  datatype Reply<T> = Failed(message: string) | Parsed(record: T)

  /** Where the engine goes after a node given the router's label; None when the label is missing from the table. */
  function Follow<N, L>(edges: Edges<N, L>, lbl: L): (t: Option<Target<N>>)
    ensures edges.Direct? ==> t == Some(edges.to)
    ensures edges.Conditional? ==> (t.Some? <==> lbl in edges.table)
    ensures edges.Conditional? && lbl in edges.table ==> t == Some(edges.table[lbl])
  {
    match edges
    case Direct(to) => Some(to)
    case Conditional(table) => if lbl in table then Some(table[lbl]) else None
  }
}
