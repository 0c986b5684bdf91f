/**
 * The JavaScript string operations the onboarding client relies on, written out on
 * `seq<char>`: case mapping, the `\s` character class, `includes`, `split(' ')`,
 * `join`, `replace` with a string pattern, `trim`, `split(/\s+/)` and number printing.
 */
module JsText {

  /** JavaScript's `\s` class, which is also the set `trim` strips: WhiteSpace plus LineTerminator. */
  predicate IsSpace(c: char) {
    c == ' ' || c == '\t' || c == '\n' || c == '\U{000B}' || c == '\U{000C}' || c == '\r'
    || c == '\U{00A0}' || c == '\U{1680}' || ('\U{2000}' <= c <= '\U{200A}')
    || c == '\U{2028}' || c == '\U{2029}' || c == '\U{202F}' || c == '\U{205F}'
    || c == '\U{3000}' || c == '\U{FEFF}'
  }

  /** JavaScript's `\w` class: `[A-Za-z0-9_]`. */
  predicate IsWordChar(c: char) {
    ('a' <= c <= 'z') || ('A' <= c <= 'Z') || ('0' <= c <= '9') || c == '_'
  }

  predicate IsUpper(c: char) { 'A' <= c <= 'Z' }

  predicate IsLower(c: char) { 'a' <= c <= 'z' }

  function LowerChar(c: char): (d: char)
    ensures !IsUpper(d)
    ensures !IsUpper(c) ==> d == c
    ensures IsUpper(c) ==> IsLower(d) && d as int == c as int + 32
  {
    if IsUpper(c) then (c as int + 32) as char else c
  }

  /** `s.toLowerCase()` restricted to the ASCII letters; other characters are kept unchanged. */
  function ToLower(s: string): (r: string)
    ensures |r| == |s|
    ensures forall i :: 0 <= i < |s| ==> r[i] == LowerChar(s[i])
  {
    seq(|s|, i requires 0 <= i < |s| => LowerChar(s[i]))
  }

  /**
   * `s.length`: the number of UTF-16 code units. A character above U+FFFF is stored as a
   * surrogate pair and counts twice.
   */
  function Utf16Length(s: string): (n: nat)
    ensures |s| <= n <= 2 * |s|
    ensures (forall i :: 0 <= i < |s| ==> s[i] as int < 0x1_0000) ==> n == |s|
  {
    if s == [] then 0
    else (if s[0] as int < 0x1_0000 then 1 else 2) + Utf16Length(s[1..])
  }

  lemma ToLowerIdempotent(s: string)
    ensures ToLower(ToLower(s)) == ToLower(s)
  {
  }

  lemma ToLowerAppend(a: string, b: string)
    ensures ToLower(a + b) == ToLower(a) + ToLower(b)
  {
  }

  /** `sub` occurs in `s` starting at offset `i`. */
  predicate SliceAt(s: string, sub: string, i: int) {
    0 <= i && i + |sub| <= |s| && s[i..i + |sub|] == sub
  }

  /** `s.includes(sub)`. */
  predicate Contains(s: string, sub: string) {
    exists i | 0 <= i <= |s| - |sub| :: SliceAt(s, sub, i)
  }

  /** Position of the first `c` in `s`, or `|s|` when there is none (`indexOf`, with -1 read as `|s|`). */
  function IndexOf(s: string, c: char): (i: nat)
    ensures i <= |s|
    ensures i < |s| ==> s[i] == c
    ensures forall k :: 0 <= k < i ==> s[k] != c
  {
    if s == [] then 0
    else if s[0] == c then 0
    else 1 + IndexOf(s[1..], c)
  }

  /** `s.split(c)` for a one-character separator: always at least one part, parts free of `c`. */
  function Split(s: string, c: char): (parts: seq<string>)
    ensures |parts| >= 1
    decreases |s|
  {
    var i := IndexOf(s, c);
    if i == |s| then [s] else [s[..i]] + Split(s[i + 1..], c)
  }

  /** `parts.join(sep)`. */
  function Join(parts: seq<string>, sep: string): string {
    if parts == [] then ""
    else if |parts| == 1 then parts[0]
    else parts[0] + sep + Join(parts[1..], sep)
  }

  /** Every part occurs in the joined string. */
  lemma {:induction false} JoinContainsParts(parts: seq<string>, sep: string)
    ensures forall k :: 0 <= k < |parts| ==> Contains(Join(parts, sep), parts[k])
  {
    if |parts| == 1 {
      assert SliceAt(Join(parts, sep), parts[0], 0);
    } else if |parts| > 1 {
      var j := Join(parts, sep);
      var rest := Join(parts[1..], sep);
      JoinContainsParts(parts[1..], sep);
      assert j == parts[0] + sep + rest;
      assert j[..|parts[0]|] == parts[0];
      assert SliceAt(j, parts[0], 0);
      assert j[|parts[0] + sep|..] == rest;
      forall k | 1 <= k < |parts| ensures Contains(j, parts[k]) {
        assert parts[k] == parts[1..][k - 1];
        ContainsShift(j, |parts[0] + sep|, parts[k]);
      }
    }
  }

  /** Splitting on a character and joining the parts with it gives back the original string. */
  lemma {:induction false} SplitJoin(s: string, c: char)
    ensures Join(Split(s, c), [c]) == s
    decreases |s|
  {
    var i := IndexOf(s, c);
    if i < |s| {
      var pre, rest := s[..i], s[i + 1..];
      var tail := Split(rest, c);
      var parts := [pre] + tail;
      assert Split(s, c) == parts;
      assert |parts| >= 2 && parts[0] == pre && parts[1..] == tail;
      calc {
        Join(parts, [c]);
        pre + [c] + Join(tail, [c]);
        { SplitJoin(rest, c); }
        pre + [c] + rest;
      }
      assert s == pre + [c] + rest;
    }
  }

  /** The parts of `s.split(c)` contain no `c`. */
  lemma {:induction false} SplitPartsFree(s: string, c: char)
    ensures forall k :: 0 <= k < |Split(s, c)| ==> c !in Split(s, c)[k]
    decreases |s|
  {
    var i := IndexOf(s, c);
    if i < |s| {
      SplitPartsFree(s[i + 1..], c);
      var tail := Split(s[i + 1..], c);
      assert Split(s, c) == [s[..i]] + tail;
      forall k | 0 <= k < |Split(s, c)| ensures c !in Split(s, c)[k] {
        if k > 0 { assert Split(s, c)[k] == tail[k - 1]; }
      }
    }
  }

  /**
   * Closed form of the first part and of the remaining parts rejoined:
   * `s.split(c)[0]` is everything before the first `c`; there is more than one part
   * exactly when `c` occurs; the remaining parts joined with `c` are everything after it.
   */
  lemma SplitFirstAndRest(s: string, c: char)
    ensures Split(s, c)[0] == s[..IndexOf(s, c)]
    ensures |Split(s, c)| > 1 <==> c in s
    ensures c in s ==> Join(Split(s, c)[1..], [c]) == s[IndexOf(s, c) + 1..]
  {
    var i := IndexOf(s, c);
    if i < |s| {
      var tail := Split(s[i + 1..], c);
      assert Split(s, c) == [s[..i]] + tail;
      assert Split(s, c)[1..] == tail;
      SplitJoin(s[i + 1..], c);
    } else {
      assert c !in s;
    }
  }

  /** `s.replace(c, d)` with a one-character string pattern: only the first occurrence changes. */
  function ReplaceFirst(s: string, c: char, d: char): (r: string)
    ensures |r| == |s|
  {
    var i := IndexOf(s, c);
    if i == |s| then s else s[..i] + [d] + s[i + 1..]
  }

  lemma ReplaceFirstSpec(s: string, c: char, d: char)
    ensures var i := IndexOf(s, c);
      forall k :: 0 <= k < |s| ==> ReplaceFirst(s, c, d)[k] == (if k == i then d else s[k])
  {
  }

  /** Count of the occurrences of `c` in `s`. */
  function Occurrences(s: string, c: char): (n: nat)
    ensures n <= |s|
  {
    if s == [] then 0 else (if s[0] == c then 1 else 0) + Occurrences(s[1..], c)
  }

  lemma {:induction false} OccurrencesZero(s: string, c: char)
    ensures Occurrences(s, c) == 0 <==> c !in s
  {
    if s != [] {
      OccurrencesZero(s[1..], c);
      assert s == [s[0]] + s[1..];
    }
  }

  lemma {:induction false} OccurrencesAppend(a: string, b: string, c: char)
    ensures Occurrences(a + b, c) == Occurrences(a, c) + Occurrences(b, c)
    decreases |a|
  {
    if a == [] {
      assert a + b == b;
    } else {
      assert (a + b)[0] == a[0];
      assert (a + b)[1..] == a[1..] + b;
      OccurrencesAppend(a[1..], b, c);
    }
  }

  lemma OccurrencesCons(x: char, t: string, c: char)
    ensures Occurrences([x] + t, c) == (if x == c then 1 else 0) + Occurrences(t, c)
  {
    assert ([x] + t)[0] == x;
    assert ([x] + t)[1..] == t;
  }

  /** Lower-casing neither creates nor removes a character that is not a letter. */
  lemma {:induction false} OccurrencesToLower(s: string, c: char)
    requires !IsUpper(c) && !IsLower(c)
    ensures Occurrences(ToLower(s), c) == Occurrences(s, c)
  {
    if s != [] {
      assert ToLower(s)[1..] == ToLower(s[1..]);
      OccurrencesToLower(s[1..], c);
    }
  }

  /** Replacing the first `c` by another character removes exactly one occurrence of `c`. */
  lemma ReplaceFirstOccurrences(s: string, c: char, d: char)
    requires c != d
    ensures Occurrences(ReplaceFirst(s, c, d), c) == if c in s then Occurrences(s, c) - 1 else 0
  {
    var i := IndexOf(s, c);
    if i == |s| {
      OccurrencesZero(s, c);
    } else {
      var pre, post := s[..i], s[i + 1..];
      assert s == pre + ([c] + post);
      assert ReplaceFirst(s, c, d) == pre + ([d] + post);
      assert Occurrences(pre, c) == 0 by {
        assert c !in pre;
        OccurrencesZero(pre, c);
      }
      calc {
        Occurrences(s, c);
        { OccurrencesAppend(pre, [c] + post, c); }
        Occurrences([c] + post, c);
        { OccurrencesCons(c, post, c); }
        1 + Occurrences(post, c);
      }
      calc {
        Occurrences(ReplaceFirst(s, c, d), c);
        { OccurrencesAppend(pre, [d] + post, c); }
        Occurrences([d] + post, c);
        { OccurrencesCons(d, post, c); }
        Occurrences(post, c);
      }
    }
  }

  /** Number of leading characters of `s` that `trim` removes. */
  function LeadingSpaces(s: string): (n: nat)
    ensures n <= |s|
    ensures forall k :: 0 <= k < n ==> IsSpace(s[k])
    ensures n < |s| ==> !IsSpace(s[n])
  {
    if s == [] || !IsSpace(s[0]) then 0 else 1 + LeadingSpaces(s[1..])
  }

  /** Number of trailing characters of `s` that `trim` removes. */
  function TrailingSpaces(s: string): (n: nat)
    ensures n <= |s|
    ensures forall k :: |s| - n <= k < |s| ==> IsSpace(s[k])
    ensures n < |s| ==> !IsSpace(s[|s| - 1 - n])
  {
    if s == [] || !IsSpace(s[|s| - 1]) then 0 else 1 + TrailingSpaces(s[..|s| - 1])
  }

  /**
   * `s.trim()`: the result is the slice of `s` left after removing the white space at both
   * ends; everything before and after it is white space, and it has none at either end.
   */
  function Trim(s: string): (r: string)
    ensures r == [] || (!IsSpace(r[0]) && !IsSpace(r[|r| - 1]))
    ensures exists i ::
      && 0 <= i <= |s| - |r| && SliceAt(s, r, i)
      && (forall k :: 0 <= k < i ==> IsSpace(s[k]))
      && (forall k :: i + |r| <= k < |s| ==> IsSpace(s[k]))
    ensures r == [] <==> forall k :: 0 <= k < |s| ==> IsSpace(s[k])
  {
    var a := LeadingSpaces(s);
    if a == |s| then
      assert SliceAt(s, [], 0);
      []
    else
      var b := TrailingSpaces(s);
      assert !IsSpace(s[a]);
      assert b < |s| - a;
      var r := s[a..|s| - b];
      assert SliceAt(s, r, a);
      r
  }

  /** Length of the run of non-space characters at the start of `s`. */
  function WordLength(s: string): (n: nat)
    ensures n <= |s|
    ensures forall k :: 0 <= k < n ==> !IsSpace(s[k])
    ensures n < |s| ==> IsSpace(s[n])
  {
    if s == [] || IsSpace(s[0]) then 0 else 1 + WordLength(s[1..])
  }

  /** `s.split(/\s+/).filter(w => w.length > 0)`: the maximal runs of non-space characters. */
  function Words(s: string): seq<string>
    decreases |s|
  {
    if s == [] then []
    else if IsSpace(s[0]) then Words(s[1..])
    else
      var n := WordLength(s);
      [s[..n]] + Words(s[n..])
  }

  /** `w` holds no white space. */
  predicate NoSpace(w: string) {
    forall c :: c in w ==> !IsSpace(c)
  }

  /** Every word is non-empty, free of white space, and a contiguous slice of the input. */
  lemma {:induction false} WordsAreSlices(s: string)
    ensures forall k :: 0 <= k < |Words(s)| ==> Words(s)[k] != [] && NoSpace(Words(s)[k])
    ensures forall k :: 0 <= k < |Words(s)| ==> Contains(s, Words(s)[k])
    decreases |s|
  {
    if s == [] {
    } else if IsSpace(s[0]) {
      WordsAreSlices(s[1..]);
      assert Words(s) == Words(s[1..]);
      forall k | 0 <= k < |Words(s)| ensures Contains(s, Words(s)[k]) {
        assert Contains(s[1..], Words(s)[k]);
        ContainsShift(s, 1, Words(s)[k]);
      }
    } else {
      var n := WordLength(s);
      var tail := Words(s[n..]);
      assert Words(s) == [s[..n]] + tail;
      WordsAreSlices(s[n..]);
      assert s[..n][0] == s[0];
      assert SliceAt(s, s[..n], 0);
      forall k | 1 <= k < |Words(s)| ensures Contains(s, Words(s)[k]) {
        assert Words(s)[k] == tail[k - 1];
        ContainsShift(s, n, tail[k - 1]);
      }
    }
  }

  /** What occurs in a suffix of `s` occurs in `s`. */
  lemma ContainsShift(s: string, n: nat, w: string)
    requires n <= |s|
    requires Contains(s[n..], w)
    ensures Contains(s, w)
  {
    var j :| 0 <= j <= |s[n..]| - |w| && SliceAt(s[n..], w, j);
    assert s[n..][j..j + |w|] == s[n + j..n + j + |w|];
    assert SliceAt(s, w, n + j);
  }

  /** Every character of `parts.join(sep)` comes from `sep` or from one of the parts. */
  lemma {:induction false} JoinChars(parts: seq<string>, sep: string)
    ensures forall c :: c in Join(parts, sep) ==> c in sep || exists k :: 0 <= k < |parts| && c in parts[k]
  {
    if |parts| > 1 {
      JoinChars(parts[1..], sep);
      forall c | c in Join(parts, sep) ensures c in sep || exists k :: 0 <= k < |parts| && c in parts[k] {
        if c in Join(parts[1..], sep) && c !in sep {
          var k :| 0 <= k < |parts[1..]| && c in parts[1..][k];
          assert c in parts[k + 1];
        }
      }
    } else if |parts| == 1 {
      forall c | c in Join(parts, sep) ensures exists k :: 0 <= k < |parts| && c in parts[k] {
        assert c in parts[0];
      }
    }
  }

  /** Splitting on white space undoes joining non-empty, space-free words with single spaces. */
  lemma {:induction false} WordsOfJoin(ws: seq<string>)
    requires forall k :: 0 <= k < |ws| ==> ws[k] != [] && forall c :: c in ws[k] ==> !IsSpace(c)
    ensures Words(Join(ws, " ")) == ws
  {
    if ws == [] {
    } else {
      var w := ws[0];
      var rest := Join(ws[1..], " ");
      var s := Join(ws, " ");
      assert forall k :: 0 <= k < |ws[1..]| ==> ws[1..][k] == ws[k + 1];
      WordsOfJoin(ws[1..]);
      WordLengthOfPrefix(w, if |ws| == 1 then "" else " " + rest);
      assert w[0] in w;
      if |ws| == 1 {
        assert s == w + "";
        assert s[|w|..] == [];
        assert Words(s) == [w] + Words([]);
      } else {
        assert s == w + (" " + rest);
        assert s[0] == w[0];
        assert s[..|w|] == w;
        assert s[|w|..] == " " + rest;
        assert (" " + rest)[1..] == rest;
        assert Words(s) == [w] + Words(" " + rest);
        assert Words(" " + rest) == Words(rest);
        assert ws == [w] + ws[1..];
      }
    }
  }

  lemma {:induction false} WordLengthOfPrefix(w: string, t: string)
    requires forall c :: c in w ==> !IsSpace(c)
    requires t == [] || IsSpace(t[0])
    ensures WordLength(w + t) == |w|
    decreases |w|
  {
    if w != [] {
      assert (w + t)[1..] == w[1..] + t;
      assert w[0] in w;
      WordLengthOfPrefix(w[1..], t);
    }
  }

  /** Decimal text of a natural number, as template literals print it. */
  function NatToString(n: nat): (r: string)
    ensures r != []
    ensures forall k :: 0 <= k < |r| ==> '0' <= r[k] <= '9'
  {
    if n < 10 then [DigitChar(n)] else NatToString(n / 10) + [DigitChar(n % 10)]
  }

  function DigitChar(d: nat): (c: char)
    requires d < 10
    ensures '0' <= c <= '9' && c as int - '0' as int == d
  {
    ('0' as int + d) as char
  }

  /** Reading the digits back gives the number: decimal printing is injective. */
  function DigitsValue(s: string): int {
    if s == [] then 0 else DigitsValue(s[..|s| - 1]) * 10 + (s[|s| - 1] as int - '0' as int)
  }

  lemma {:induction false} NatToStringValue(n: nat)
    ensures DigitsValue(NatToString(n)) == n
  {
    if n >= 10 {
      NatToStringValue(n / 10);
      var r := NatToString(n);
      assert r[..|r| - 1] == NatToString(n / 10);
    } else {
      assert [DigitChar(n)][..0] == [];
    }
  }
}
