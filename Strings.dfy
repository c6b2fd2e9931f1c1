/**
 * The parts of Python's `str` semantics that the modelled code relies on:
 * `isspace`, `split()`, `split(sep)`, `replace`, `strip`, `join`, `endswith`
 * and the decimal rendering of integers by f-strings.
 */
module Strings {

  /** Python's `str.isspace` for one character (Unicode White_Space as CPython defines it). */
  predicate IsSpace(c: char) {
    || ('\t' <= c <= '\r')
    || ('\U{1c}' <= c <= '\U{1f}')
    || c == ' ' || c == '\U{85}' || c == '\U{a0}' || c == '\U{1680}'
    || ('\U{2000}' <= c <= '\U{200a}')
    || c == '\U{2028}' || c == '\U{2029}' || c == '\U{202f}' || c == '\U{205f}' || c == '\U{3000}'
  }

  predicate AllSpace(s: string) {
    forall i :: 0 <= i < |s| ==> IsSpace(s[i])
  }

  predicate NoSpace(s: string) {
    forall i :: 0 <= i < |s| ==> !IsSpace(s[i])
  }

  predicate EndsWith(s: string, suffix: string) {
    |suffix| <= |s| && s[|s| - |suffix|..] == suffix
  }

  // ---------------------------------------------------------------------------
  // "sep".join(xs)
  // ---------------------------------------------------------------------------

  function Join(xs: seq<string>, sep: string): string {
    if xs == [] then ""
    else if |xs| == 1 then xs[0]
    else xs[0] + sep + Join(xs[1..], sep)
  }

  /** "".join(xs) */
  function Concat(xs: seq<string>): string {
    Join(xs, "")
  }

  lemma {:induction false} JoinAppend(xs: seq<string>, x: string, sep: string)
    ensures Join(xs + [x], sep) == if xs == [] then x else Join(xs, sep) + sep + x
  {
    if |xs| > 1 {
      assert (xs + [x])[1..] == xs[1..] + [x];
      JoinAppend(xs[1..], x, sep);
    } else if |xs| == 1 {
      assert (xs + [x])[1..] == [x];
    } else {
      assert xs + [x] == [x];
    }
  }

  lemma {:induction false} ConcatAppend(xs: seq<string>, ys: seq<string>)
    ensures Concat(xs + ys) == Concat(xs) + Concat(ys)
  {
    if xs == [] {
      assert xs + ys == ys;
    } else if |xs| == 1 {
      if ys != [] {
        assert (xs + ys)[1..] == ys;
      }
    } else {
      assert (xs + ys)[1..] == xs[1..] + ys;
      ConcatAppend(xs[1..], ys);
    }
  }

  /** The length of a join: the pieces plus one separator between each pair of neighbours. */
  lemma {:induction false} JoinLength(xs: seq<string>, sep: string)
    requires xs != []
    ensures |Join(xs, sep)| == SumLengths(xs) + (|xs| - 1) * |sep|
  {
    if |xs| > 1 {
      JoinLength(xs[1..], sep);
    }
  }

  function SumLengths(xs: seq<string>): nat {
    if xs == [] then 0 else |xs[0]| + SumLengths(xs[1..])
  }

  /** Where the i-th piece starts inside `Join(xs, sep)`. */
  function JoinOffset(xs: seq<string>, sep: string, i: nat): nat
    requires i < |xs|
  {
    if i == 0 then 0 else |xs[0]| + |sep| + JoinOffset(xs[1..], sep, i - 1)
  }

  /** Every piece of a join can be found, unchanged, at its offset. */
  lemma {:induction false} JoinContainsPiece(xs: seq<string>, sep: string, i: nat)
    requires i < |xs|
    ensures JoinOffset(xs, sep, i) + |xs[i]| <= |Join(xs, sep)|
    ensures Join(xs, sep)[JoinOffset(xs, sep, i)..JoinOffset(xs, sep, i) + |xs[i]|] == xs[i]
  {
    if i > 0 {
      JoinContainsPiece(xs[1..], sep, i - 1);
      var j := Join(xs[1..], sep);
      var o := JoinOffset(xs[1..], sep, i - 1);
      assert Join(xs, sep) == (xs[0] + sep) + j;
      assert Join(xs, sep)[|xs[0]| + |sep| + o..|xs[0]| + |sep| + o + |xs[i]|] == j[o..o + |xs[i]|];
    } else if |xs| > 1 {
      assert Join(xs, sep) == xs[0] + (sep + Join(xs[1..], sep));
    }
  }

  // ---------------------------------------------------------------------------
  // s.split()  (no separator: runs of whitespace separate, ends are dropped)
  // ---------------------------------------------------------------------------

  /** Length of the run of non-whitespace characters at the start of `s`. */
  function WordEnd(s: string): (n: nat)
    ensures n <= |s|
    ensures NoSpace(s[..n])
    ensures n < |s| ==> IsSpace(s[n])
  {
    if s == [] || IsSpace(s[0]) then 0 else 1 + WordEnd(s[1..])
  }

  /** Python's `s.split()`. */
  function Words(s: string): seq<string>
    decreases |s|
  {
    if s == [] then []
    else if IsSpace(s[0]) then Words(s[1..])
    else var n := WordEnd(s); [s[..n]] + Words(s[n..])
  }

  /** The words are non-empty, free of whitespace, and together hold exactly the non-whitespace characters of `s`. */
  lemma {:induction false} WordsCoverText(s: string)
    ensures forall k :: 0 <= k < |Words(s)| ==> Words(s)[k] != [] && NoSpace(Words(s)[k])
    ensures Concat(Words(s)) == NonSpaceChars(s)
    decreases |s|
  {
    if s == [] {
    } else if IsSpace(s[0]) {
      WordsCoverText(s[1..]);
      assert NonSpaceChars(s) == NonSpaceChars(s[1..]);
    } else {
      var n := WordEnd(s);
      WordsCoverText(s[n..]);
      ConcatAppend([s[..n]], Words(s[n..]));
      NonSpacePrefix(s, n);
    }
  }

  /** The characters of `s` that are not whitespace, in order. */
  function NonSpaceChars(s: string): string {
    if s == [] then [] else (if IsSpace(s[0]) then [] else [s[0]]) + NonSpaceChars(s[1..])
  }

  lemma {:induction false} NonSpacePrefix(s: string, n: nat)
    requires n <= |s| && NoSpace(s[..n])
    ensures NonSpaceChars(s) == s[..n] + NonSpaceChars(s[n..])
  {
    if n > 0 {
      assert s[1..][..n - 1] == s[1..n];
      NonSpacePrefix(s[1..], n - 1);
      assert s[1..][n - 1..] == s[n..];
      assert s[..n] == [s[0]] + s[1..n];
    }
  }

  /** `split()` undoes a space-join of whitespace-free, non-empty words. */
  lemma {:induction false} WordsOfJoin(ws: seq<string>)
    requires forall k :: 0 <= k < |ws| ==> ws[k] != [] && NoSpace(ws[k])
    ensures Words(Join(ws, " ")) == ws
  {
    if |ws| == 1 {
      WordsOfWord(ws[0], "");
      assert ws[0] + "" == ws[0];
    } else if |ws| > 1 {
      WordsOfJoin(ws[1..]);
      var rest := Join(ws[1..], " ");
      assert Join(ws, " ") == ws[0] + (" " + rest);
      WordsOfWord(ws[0], " " + rest);
      assert (" " + rest)[1..] == rest;
    }
  }

  /** A leading word followed by whitespace or nothing is split off whole. */
  lemma WordsOfWord(w: string, rest: string)
    requires w != [] && NoSpace(w)
    requires rest == [] || IsSpace(rest[0])
    ensures Words(w + rest) == [w] + Words(rest)
  {
    var s := w + rest;
    WordEndOf(w, rest);
    assert s[..|w|] == w;
    assert s[|w|..] == rest;
    if rest != [] {
      assert Words(rest) == Words(rest[1..]);
    }
  }

  lemma {:induction false} WordEndOf(w: string, rest: string)
    requires NoSpace(w)
    requires rest == [] || IsSpace(rest[0])
    ensures WordEnd(w + rest) == |w|
  {
    if w != [] {
      assert (w + rest)[1..] == w[1..] + rest;
      WordEndOf(w[1..], rest);
    } else {
      assert w + rest == rest;
    }
  }

  // ---------------------------------------------------------------------------
  // s.strip()
  // ---------------------------------------------------------------------------

  function LeadingSpaces(s: string): (n: nat)
    ensures n <= |s| && AllSpace(s[..n])
    ensures n < |s| ==> !IsSpace(s[n])
  {
    if s == [] || !IsSpace(s[0]) then 0 else 1 + LeadingSpaces(s[1..])
  }

  function TrailingSpaces(s: string): (n: nat)
    ensures n <= |s| && AllSpace(s[|s| - n..])
    ensures n < |s| ==> !IsSpace(s[|s| - 1 - n])
  {
    if s == [] || !IsSpace(s[|s| - 1]) then 0
    else
      var p := s[..|s| - 1];
      var m := TrailingSpaces(p);
      assert s[|s| - (m + 1)..] == p[|p| - m..] + [s[|s| - 1]];
      AllSpaceSnoc(p[|p| - m..], s[|s| - 1]);
      assert m + 1 < |s| ==> s[|s| - 1 - (m + 1)] == p[|p| - 1 - m];
      m + 1
  }

  lemma AllSpaceSnoc(a: string, c: char)
    requires AllSpace(a) && IsSpace(c)
    ensures AllSpace(a + [c])
  {
    assert forall i :: 0 <= i < |a| ==> (a + [c])[i] == a[i];
  }

  /**
   * Python's `s.strip()`: `s` is whitespace, then the result, then whitespace,
   * and the result neither begins nor ends with whitespace.
   */
  function Strip(s: string): (r: string)
    ensures r == [] || (!IsSpace(r[0]) && !IsSpace(r[|r| - 1]))
    ensures LeadingSpaces(s) + |r| <= |s|
    ensures s[LeadingSpaces(s)..LeadingSpaces(s) + |r|] == r
    ensures AllSpace(s[..LeadingSpaces(s)]) && AllSpace(s[LeadingSpaces(s) + |r|..])
  {
    var i := LeadingSpaces(s);
    var t := s[i..];
    var j := TrailingSpaces(t);
    var r := t[..|t| - j];
    assert s[i..i + |r|] == r;
    assert s[i + |r|..] == t[|t| - j..];
    assert r != [] ==> r[0] == s[i] && r[|r| - 1] == t[|t| - 1 - j];
    r
  }

  /** Stripping a string that has no whitespace at either end changes nothing. */
  lemma StripTrimmed(s: string)
    requires s == [] || (!IsSpace(s[0]) && !IsSpace(s[|s| - 1]))
    ensures Strip(s) == s
  {
    assert LeadingSpaces(s) == 0;
    assert s[0..] == s;
    assert TrailingSpaces(s) == 0;
  }

  lemma StripIdempotent(s: string)
    ensures Strip(Strip(s)) == Strip(s)
  {
    StripTrimmed(Strip(s));
  }

  // ---------------------------------------------------------------------------
  // s.split(sep) and s.replace(pat, repl)
  // ---------------------------------------------------------------------------

  /** Python's `s.split(sep)` for a non-empty separator: always at least one piece. */
  function SplitOn(s: string, sep: string): (r: seq<string>)
    requires |sep| > 0
    ensures |r| >= 1
    decreases |s|
  {
    if |s| < |sep| then [s]
    else if s[..|sep|] == sep then [""] + SplitOn(s[|sep|..], sep)
    else var rest := SplitOn(s[1..], sep); [[s[0]] + rest[0]] + rest[1..]
  }

  /** Python's `s.replace(pat, repl)` for a non-empty `pat`: left-to-right, non-overlapping. */
  function Replace(s: string, pat: string, repl: string): string
    requires |pat| > 0
    decreases |s|
  {
    if |s| < |pat| then s
    else if s[..|pat|] == pat then repl + Replace(s[|pat|..], pat, repl)
    else [s[0]] + Replace(s[1..], pat, repl)
  }

  /** `pat` occurs in `s` starting at index `q`. */
  predicate OccursAt(s: string, pat: string, q: nat) {
    q + |pat| <= |s| && s[q..q + |pat|] == pat
  }

  /**
   * The scan of `split(sep)` misses nothing: no occurrence of `sep` starts at
   * any position inside a piece. With SplitJoinRoundTrip this makes every
   * occurrence met left to right a separator.
   */
  lemma {:induction false} SplitPieceHasNoMatch(s: string, sep: string, k: nat, q: nat)
    requires |sep| > 0 && k < |SplitOn(s, sep)|
    requires JoinOffset(SplitOn(s, sep), sep, k) <= q < JoinOffset(SplitOn(s, sep), sep, k) + |SplitOn(s, sep)[k]|
    ensures !OccursAt(s, sep, q)
    decreases |s|, 1
  {
    if |s| >= |sep| {
      if s[..|sep|] == sep {
        if k > 0 {
          NoMatchAfterSeparator(s, sep, k, q);
        }
      } else if q > 0 {
        NoMatchAfterFirstChar(s, sep, k, q);
      } else {
        assert s[0..|sep|] == s[..|sep|];
      }
    }
  }

  /** The case of a string that starts with the separator: its pieces are those of the rest. */
  lemma {:induction false} NoMatchAfterSeparator(s: string, sep: string, k: nat, q: nat)
    requires 0 < |sep| <= |s| && s[..|sep|] == sep && 0 < k < |SplitOn(s, sep)|
    requires JoinOffset(SplitOn(s, sep), sep, k) <= q < JoinOffset(SplitOn(s, sep), sep, k) + |SplitOn(s, sep)[k]|
    ensures !OccursAt(s, sep, q)
    decreases |s|, 0
  {
    SplitOnAtSep(s, sep);
    SplitPieceHasNoMatch(s[|sep|..], sep, k - 1, q - |sep|);
    OccursAtShift(s, sep, |sep|, q - |sep|);
  }

  /** The case of a string that does not: its first piece is one character longer. */
  lemma {:induction false} NoMatchAfterFirstChar(s: string, sep: string, k: nat, q: nat)
    requires 0 < |sep| <= |s| && s[..|sep|] != sep && k < |SplitOn(s, sep)| && q > 0
    requires JoinOffset(SplitOn(s, sep), sep, k) <= q < JoinOffset(SplitOn(s, sep), sep, k) + |SplitOn(s, sep)[k]|
    ensures !OccursAt(s, sep, q)
    decreases |s|, 0
  {
    SplitOnAtChar(s, sep);
    JoinOffsetLongerFirst(SplitOn(s, sep), SplitOn(s[1..], sep), sep, k);
    SplitPieceHasNoMatch(s[1..], sep, k, q - 1);
    OccursAtShift(s, sep, 1, q - 1);
  }

  lemma SplitOnAtSep(s: string, sep: string)
    requires 0 < |sep| <= |s| && s[..|sep|] == sep
    ensures SplitOn(s, sep)[0] == ""
    ensures SplitOn(s, sep)[1..] == SplitOn(s[|sep|..], sep)
  {
  }

  lemma SplitOnAtChar(s: string, sep: string)
    requires 0 < |sep| <= |s| && s[..|sep|] != sep
    ensures |SplitOn(s, sep)| == |SplitOn(s[1..], sep)|
    ensures |SplitOn(s, sep)[0]| == 1 + |SplitOn(s[1..], sep)[0]|
    ensures SplitOn(s, sep)[1..] == SplitOn(s[1..], sep)[1..]
  {
  }

  /** Lengthening the first piece by one moves every later piece by one. */
  lemma JoinOffsetLongerFirst(xs: seq<string>, ys: seq<string>, sep: string, k: nat)
    requires |xs| == |ys| && k < |xs| && |xs[0]| == 1 + |ys[0]| && xs[1..] == ys[1..]
    ensures JoinOffset(xs, sep, k) == if k == 0 then 0 else 1 + JoinOffset(ys, sep, k)
  {
  }

  /** An occurrence in `s[d..]` is an occurrence in `s`, `d` further on. */
  lemma OccursAtShift(s: string, pat: string, d: nat, q: nat)
    requires d <= |s|
    ensures OccursAt(s, pat, d + q) == OccursAt(s[d..], pat, q)
  {
    if d + q + |pat| <= |s| {
      assert s[d..][q..q + |pat|] == s[d + q..d + q + |pat|];
    }
  }

  lemma JoinConsFirst(c: char, x: string, ys: seq<string>, sep: string)
    ensures Join([[c] + x] + ys, sep) == [c] + Join([x] + ys, sep)
  {
    if ys != [] {
      assert ([[c] + x] + ys)[1..] == ys;
      assert ([x] + ys)[1..] == ys;
    }
  }

  /** `replace` is `repl.join(s.split(pat))`: the pieces between occurrences, re-joined. */
  lemma {:induction false} ReplaceIsJoinOfSplit(s: string, pat: string, repl: string)
    requires |pat| > 0
    ensures Replace(s, pat, repl) == Join(SplitOn(s, pat), repl)
    decreases |s|
  {
    if |s| < |pat| {
    } else if s[..|pat|] == pat {
      ReplaceIsJoinOfSplit(s[|pat|..], pat, repl);
      var rest := SplitOn(s[|pat|..], pat);
      assert ([""] + rest)[1..] == rest;
    } else {
      ReplaceIsJoinOfSplit(s[1..], pat, repl);
      var rest := SplitOn(s[1..], pat);
      assert [rest[0]] + rest[1..] == rest;
      JoinConsFirst(s[0], rest[0], rest[1..], repl);
    }
  }

  /** Splitting on a separator and joining with the same separator restores the string. */
  lemma SplitJoinRoundTrip(s: string, sep: string)
    requires |sep| > 0
    ensures Join(SplitOn(s, sep), sep) == s
  {
    ReplaceIsJoinOfSplit(s, sep, sep);
    ReplaceSelf(s, sep);
  }

  lemma {:induction false} ReplaceSelf(s: string, pat: string)
    requires |pat| > 0
    ensures Replace(s, pat, pat) == s
    decreases |s|
  {
    if |s| < |pat| {
    } else if s[..|pat|] == pat {
      ReplaceSelf(s[|pat|..], pat);
      assert s == s[..|pat|] + s[|pat|..];
    } else {
      ReplaceSelf(s[1..], pat);
      assert s == [s[0]] + s[1..];
    }
  }

  /** Deleting `pat` removes exactly `|pat|` characters per occurrence found by `split`. */
  lemma ReplaceDeleteLength(s: string, pat: string)
    requires |pat| > 0
    ensures |Replace(s, pat, "")| == |s| - (|SplitOn(s, pat)| - 1) * |pat|
  {
    ReplaceIsJoinOfSplit(s, pat, "");
    SplitJoinRoundTrip(s, pat);
    JoinLength(SplitOn(s, pat), pat);
    JoinLength(SplitOn(s, pat), "");
  }

  /** A string in which `pat` does not occur is left unchanged. */
  lemma {:induction false} ReplaceAbsent(s: string, pat: string, repl: string)
    requires |pat| > 0
    requires forall q: nat :: !OccursAt(s, pat, q)
    ensures Replace(s, pat, repl) == s
    decreases |s|
  {
    if |s| >= |pat| {
      assert !OccursAt(s, pat, 0);
      forall q: nat
        ensures !OccursAt(s[1..], pat, q)
      {
        assert !OccursAt(s, pat, q + 1);
        if q + |pat| <= |s| - 1 {
          assert s[1..][q..q + |pat|] == s[q + 1..q + 1 + |pat|];
        }
      }
      ReplaceAbsent(s[1..], pat, repl);
      assert s == [s[0]] + s[1..];
    }
  }

  /** In particular, a string without the pattern's first character is left unchanged. */
  lemma ReplaceFirstCharAbsent(s: string, pat: string, repl: string)
    requires |pat| > 0
    requires forall i :: 0 <= i < |s| ==> s[i] != pat[0]
    ensures Replace(s, pat, repl) == s
  {
    forall q: nat
      ensures !OccursAt(s, pat, q)
    {
      if q + |pat| <= |s| {
        assert s[q..q + |pat|][0] == s[q];
      }
    }
    ReplaceAbsent(s, pat, repl);
  }

  /** Deleting `pat` changes the string exactly when `pat` occurs in it. */
  lemma ReplaceDeleteUnchanged(s: string, pat: string)
    requires |pat| > 0
    ensures Replace(s, pat, "") == s <==> forall q: nat :: !OccursAt(s, pat, q)
  {
    if Replace(s, pat, "") == s {
      forall q: nat
        ensures !OccursAt(s, pat, q)
      {
        OccurrenceShortens(s, pat, q);
      }
    } else if forall q: nat :: !OccursAt(s, pat, q) {
      ReplaceAbsent(s, pat, "");
    }
  }

  /** An occurrence anywhere makes the deletion strictly shorter. */
  lemma {:induction false} OccurrenceShortens(s: string, pat: string, q: nat)
    requires |pat| > 0
    ensures OccursAt(s, pat, q) ==> |Replace(s, pat, "")| < |s|
    decreases q
  {
    if |s| >= |pat| {
      if s[..|pat|] == pat {
        ReplaceDeleteShorter(s[|pat|..], pat);
      } else if q > 0 {
        OccursAtShift(s, pat, 1, q - 1);
        OccurrenceShortens(s[1..], pat, q - 1);
      } else {
        assert s[0..|pat|] == s[..|pat|];
      }
    }
  }

  /** Deleting occurrences never lengthens a string. */
  lemma ReplaceDeleteShorter(s: string, pat: string)
    requires |pat| > 0
    ensures |Replace(s, pat, "")| <= |s|
  {
    ReplaceDeleteLength(s, pat);
  }

  // ---------------------------------------------------------------------------
  // URLs: "if url.endswith('/'): url = url[:-1]"
  // ---------------------------------------------------------------------------

  /** Removes one trailing '/', if there is one; otherwise the URL is unchanged. */
  function StripTrailingSlash(url: string): (r: string)
    ensures EndsWith(url, "/") ==> r + "/" == url
    ensures !EndsWith(url, "/") ==> r == url
  {
    if EndsWith(url, "/") then url[..|url| - 1] else url
  }

  lemma StripTrailingSlashOnce(url: string)
    ensures StripTrailingSlash(url + "/") == url
  {
    assert EndsWith(url + "/", "/");
    assert StripTrailingSlash(url + "/") + "/" == url + "/";
  }

  // ---------------------------------------------------------------------------
  // f"{n}" for integers
  // ---------------------------------------------------------------------------

  function DigitChar(d: nat): (c: char)
    requires d < 10
    ensures c as int - '0' as int == d
  {
    ('0' as int + d) as char
  }

  /** The decimal digits of `n`, most significant first, without leading zeros. */
  function Decimal(n: nat): (r: string)
    ensures |r| >= 1
    ensures forall i :: 0 <= i < |r| ==> '0' <= r[i] <= '9'
    ensures |r| > 1 ==> r[0] != '0'
  {
    if n < 10 then [DigitChar(n)] else Decimal(n / 10) + [DigitChar(n % 10)]
  }

  /** Python's `str(i)` for an `int`. */
  function IntToString(i: int): string {
    if i < 0 then "-" + Decimal(-i) else Decimal(i)
  }

  /** Reads back a string of decimal digits. */
  function ParseDecimal(s: string): nat
    requires forall i :: 0 <= i < |s| ==> '0' <= s[i] <= '9'
  {
    if s == [] then 0 else 10 * ParseDecimal(s[..|s| - 1]) + (s[|s| - 1] as int - '0' as int)
  }

  lemma {:induction false} DecimalRoundTrip(n: nat)
    ensures ParseDecimal(Decimal(n)) == n
  {
    if n >= 10 {
      DecimalRoundTrip(n / 10);
      var r := Decimal(n);
      assert r[..|r| - 1] == Decimal(n / 10);
    }
  }
}
