/**
 * String helpers shared by the client (JavaScript) and the server (Python).
 * Whitespace is ASCII whitespace and case folding is ASCII case folding; the
 * Unicode tables of `String.prototype.trim`, `str.strip`, the `\s` class of
 * Python's `re` and `toLowerCase` are not modelled.
 */
module Text {

  /** Space, tab, line feed, vertical tab, form feed, carriage return. */
  predicate IsSpace(c: char) {
    c == ' ' || c == '\t' || c == '\n' || c == '\U{B}' || c == '\U{C}' || c == '\r'
  }

  predicate AllSpace(s: string) {
    forall i :: 0 <= i < |s| ==> IsSpace(s[i])
  }

  /** No two whitespace characters stand next to each other. */
  predicate NoDoubleSpace(s: string) {
    forall i :: 0 <= i < |s| - 1 ==> !(IsSpace(s[i]) && IsSpace(s[i + 1]))
  }

  /** `s` starts with `p` (JavaScript `startsWith`, Python `startswith`). */
  predicate StartsWith(s: string, p: string) {
    |p| <= |s| && s[..|p|] == p
  }

  /**
   * The scheme test both sides apply, case-sensitive: JavaScript's
   * `startsWith('http://') || startsWith('https://')` and Python's
   * `startswith(('http://', 'https://'))`.
   */
  predicate HasScheme(url: string) {
    StartsWith(url, "http://") || StartsWith(url, "https://")
  }

  /** `t` occurs in `s` starting at index `i`. */
  predicate OccursAt(s: string, t: string, i: int) {
    0 <= i <= |s| - |t| && s[i..i + |t|] == t
  }

  /** `t` occurs in `s` as a contiguous substring (JavaScript `includes`). */
  predicate Contains(s: string, t: string) {
    exists i | 0 <= i <= |s| - |t| :: OccursAt(s, t, i)
  }

  /** Every string contains the empty string. */
  lemma ContainsEmpty(s: string)
    ensures Contains(s, "")
  {
    assert OccursAt(s, "", 0);
  }

  /** Drops the leading whitespace. */
  function TrimStart(s: string): (r: string)
    ensures |r| <= |s| && r == s[|s| - |r|..]
    ensures AllSpace(s[..|s| - |r|])
    ensures r == [] || !IsSpace(r[0])
  {
    if s != [] && IsSpace(s[0]) then TrimStart(s[1..]) else s
  }

  /** Drops the trailing whitespace. */
  function TrimEnd(s: string): (r: string)
    ensures |r| <= |s| && r == s[..|r|]
    ensures AllSpace(s[|r|..])
    ensures r == [] || !IsSpace(r[|r| - 1])
  {
    if s != [] && IsSpace(s[|s| - 1]) then TrimEnd(s[..|s| - 1]) else s
  }

  /**
   * `r` is the piece of `s` starting at `k` and everything outside it is
   * whitespace.
   */
  predicate TrimmedAt(s: string, r: string, k: int) {
    0 <= k <= |s| - |r| && r == s[k..k + |r|] && AllSpace(s[..k]) && AllSpace(s[k + |r|..])
  }

  /** A prefix `r` of a suffix `t` of `s` is a slice of `s`, followed by the rest of `t`. */
  lemma SliceOfSuffix(s: string, t: string, r: string)
    requires |t| <= |s| && t == s[|s| - |t|..]
    requires |r| <= |t| && r == t[..|r|]
    ensures s[|s| - |t|..|s| - |t| + |r|] == r
    ensures s[|s| - |t| + |r|..] == t[|r|..]
  {
  }

  /** Only whitespace lies outside the kept piece, so `s` is all whitespace exactly when the piece is. */
  lemma TrimmedAtBlank(s: string, r: string, k: int)
    requires TrimmedAt(s, r, k)
    ensures AllSpace(s) <==> AllSpace(r)
  {
    if AllSpace(r) {
      forall i | 0 <= i < |s| ensures IsSpace(s[i]) {
        if i < k {
          assert s[i] == s[..k][i];
        } else if i < k + |r| {
          assert s[i] == r[i - k];
        } else {
          assert s[i] == s[k + |r|..][i - k - |r|];
        }
      }
    }
    if AllSpace(s) {
      forall i | 0 <= i < |r| ensures IsSpace(r[i]) {
        assert r[i] == s[k + i];
      }
    }
  }

  /** Concatenation is associative. */
  lemma AppendAssoc(a: string, b: string, c: string)
    ensures a + (b + c) == a + b + c
  {
  }

  /**
   * JavaScript `trim()` and Python `strip()`: the slice of `s` left after
   * removing whitespace at both ends.
   */
  function Trim(s: string): (r: string)
    ensures exists k :: TrimmedAt(s, r, k)
    ensures r == [] || (!IsSpace(r[0]) && !IsSpace(r[|r| - 1]))
    ensures r == [] <==> AllSpace(s)
  {
    var t := TrimStart(s);
    var r := TrimEnd(t);
    assert TrimmedAt(s, r, |s| - |t|) by {
      SliceOfSuffix(s, t, r);
    }
    TrimmedAtBlank(s, r, |s| - |t|);
    assert r == [] <==> AllSpace(r) by {
      if r != [] { assert !IsSpace(r[0]); }
    }
    r
  }

  /** A string with no whitespace at either end is its own trimming. */
  lemma TrimOfTrimmed(s: string)
    requires s == [] || (!IsSpace(s[0]) && !IsSpace(s[|s| - 1]))
    ensures Trim(s) == s
  {
  }

  /** Trimming twice is trimming once. */
  lemma TrimIdempotent(s: string)
    ensures Trim(Trim(s)) == Trim(s)
  {
    TrimOfTrimmed(Trim(s));
  }

  /** ASCII `toLowerCase` of one character. */
  function LowerChar(c: char): (r: char)
    ensures 'A' <= c <= 'Z' ==> r != c && 'a' <= r <= 'z'
    ensures !('A' <= c <= 'Z') ==> r == c
  {
    if 'A' <= c <= 'Z' then (c as int - 'A' as int + 'a' as int) as char else c
  }

  /** ASCII `toLowerCase`. */
  function ToLower(s: string): (r: string)
    ensures |r| == |s|
    ensures forall i :: 0 <= i < |s| ==> r[i] == LowerChar(s[i])
  {
    seq(|s|, i requires 0 <= i < |s| => LowerChar(s[i]))
  }

  /** Lower-casing keeps whitespace where it was. */
  lemma ToLowerKeepsSpace(s: string)
    ensures forall i :: 0 <= i < |s| ==> (IsSpace(ToLower(s)[i]) <==> IsSpace(s[i]))
  {
  }

  /** Python slicing `s[:n]`: the first `n` elements, or all of them. */
  function Take<T>(s: seq<T>, n: nat): (r: seq<T>)
    ensures |r| == if |s| <= n then |s| else n
    ensures r == s[..|r|]
  {
    if |s| <= n then s else s[..n]
  }

  /**
   * Python `re.sub(r'\s+', ' ', s)`: every maximal run of whitespace
   * becomes one space.
   */
  function CollapseSpaces(s: string): (r: string)
    ensures |r| <= |s|
    ensures NoDoubleSpace(r)
    ensures forall i :: 0 <= i < |r| && IsSpace(r[i]) ==> r[i] == ' '
    ensures r == [] <==> s == []
    ensures r != [] ==> (IsSpace(r[0]) <==> IsSpace(s[0]))
    decreases |s|
  {
    if s == [] then []
    else if IsSpace(s[0]) then " " + CollapseSpaces(TrimStart(s[1..]))
    else [s[0]] + CollapseSpaces(s[1..])
  }

  /** The characters of `s` that are not whitespace, in order. */
  function NonSpace(s: string): (r: string)
    ensures |r| <= |s|
    ensures forall i :: 0 <= i < |r| ==> !IsSpace(r[i])
  {
    if s == [] then []
    else (if IsSpace(s[0]) then [] else [s[0]]) + NonSpace(s[1..])
  }

  lemma {:induction false} NonSpaceOfSpaces(s: string)
    requires AllSpace(s)
    ensures NonSpace(s) == []
  {
    if s != [] {
      NonSpaceOfSpaces(s[1..]);
    }
  }

  lemma {:induction false} NonSpaceSkipsLeadingSpace(s: string)
    ensures NonSpace(TrimStart(s)) == NonSpace(s)
  {
    if s != [] && IsSpace(s[0]) {
      NonSpaceSkipsLeadingSpace(s[1..]);
    }
  }

  /** Collapsing whitespace keeps every other character, in order. */
  lemma {:induction false} CollapseKeepsText(s: string)
    ensures NonSpace(CollapseSpaces(s)) == NonSpace(s)
    decreases |s|
  {
    if s == [] {
    } else if IsSpace(s[0]) {
      var t := TrimStart(s[1..]);
      CollapseKeepsText(t);
      NonSpaceSkipsLeadingSpace(s[1..]);
      assert CollapseSpaces(s)[1..] == CollapseSpaces(t);
    } else {
      CollapseKeepsText(s[1..]);
      assert CollapseSpaces(s)[1..] == CollapseSpaces(s[1..]);
    }
  }

  /**
   * A string already in collapsed form (single spaces only) is left as it
   * is, so collapsing twice is collapsing once.
   */
  lemma {:induction false} CollapseFixpoint(s: string)
    requires NoDoubleSpace(s)
    requires forall i :: 0 <= i < |s| && IsSpace(s[i]) ==> s[i] == ' '
    ensures CollapseSpaces(s) == s
  {
    if s != [] {
      var rest := s[1..];
      assert NoDoubleSpace(rest) by {
        forall i | 0 <= i < |rest| - 1 ensures !(IsSpace(rest[i]) && IsSpace(rest[i + 1])) {
          assert rest[i] == s[i + 1] && rest[i + 1] == s[i + 2];
        }
      }
      if IsSpace(s[0]) {
        assert rest == [] || !IsSpace(rest[0]) by {
          if rest != [] { assert rest[0] == s[1]; }
        }
        assert TrimStart(rest) == rest;
      }
      CollapseFixpoint(rest);
      assert s == [s[0]] + rest;
    }
  }

  lemma CollapseIdempotent(s: string)
    ensures CollapseSpaces(CollapseSpaces(s)) == CollapseSpaces(s)
  {
    CollapseFixpoint(CollapseSpaces(s));
  }

  /** Whitespace followed by a word (or nothing) trims to that word. */
  lemma {:induction false} TrimStartBeforeWord(w: string, y: string)
    requires AllSpace(w)
    requires y == [] || !IsSpace(y[0])
    ensures TrimStart(w + y) == y
  {
    if w != [] {
      assert (w + y)[1..] == w[1..] + y;
      TrimStartBeforeWord(w[1..], y);
    } else {
      assert w + y == y;
    }
  }

  /** Trimming the front of `x + y` stops inside `x` when `x` is not all whitespace. */
  lemma {:induction false} TrimStartAppend(x: string, y: string)
    requires !AllSpace(x)
    ensures TrimStart(x + y) == TrimStart(x) + y
  {
    if IsSpace(x[0]) {
      assert (x + y)[1..] == x[1..] + y;
      assert !AllSpace(x[1..]) by {
        var i :| 0 <= i < |x| && !IsSpace(x[i]);
        assert x[1..][i - 1] == x[i];
      }
      TrimStartAppend(x[1..], y);
    }
  }

  /** Collapsing splits at a point where a word ends. */
  lemma {:induction false} CollapseAppend(x: string, y: string)
    requires x == [] || !IsSpace(x[|x| - 1])
    ensures CollapseSpaces(x + y) == CollapseSpaces(x) + CollapseSpaces(y)
    decreases |x|, 1
  {
    if x == [] {
      assert x + y == y;
    } else if IsSpace(x[0]) {
      CollapseAppendAfterSpace(x, y);
    } else {
      var rest := x[1..];
      assert rest == [] || !IsSpace(rest[|rest| - 1]);
      CollapseAppend(rest, y);
      CollapseUnfold(x, y);
      AppendAssoc([x[0]], CollapseSpaces(rest), CollapseSpaces(y));
    }
  }

  /** The case of `CollapseAppend` where `x` starts with whitespace. */
  lemma {:induction false} CollapseAppendAfterSpace(x: string, y: string)
    requires x != [] && IsSpace(x[0]) && !IsSpace(x[|x| - 1])
    ensures CollapseSpaces(x + y) == CollapseSpaces(x) + CollapseSpaces(y)
    decreases |x|, 0
  {
    var t := TrimStart(x[1..]);
    CollapseSpaceStep(x, y);
    CollapseAppend(t, y);
    AppendAssoc(" ", CollapseSpaces(t), CollapseSpaces(y));
  }

  /**
   * One step of `CollapseSpaces` over a leading blank of `x`, when `x` ends
   * in a word: the blanks become one space and the rest is the same whether
   * or not `y` follows.
   */
  lemma CollapseSpaceStep(x: string, y: string)
    requires x != [] && IsSpace(x[0]) && !IsSpace(x[|x| - 1])
    ensures var t := TrimStart(x[1..]);
      && t != [] && !IsSpace(t[|t| - 1]) && |t| < |x|
      && CollapseSpaces(x + y) == " " + CollapseSpaces(t + y)
      && CollapseSpaces(x) == " " + CollapseSpaces(t)
  {
    TrimStartOfWordEnd(x, y);
    CollapseUnfold(x, y);
  }

  /** After a leading blank, trimming stops before the word that ends `x`. */
  lemma TrimStartOfWordEnd(x: string, y: string)
    requires x != [] && IsSpace(x[0]) && !IsSpace(x[|x| - 1])
    ensures var t := TrimStart(x[1..]);
      TrimStart(x[1..] + y) == t + y && t != [] && !IsSpace(t[|t| - 1]) && |t| < |x|
  {
    var rest := x[1..];
    assert rest[|rest| - 1] == x[|x| - 1];
    assert !AllSpace(rest) by { assert !IsSpace(rest[|rest| - 1]); }
    TrimStartAppend(rest, y);
    var t := TrimStart(rest);
    assert t[|t| - 1] == rest[|rest| - 1];
  }

  /** One step of `CollapseSpaces` on `x + y`, with `x` not empty. */
  lemma CollapseUnfold(x: string, y: string)
    requires x != []
    ensures IsSpace(x[0]) ==> CollapseSpaces(x + y) == " " + CollapseSpaces(TrimStart(x[1..] + y))
    ensures IsSpace(x[0]) ==> CollapseSpaces(x) == " " + CollapseSpaces(TrimStart(x[1..]))
    ensures !IsSpace(x[0]) ==> CollapseSpaces(x + y) == [x[0]] + CollapseSpaces(x[1..] + y)
    ensures !IsSpace(x[0]) ==> CollapseSpaces(x) == [x[0]] + CollapseSpaces(x[1..])
  {
    assert (x + y)[0] == x[0] && (x + y)[1..] == x[1..] + y;
  }

  /**
   * `re.sub(r'\s+', ' ', ...)` word by word: a maximal run of whitespace
   * between a word end (or the start) and a word start (or the end) becomes
   * exactly one space, and the parts on either side collapse on their own.
   */
  lemma CollapseRun(x: string, w: string, y: string)
    requires x == [] || !IsSpace(x[|x| - 1])
    requires w != [] && AllSpace(w)
    requires y == [] || !IsSpace(y[0])
    ensures CollapseSpaces(x + w + y) == CollapseSpaces(x) + " " + CollapseSpaces(y)
  {
    CollapseRunTail(w, y);
    AppendAssoc(x, w, y);
    CollapseAppend(x, w + y);
    AppendAssoc(CollapseSpaces(x), " ", CollapseSpaces(y));
  }

  /** A run of whitespace in front of a word collapses to one space. */
  lemma CollapseRunTail(w: string, y: string)
    requires w != [] && AllSpace(w)
    requires y == [] || !IsSpace(y[0])
    ensures CollapseSpaces(w + y) == " " + CollapseSpaces(y)
  {
    assert (w + y)[0] == w[0] && (w + y)[1..] == w[1..] + y;
    TrimStartBeforeWord(w[1..], y);
  }

  /** A word without whitespace is left exactly as it is. */
  lemma CollapseWord(x: string)
    requires forall i :: 0 <= i < |x| ==> !IsSpace(x[i])
    ensures CollapseSpaces(x) == x
  {
    CollapseFixpoint(x);
  }

  /** A prefix of a string without double whitespace has none either. */
  lemma NoDoubleSpacePrefix(s: string, n: nat)
    requires NoDoubleSpace(s)
    ensures NoDoubleSpace(Take(s, n))
  {
    var t := Take(s, n);
    forall i | 0 <= i < |t| - 1 ensures !(IsSpace(t[i]) && IsSpace(t[i + 1])) {
      assert t[i] == s[i] && t[i + 1] == s[i + 1];
    }
  }

  function DigitChar(d: nat): (c: char)
    requires d < 10
    ensures '0' <= c <= '9'
  {
    ('0' as int + d) as char
  }

  /** Decimal notation of a natural number (Python `str(n)` on an int). */
  function DecimalString(n: nat): (r: string)
    ensures 1 <= |r|
    ensures forall i :: 0 <= i < |r| ==> '0' <= r[i] <= '9'
    ensures |r| > 1 ==> r[0] != '0'
  {
    if n < 10 then [DigitChar(n)] else DecimalString(n / 10) + [DigitChar(n % 10)]
  }
}
