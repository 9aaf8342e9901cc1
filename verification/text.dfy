/** The JavaScript string operations the news store relies on:
    `String.prototype.trim`, `length` (in UTF-16 code units),
    `replace(/-/g, '')` and `filter(Boolean).join(sep)`, plus the prefix
    helpers the model uses to state how ids and image urls are built. */
module Text {
  import opened Wrappers

  /** The characters `trim` removes: the WhiteSpace and LineTerminator code
      points of ECMAScript (tab, vertical tab, form feed, space, no-break
      space, zero-width no-break space, every space separator of Unicode
      category Zs, line feed, carriage return, line and paragraph separator). */
  predicate IsJsWhitespace(c: char) {
    || c == '\t' || c == '\n' || c == '\U{B}' || c == '\U{C}' || c == '\r'
    || c == ' ' || c == '\U{A0}' || c == '\U{1680}'
    || ('\U{2000}' <= c <= '\U{200A}')
    || c == '\U{2028}' || c == '\U{2029}' || c == '\U{202F}' || c == '\U{205F}'
    || c == '\U{3000}' || c == '\U{FEFF}'
  }

  /** Every character of `s` is whitespace (stated one character at a time,
      so that it unfolds only as far as a proof asks). */
  predicate AllWhitespace(s: string) {
    s == [] || (IsJsWhitespace(s[0]) && AllWhitespace(s[1..]))
  }

  /** `AllWhitespace` says that every character is whitespace. */
  lemma {:induction false} AllWhitespaceAt(s: string)
    ensures AllWhitespace(s) <==> forall i :: 0 <= i < |s| ==> IsJsWhitespace(s[i])
  {
    if s != [] {
      AllWhitespaceAt(s[1..]);
      assert forall i :: 0 < i < |s| ==> s[1..][i - 1] == s[i];
    }
  }

  /** Whitespace followed by whitespace is whitespace. */
  lemma {:induction false} AllWhitespaceAppend(a: string, b: string)
    requires AllWhitespace(a) && AllWhitespace(b)
    ensures AllWhitespace(a + b)
  {
    if a == [] {
      assert a + b == b;
    } else {
      assert (a + b)[1..] == a[1..] + b;
      AllWhitespaceAppend(a[1..], b);
    }
  }

  /** Drops leading whitespace: the result is a suffix of `s`, what was dropped
      is all whitespace, and the result does not start with whitespace. */
  function TrimStart(s: string): (r: string)
    ensures |r| <= |s| && r == s[|s| - |r|..]
    ensures AllWhitespace(s[..|s| - |r|])
    ensures r != [] ==> !IsJsWhitespace(r[0])
  {
    if s != [] && IsJsWhitespace(s[0]) then
      var r := TrimStart(s[1..]);
      assert s[..|s| - |r|][1..] == s[1..][..|s| - 1 - |r|];
      r
    else
      s
  }

  /** Drops trailing whitespace: the result is a prefix of `s`, what was
      dropped is all whitespace, and the result does not end with whitespace. */
  function TrimEnd(s: string): (r: string)
    ensures |r| <= |s| && r == s[..|r|]
    ensures AllWhitespace(s[|r|..])
    ensures r != [] ==> !IsJsWhitespace(r[|r| - 1])
  {
    if s != [] && IsJsWhitespace(s[|s| - 1]) then
      var r := TrimEnd(s[..|s| - 1]);
      assert s[|r|..] == s[..|s| - 1][|r|..] + [s[|s| - 1]];
      AllWhitespaceAppend(s[..|s| - 1][|r|..], [s[|s| - 1]]);
      r
    else
      s
  }

  /** `s` is `r` with whitespace padding on both sides, the front padding
      being the first `k` characters. */
  predicate PaddedAt(s: string, r: string, k: nat) {
    && k + |r| <= |s| && s[k..k + |r|] == r
    && AllWhitespace(s[..k]) && AllWhitespace(s[k + |r|..])
  }

  /** JavaScript's `s.trim()`: `s` is the trimmed string with whitespace
      padding on both sides, cut where `trimStart` cuts, and the trimmed
      string has no whitespace at either end. */
  function Trim(s: string): (r: string)
    ensures |r| <= |s|
    ensures r != [] ==> !IsJsWhitespace(r[0]) && !IsJsWhitespace(r[|r| - 1])
    ensures PaddedAt(s, r, |s| - |TrimStart(s)|)
  {
    TrimKeepsNoPaddedEnds(s);
    PaddedByCuts(s, TrimStart(s), TrimEnd(TrimStart(s)));
    TrimEnd(TrimStart(s))
  }

  /** The trimmed string neither starts nor ends with whitespace. */
  lemma TrimKeepsNoPaddedEnds(s: string)
    ensures var r := TrimEnd(TrimStart(s));
            r != [] ==> !IsJsWhitespace(r[0]) && !IsJsWhitespace(r[|r| - 1])
  {
    var t := TrimStart(s);
    var r := TrimEnd(t);
    if r != [] {
      assert r[0] == t[0];
    }
  }

  /** Cutting whitespace off the front of `s`, leaving `t`, and then off the
      back of `t`, leaving `r`, pads `r` at the first cut. */
  lemma PaddedByCuts(s: string, t: string, r: string)
    requires |t| <= |s| && t == s[|s| - |t|..] && AllWhitespace(s[..|s| - |t|])
    requires |r| <= |t| && r == t[..|r|] && AllWhitespace(t[|r|..])
    ensures PaddedAt(s, r, |s| - |t|)
  {
    var k := |s| - |t|;
    assert s[k..k + |r|] == r;
    assert s[k + |r|..] == t[|r|..];
  }

  /** JavaScript's `s.length`: the number of UTF-16 code units, so a code
      point above U+FFFF (a surrogate pair) counts twice. */
  function Utf16Length(s: string): (n: nat)
    ensures |s| <= n <= 2 * |s|
    ensures n == 0 <==> s == []
  {
    if s == [] then 0
    else (if s[0] as int > 0xFFFF then 2 else 1) + Utf16Length(s[1..])
  }

  /** JavaScript's `s.replace(/x/g, '')` for a one-character pattern `x`:
      `x` no longer occurs, and every other character occurs exactly as often
      as before. */
  function RemoveAll(s: string, x: char): (r: string)
    ensures x !in r
    ensures |r| <= |s|
    ensures forall c :: c != x ==> multiset(r)[c] == multiset(s)[c]
  {
    if s == [] then []
    else
      var rest := RemoveAll(s[1..], x);
      assert s == [s[0]] + s[1..];
      if s[0] == x then rest else [s[0]] + rest
  }

  predicate StartsWith(s: string, prefix: string) {
    |prefix| <= |s| && s[..|prefix|] == prefix
  }

  /** The part of `s` after `prefix`, when `s` starts with it. */
  function StripPrefix(s: string, prefix: string): (r: Option<string>)
    ensures r.Some? <==> StartsWith(s, prefix)
    ensures r.Some? ==> s == prefix + r.value
  {
    if StartsWith(s, prefix) then Some(s[|prefix|..]) else None
  }

  /** `parts.filter(Boolean)` on strings: keeps the non-empty ones, in order. */
  function KeepNonEmpty(parts: seq<string>): (r: seq<string>)
    ensures |r| <= |parts|
    ensures forall i :: 0 <= i < |r| ==> r[i] != ""
    ensures forall p :: p in parts && p != "" ==> p in r
    ensures forall p :: p in r ==> p in parts
  {
    if parts == [] then []
    else if parts[0] == "" then KeepNonEmpty(parts[1..])
    else [parts[0]] + KeepNonEmpty(parts[1..])
  }

  /** `parts.join(sep)`. */
  function Join(parts: seq<string>, sep: string): string {
    if parts == [] then ""
    else if |parts| == 1 then parts[0]
    else parts[0] + sep + Join(parts[1..], sep)
  }

  // ---------------------------------------------------------------- lemmas

  /** Whitespace in front of a string never survives `trimStart`. */
  lemma {:induction false} TrimStartSkipsPadding(p: string, s: string)
    requires AllWhitespace(p)
    ensures TrimStart(p + s) == TrimStart(s)
  {
    if p != [] {
      assert (p + s)[1..] == p[1..] + s;
      TrimStartSkipsPadding(p[1..], s);
    } else {
      assert p + s == s;
    }
  }

  /** Whitespace behind a string never survives `trimEnd`. */
  lemma {:induction false} TrimEndSkipsPadding(s: string, q: string)
    requires AllWhitespace(q)
    ensures TrimEnd(s + q) == TrimEnd(s)
    decreases |q|
  {
    if q != [] {
      var s' := s + [q[0]];
      assert s + q == s' + q[1..];
      TrimEndSkipsPadding(s', q[1..]);
      assert s'[..|s'| - 1] == s;
    } else {
      assert s + q == s;
    }
  }

  /** Once a string holds a non-whitespace character, whatever follows it is
      kept by `trimStart`. */
  lemma {:induction false} TrimStartKeepsTail(s: string, q: string)
    requires !AllWhitespace(s)
    ensures TrimStart(s + q) == TrimStart(s) + q
  {
    if IsJsWhitespace(s[0]) {
      assert (s + q)[1..] == s[1..] + q;
      TrimStartKeepsTail(s[1..], q);
    }
  }

  /** A string that neither starts nor ends with whitespace trims to itself. */
  lemma TrimOfUnpadded(s: string)
    requires s != [] ==> !IsJsWhitespace(s[0]) && !IsJsWhitespace(s[|s| - 1])
    ensures Trim(s) == s
  {
    assert TrimStart(s) == s;
  }

  /** A string of whitespace only trims to nothing. */
  lemma TrimStartOfWhitespace(s: string)
    requires AllWhitespace(s)
    ensures TrimStart(s) == []
  {
  }

  /** `trim` ignores whitespace padding on either side. */
  lemma TrimIgnoresPadding(p: string, s: string, q: string)
    requires AllWhitespace(p) && AllWhitespace(q)
    ensures Trim(p + s + q) == Trim(s)
  {
    assert p + s + q == p + (s + q);
    TrimStartSkipsPadding(p, s + q);
    assert Trim(p + s + q) == TrimEnd(TrimStart(s + q));
    if AllWhitespace(s) {
      AllWhitespaceAppend(s, q);
      TrimStartOfWhitespace(s + q);
      TrimStartOfWhitespace(s);
    } else {
      TrimStartKeepsTail(s, q);
      TrimEndSkipsPadding(TrimStart(s), q);
    }
  }

  /** The UTF-16 length of a concatenation is the sum of the lengths. */
  lemma {:induction false} Utf16LengthAppend(a: string, b: string)
    ensures Utf16Length(a + b) == Utf16Length(a) + Utf16Length(b)
  {
    if a != [] {
      assert (a + b)[1..] == a[1..] + b;
      Utf16LengthAppend(a[1..], b);
    } else {
      assert a + b == b;
    }
  }

  /** On text inside the Basic Multilingual Plane, `length` counts characters. */
  lemma {:induction false} Utf16LengthOfBmp(s: string)
    requires forall i :: 0 <= i < |s| ==> s[i] as int <= 0xFFFF
    ensures Utf16Length(s) == |s|
  {
    if s != [] {
      Utf16LengthOfBmp(s[1..]);
    }
  }

  /** Removing a character commutes with concatenation, so the characters
      left keep their order. */
  lemma {:induction false} RemoveAllAppend(a: string, b: string, x: char)
    ensures RemoveAll(a + b, x) == RemoveAll(a, x) + RemoveAll(b, x)
  {
    if a != [] {
      assert (a + b)[1..] == a[1..] + b;
      RemoveAllAppend(a[1..], b, x);
    } else {
      assert a + b == b;
    }
  }

  /** Removing a character that does not occur changes nothing. */
  lemma {:induction false} RemoveAllAbsent(s: string, x: char)
    requires x !in s
    ensures RemoveAll(s, x) == s
  {
    if s != [] {
      assert x !in s[1..];
      RemoveAllAbsent(s[1..], x);
      assert s == [s[0]] + s[1..];
    }
  }

  /** Cutting a prefix off what was built by prepending it gives back the rest. */
  lemma StripPrefixRoundTrip(prefix: string, rest: string)
    ensures StripPrefix(prefix + rest, prefix) == Some(rest)
  {
    assert (prefix + rest)[..|prefix|] == prefix;
  }

  /** Two strings that start with prefixes differing at some common position
      are different. */
  lemma PrefixesSeparate(s: string, t: string, p: string, q: string, i: nat)
    requires StartsWith(s, p) && StartsWith(t, q)
    requires i < |p| && i < |q| && p[i] != q[i]
    ensures s != t
  {
    assert s[i] == p[i] && t[i] == q[i];
  }

  /** `filter(Boolean).join(sep)` over two parts: empty parts vanish, and a
      separator appears only between two non-empty parts. */
  lemma JoinNonEmptyPair(a: string, b: string, sep: string)
    ensures Join(KeepNonEmpty([a, b]), sep) ==
      if a == "" then b
      else if b == "" then a
      else a + sep + b
  {
    assert [a, b][1..] == [b];
    if a == "" {
      assert KeepNonEmpty([a, b]) == KeepNonEmpty([b]);
    }
  }

  /** One character is one code unit, or two above U+FFFF; with
      `Utf16LengthAppend` this fixes the length of every string. */
  lemma Utf16LengthOfChar(c: char)
    ensures Utf16Length([c]) == if c as int > 0xFFFF then 2 else 1
  {
    assert [c][1..] == [];
  }

  /** `filter(Boolean)` distributes over concatenation, so it keeps the
      non-empty parts in order and with their multiplicity. */
  lemma {:induction false} KeepNonEmptyAppend(a: seq<string>, b: seq<string>)
    ensures KeepNonEmpty(a + b) == KeepNonEmpty(a) + KeepNonEmpty(b)
  {
    if a == [] {
      assert a + b == b;
    } else {
      assert (a + b)[1..] == a[1..] + b;
      KeepNonEmptyAppend(a[1..], b);
    }
  }

  /** Each single part is kept exactly when it is non-empty. */
  lemma KeepNonEmptyOfOne(p: string)
    ensures KeepNonEmpty([p]) == if p == "" then [] else [p]
  {
    assert [p][1..] == [];
  }
}
