/** The parts of Python's `str` that the bot relies on: `strip()`, `lower()`,
    the substring test `p in s`, slicing with a possibly negative bound and
    `split(sep)[-1]`. */
module Text {
  import opened Wrappers

  /** Python's `str.isspace()` for a single character: the characters that
      `strip()` removes and that the regular expression `\s` matches. */
  predicate IsSpace(c: char) {
    ('\U{9}' <= c <= '\U{D}') || ('\U{1C}' <= c <= ' ') || c == '\U{85}' || c == '\U{A0}'
    || c == '\U{1680}' || ('\U{2000}' <= c <= '\U{200A}') || c == '\U{2028}' || c == '\U{2029}'
    || c == '\U{202F}' || c == '\U{205F}' || c == '\U{3000}'
  }

  predicate AllSpace(s: string) {
    forall i :: 0 <= i < |s| ==> IsSpace(s[i])
  }

  /** `s.lstrip()` */
  function TrimStart(s: string): (r: string)
    ensures |r| <= |s| && r == s[|s| - |r|..]
    ensures r == [] || !IsSpace(r[0])
  {
    if s == [] || !IsSpace(s[0]) then s else TrimStart(s[1..])
  }

  /** `s.rstrip()` */
  function TrimEnd(s: string): (r: string)
    ensures |r| <= |s| && r == s[..|r|]
    ensures r == [] || !IsSpace(r[|r| - 1])
  {
    if s == [] || !IsSpace(s[|s| - 1]) then s else TrimEnd(s[..|s| - 1])
  }

  /** `r` sits in `s` at `i` with only whitespace around it. */
  predicate PaddedAt(s: string, r: string, i: int) {
    0 <= i <= |s| - |r| && s[i..i + |r|] == r && AllSpace(s[..i]) && AllSpace(s[i + |r|..])
  }

  /** `s.strip()`: the longest infix of `s` that neither starts nor ends with
      whitespace, obtained by removing only whitespace. */
  function Strip(s: string): (r: string)
    ensures |r| <= |s|
    ensures r == [] || (!IsSpace(r[0]) && !IsSpace(r[|r| - 1]))
  {
    TrimEnd(TrimStart(s))
  }

  /** What `strip()` removes is whitespace only, from both ends; with the
      ends of `Strip(s)` not being whitespace, it is the longest such infix. */
  lemma StripIsPadded(s: string)
    ensures exists i :: PaddedAt(s, Strip(s), i)
  {
    var t := TrimStart(s);
    var r := TrimEnd(t);
    assert r == Strip(s);
    var i := |s| - |t|;
    TrimStartDropsSpace(s);
    TrimEndDropsSpace(t);
    assert s[i..i + |r|] == t[..|r|];
    assert s[i + |r|..] == t[|r|..];
    assert PaddedAt(s, r, i);
  }

  /** `lstrip()` removes whitespace only. */
  lemma {:induction false} TrimStartDropsSpace(s: string)
    ensures AllSpace(s[..|s| - |TrimStart(s)|])
  {
    if s != [] && IsSpace(s[0]) {
      TrimStartDropsSpace(s[1..]);
      assert s[..|s| - |TrimStart(s)|] == [s[0]] + s[1..][..|s[1..]| - |TrimStart(s[1..])|];
    }
  }

  /** `rstrip()` removes whitespace only. */
  lemma {:induction false} TrimEndDropsSpace(s: string)
    ensures AllSpace(s[|TrimEnd(s)|..])
  {
    if s != [] && IsSpace(s[|s| - 1]) {
      var init := s[..|s| - 1];
      TrimEndDropsSpace(init);
      assert s[|TrimEnd(s)|..] == init[|TrimEnd(init)|..] + [s[|s| - 1]];
    }
  }

  /** Stripping adds no character. */
  lemma StripKeepsOut(s: string, c: char)
    requires c !in s
    ensures c !in Strip(s)
  {
    var t := TrimStart(s);
    assert t == s[|s| - |t|..];
    assert c !in t;
    assert Strip(s) == t[..|Strip(s)|];
  }

  function LowerChar(c: char): char {
    if 'A' <= c <= 'Z' then (c as int + 32) as char else c
  }

  /** `s.lower()` for the ASCII letters; every other character is kept. */
  function Lower(s: string): (r: string)
    ensures |r| == |s|
    ensures forall i :: 0 <= i < |s| ==> r[i] == LowerChar(s[i])
  {
    seq(|s|, i requires 0 <= i < |s| => LowerChar(s[i]))
  }

  /** Python's `p in s` on strings. */
  predicate Contains(s: string, p: string) {
    exists i :: 0 <= i <= |s| - |p| && OccursAt(s, p, i)
  }

  predicate OccursAt(s: string, p: string, i: int)
    requires 0 <= i <= |s| - |p|
  {
    s[i..i + |p|] == p
  }

  /** Python's `s[:n]`: a negative `n` counts from the end. */
  function PrefixTo<T>(s: seq<T>, n: int): (r: seq<T>)
    ensures |r| <= |s| && r == s[..|r|]
    ensures n >= 0 ==> |r| == if n < |s| then n else |s|
    ensures n < 0 ==> |r| == if |s| + n < 0 then 0 else |s| + n
  {
    if n >= 0 then (if n < |s| then s[..n] else s)
    else if |s| + n < 0 then [] else s[..|s| + n]
  }

  lemma {:induction false} TrimStartOfSpace(s: string)
    requires AllSpace(s)
    ensures TrimStart(s) == [] && Strip(s) == []
  {
    if s != [] {
      TrimStartOfSpace(s[1..]);
    }
  }

  lemma {:induction false} TrimStartSkipsSpace(pre: string, t: string)
    requires AllSpace(pre)
    ensures TrimStart(pre + t) == TrimStart(t)
  {
    if pre != [] {
      assert (pre + t)[1..] == pre[1..] + t;
      TrimStartSkipsSpace(pre[1..], t);
    } else {
      assert pre + t == t;
    }
  }

  lemma {:induction false} TrimEndSkipsSpace(t: string, post: string)
    requires AllSpace(post)
    ensures TrimEnd(t + post) == TrimEnd(t)
  {
    if post != [] {
      var shorter := post[..|post| - 1];
      assert (t + post)[..|t + post| - 1] == t + shorter;
      TrimEndSkipsSpace(t, shorter);
    } else {
      assert t + post == t;
    }
  }

  /** Trailing whitespace survives `lstrip()` untouched unless nothing else is left. */
  lemma {:induction false} TrimStartAppend(s: string, post: string)
    requires AllSpace(post)
    ensures TrimStart(s) != [] ==> TrimStart(s + post) == TrimStart(s) + post
    ensures TrimStart(s) == [] ==> TrimStart(s + post) == []
  {
    if s == [] {
      assert s + post == post;
      TrimStartOfSpace(post);
    } else if !IsSpace(s[0]) {
    } else {
      assert (s + post)[1..] == s[1..] + post;
      TrimStartAppend(s[1..], post);
    }
  }

  /** `strip()` ignores whitespace added around a string. */
  lemma StripPadded(pre: string, s: string, post: string)
    requires AllSpace(pre) && AllSpace(post)
    ensures Strip(pre + s + post) == Strip(s)
  {
    assert pre + s + post == pre + (s + post);
    TrimStartSkipsSpace(pre, s + post);
    TrimStartAppend(s, post);
    if TrimStart(s) != [] {
      TrimEndSkipsSpace(TrimStart(s), post);
    }
  }

  /** Lowering a character never turns whitespace into something else or back. */
  lemma LowerCharSpace(c: char)
    ensures IsSpace(LowerChar(c)) == IsSpace(c)
  {
    if 'A' <= c <= 'Z' {
      assert 'a' <= LowerChar(c) <= 'z';
    }
  }

  /** Lowering a string changes no whitespace, so `strip()` and `lower()` commute. */
  lemma {:induction false} TrimStartLower(s: string)
    ensures TrimStart(Lower(s)) == Lower(TrimStart(s))
  {
    if s != [] {
      var l := Lower(s);
      LowerCharSpace(s[0]);
      assert l[0] == LowerChar(s[0]);
      if IsSpace(s[0]) {
        assert l[1..] == Lower(s[1..]);
        TrimStartLower(s[1..]);
      }
    }
  }

  lemma {:induction false} TrimEndLower(s: string)
    ensures TrimEnd(Lower(s)) == Lower(TrimEnd(s))
  {
    if s != [] {
      var l := Lower(s);
      LowerCharSpace(s[|s| - 1]);
      assert l[|s| - 1] == LowerChar(s[|s| - 1]);
      if IsSpace(s[|s| - 1]) {
        assert l[..|s| - 1] == Lower(s[..|s| - 1]);
        TrimEndLower(s[..|s| - 1]);
      }
    }
  }

  /** `s.strip().lower()` depends on `s` only through `s.lower()`. */
  lemma StripLower(s: string)
    ensures Lower(Strip(s)) == Strip(Lower(s))
  {
    TrimStartLower(s);
    TrimEndLower(TrimStart(s));
  }

  /** A word of lower-case ASCII letters is its own `strip().lower()`. */
  lemma NormalWord(s: string)
    requires forall i :: 0 <= i < |s| ==> 'a' <= s[i] <= 'z'
    ensures Lower(Strip(s)) == s
  {
    if s != [] {
      assert !IsSpace(s[0]) && !IsSpace(s[|s| - 1]);
    }
    assert TrimStart(s) == s;
    assert TrimEnd(s) == s;
  }

  function DigitChar(d: nat): (c: char)
    requires d < 10
    ensures '0' <= c <= '9'
  {
    ('0' as int + d) as char
  }

  /** Python's `str(n)` for a natural number: decimal digits, no leading zeros. */
  function NatToString(n: nat): (s: string)
    ensures |s| >= 1
    ensures forall i :: 0 <= i < |s| ==> '0' <= s[i] <= '9'
    ensures |s| > 1 ==> s[0] != '0'
  {
    if n < 10 then [DigitChar(n)] else NatToString(n / 10) + [DigitChar(n % 10)]
  }

  /** Different numbers print differently. */
  lemma {:induction false} NatToStringInjective(m: nat, n: nat)
    requires NatToString(m) == NatToString(n)
    ensures m == n
  {
    var a, b := NatToString(m), NatToString(n);
    if m < 10 && n < 10 {
      assert DigitChar(m) == a[0] == b[0] == DigitChar(n);
    } else if m >= 10 && n >= 10 {
      assert a[|a| - 1] == b[|b| - 1];
      assert DigitChar(m % 10) == DigitChar(n % 10);
      assert a[..|a| - 1] == NatToString(m / 10) && b[..|b| - 1] == NatToString(n / 10);
      NatToStringInjective(m / 10, n / 10);
    }
  }

  /** A lower-case letter appears in `s.lower()` only where it or its capital appears in `s`. */
  lemma NotInLower(s: string, c: char)
    requires 'a' <= c <= 'z'
    requires c !in s && (c as int - 32) as char !in s
    ensures c !in Lower(s)
  {
  }

  /** Stripping a stripped string changes nothing. */
  lemma StripStripped(s: string)
    requires s == [] || (!IsSpace(s[0]) && !IsSpace(s[|s| - 1]))
    ensures Strip(s) == s
  {
    assert TrimStart(s) == s;
  }

  /** Lower-casing twice is lower-casing once. */
  lemma LowerTwice(s: string)
    ensures Lower(Lower(s)) == Lower(s)
  {
  }

  /** `s.strip().lower()` is its own `strip().lower()`. */
  lemma NormalizedIsNormal(s: string)
    ensures Lower(Strip(Lower(Strip(s)))) == Lower(Strip(s))
  {
    var t := Lower(Strip(s));
    StripLower(Strip(s));
    StripStripped(Strip(s));
    assert Strip(t) == t;
    LowerTwice(Strip(s));
  }

  /** Every string contains itself. */
  lemma ContainsSelf(s: string)
    ensures Contains(s, s)
  {
    assert OccursAt(s, s, 0);
  }

  /** The middle of a concatenation occurs in it. */
  lemma ContainsMiddle(a: string, b: string, c: string)
    ensures Contains(a + b + c, b)
  {
    assert OccursAt(a + b + c, b, |a|);
  }

  /** Both halves of a concatenation occur in it. */
  lemma ContainsHalves(a: string, b: string)
    ensures Contains(a + b, a) && Contains(a + b, b)
  {
    assert (a + b)[..|a|] == a;
    assert OccursAt(a + b, a, 0);
    assert (a + b)[|a|..] == b;
    assert OccursAt(a + b, b, |a|);
  }

  /** A substring of a substring is a substring. */
  lemma ContainsTrans(s: string, t: string, p: string)
    requires Contains(s, t) && Contains(t, p)
    ensures Contains(s, p)
  {
    var i :| 0 <= i <= |s| - |t| && OccursAt(s, t, i);
    var j :| 0 <= j <= |t| - |p| && OccursAt(t, p, j);
    forall k | 0 <= k < |p|
      ensures s[i + j + k] == p[k]
    {
      assert s[i..i + |t|][j + k] == s[i + j + k];
      assert t[j..j + |p|][k] == t[j + k];
    }
    assert s[i + j..i + j + |p|] == p;
    assert OccursAt(s, p, i + j);
  }

  /** A string lacking a character of `p` does not contain `p`. */
  lemma MissingCharNotContained(s: string, p: string, c: char, k: int)
    requires c !in s && 0 <= k < |p| && p[k] == c
    ensures !Contains(s, p)
  {
    forall i | 0 <= i <= |s| - |p|
      ensures !OccursAt(s, p, i)
    {
      assert s[i..i + |p|][k] == s[i + k];
    }
  }

  /** `s.split(sep)[-1]` for a one-character separator: what follows the last
      `sep`, or all of `s` when there is none. */
  function AfterLast(s: string, sep: char): (r: string)
    ensures |r| <= |s| && r == s[|s| - |r|..]
    ensures sep !in r
    ensures |r| < |s| ==> s[|s| - |r| - 1] == sep
  {
    if s == [] || s[|s| - 1] == sep then [] else AfterLast(s[..|s| - 1], sep) + [s[|s| - 1]]
  }

  /** The last field of `a + sep + b` is `b` when `b` holds no separator. */
  lemma {:induction false} AfterLastField(a: string, sep: char, b: string)
    requires sep !in b
    ensures AfterLast(a + [sep] + b, sep) == b
  {
    if b != [] {
      var s := a + [sep] + b;
      assert s[..|s| - 1] == a + [sep] + b[..|b| - 1];
      AfterLastField(a, sep, b[..|b| - 1]);
    } else {
      assert (a + [sep] + b)[|a|] == sep;
    }
  }

  /** Where `c` first occurs in `s` at or after `from`. */
  function Find(s: string, c: char, from: nat): (r: Option<nat>)
    requires from <= |s|
    ensures r.Some? ==> from <= r.value < |s| && s[r.value] == c
    ensures r.Some? ==> forall k :: from <= k < r.value ==> s[k] != c
    ensures r.None? ==> forall k :: from <= k < |s| ==> s[k] != c
    decreases |s| - from
  {
    if from == |s| then None
    else if s[from] == c then Some(from)
    else Find(s, c, from + 1)
  }

  /** Where `c` last occurs in `s`. */
  function FindLast(s: string, c: char): (r: Option<nat>)
    ensures r.Some? ==> r.value < |s| && s[r.value] == c
    ensures r.Some? ==> forall k :: r.value < k < |s| ==> s[k] != c
    ensures r.None? ==> forall k :: 0 <= k < |s| ==> s[k] != c
  {
    if s == [] then None
    else if s[|s| - 1] == c then Some(|s| - 1)
    else FindLast(s[..|s| - 1], c)
  }

  /* ---------------- repr ---------------- */

  /** A hexadecimal digit as `repr` writes it, in lower case. */
  function HexDigit(d: nat): (c: char)
    requires d < 16
    ensures HexValue(c) == Some(d)
  {
    if d < 10 then ('0' as int + d) as char else ('a' as int + d - 10) as char
  }

  /** The value of a lower-case hexadecimal digit. */
  function HexValue(c: char): (v: Option<nat>)
    ensures v.Some? ==> v.value < 16
  {
    if '0' <= c <= '9' then Some(c as int - '0' as int)
    else if 'a' <= c <= 'f' then Some(c as int - 'a' as int + 10)
    else None
  }

  /** The characters up to U+00FF that `repr` writes as `\xhh`: the C0
      controls other than tab, newline and carriage return, DEL, the C1
      controls, the no-break space and the soft hyphen. */
  predicate HexEscaped(c: char) {
    (c < ' ' && c != '\t' && c != '\n' && c != '\r') || ('\U{7F}' <= c <= '\U{A0}') || c == '\U{AD}'
  }

  /** `repr` writes `c` otherwise than as itself inside `quote`s. */
  predicate Escaped(c: char, quote: char) {
    c == quote || c == '\\' || c == '\t' || c == '\n' || c == '\r' || HexEscaped(c)
  }

  /** How `repr` writes one character of a string it quotes with `quote`. */
  function EscapeChar(c: char, quote: char): (r: string)
    ensures Escaped(c, quote) <==> r != [c]
  {
    if c == quote || c == '\\' then ['\\', c]
    else if c == '\t' then "\\t"
    else if c == '\n' then "\\n"
    else if c == '\r' then "\\r"
    else if HexEscaped(c) then ['\\', 'x', HexDigit(c as int / 16), HexDigit(c as int % 16)]
    else [c]
  }

  /** The characters of `s`, each as `repr` writes it. */
  function Escape(s: string, quote: char): string {
    if s == [] then [] else EscapeChar(s[0], quote) + Escape(s[1..], quote)
  }

  /** The quote `repr` picks: a double quote when `s` holds a single quote and
      no double quote, a single quote otherwise. */
  function QuoteFor(s: string): (q: char)
    ensures q == '\'' || q == '"'
  {
    if '\'' in s && '"' !in s then '"' else '\''
  }

  /** Python's `repr` of a string. */
  function Repr(s: string): (r: string)
    ensures |r| >= 2 && r[0] == QuoteFor(s) && r[|r| - 1] == QuoteFor(s)
  {
    [QuoteFor(s)] + Escape(s, QuoteFor(s)) + [QuoteFor(s)]
  }

  /** Reads back the text between the quotes of a `repr`, undoing each escape. */
  function Unescape(t: string): string
    decreases |t|
  {
    if t == [] then []
    else if t[0] == '\\' && |t| >= 2 then
      if t[1] == 't' then ['\t'] + Unescape(t[2..])
      else if t[1] == 'n' then ['\n'] + Unescape(t[2..])
      else if t[1] == 'r' then ['\r'] + Unescape(t[2..])
      else if t[1] == 'x' && |t| >= 4 && HexValue(t[2]).Some? && HexValue(t[3]).Some? then
        [(HexValue(t[2]).value * 16 + HexValue(t[3]).value) as char] + Unescape(t[4..])
      else [t[1]] + Unescape(t[2..])
    else [t[0]] + Unescape(t[1..])
  }

  /** Reading back one written character gives that character. */
  lemma UnescapeChar(c: char, quote: char, rest: string)
    requires quote == '\'' || quote == '"'
    ensures Unescape(EscapeChar(c, quote) + rest) == [c] + Unescape(rest)
  {
    var t := EscapeChar(c, quote) + rest;
    if c == quote || c == '\\' {
      assert t[2..] == rest;
    } else if c == '\t' || c == '\n' || c == '\r' {
      assert t[2..] == rest;
    } else if HexEscaped(c) {
      var hi, lo := c as int / 16, c as int % 16;
      assert t[1] == 'x' && t[2] == HexDigit(hi) && t[3] == HexDigit(lo);
      assert t[4..] == rest;
      assert (hi * 16 + lo) as char == c;
    } else {
      assert t[0] == c && t[1..] == rest;
    }
  }

  /** `repr` loses nothing: its text reads back as the original. */
  lemma {:induction false} UnescapeEscape(s: string, quote: char)
    requires quote == '\'' || quote == '"'
    ensures Unescape(Escape(s, quote)) == s
  {
    if s != [] {
      UnescapeChar(s[0], quote, Escape(s[1..], quote));
      UnescapeEscape(s[1..], quote);
      assert [s[0]] + s[1..] == s;
    }
  }

  /** The text between the quotes of `repr(s)` reads back as `s`. */
  lemma ReprRoundTrip(s: string)
    ensures var r := Repr(s); Unescape(r[1..|r| - 1]) == s
  {
    var r := Repr(s);
    assert r[1..|r| - 1] == Escape(s, QuoteFor(s));
    UnescapeEscape(s, QuoteFor(s));
  }

  /** Characters `repr` does not escape are written as they are. */
  lemma {:induction false} EscapePlain(s: string, quote: char)
    requires forall i :: 0 <= i < |s| ==> !Escaped(s[i], quote)
    ensures Escape(s, quote) == s
  {
    if s != [] {
      assert !Escaped(s[0], quote);
      EscapePlain(s[1..], quote);
      assert [s[0]] + s[1..] == s;
    }
  }

  /** A string without single quotes, backslashes and control characters is
      written between single quotes as it is. */
  lemma ReprPlain(s: string)
    requires forall i :: 0 <= i < |s| ==> !Escaped(s[i], '\'')
    ensures Repr(s) == "'" + s + "'"
  {
    assert '\'' !in s by {
      forall i | 0 <= i < |s| ensures s[i] != '\'' {
        assert !Escaped(s[i], '\'');
      }
    }
    EscapePlain(s, '\'');
  }

  /** A newline is written as a backslash and `n`. */
  lemma ReprOfNewline()
    ensures Repr("a\nb") == "'a\\nb'"
  {
    assert '"' !in "a\nb" && '\'' !in "a\nb";
    assert Escape("a\nb", '\'') == "a\\nb" by {
      assert "a\nb"[1..] == "\nb" && "\nb"[1..] == "b" && "b"[1..] == [];
    }
  }

  /** A string holding single quotes only is put between double quotes. */
  lemma ReprOfApostrophe()
    ensures Repr("it's") == "\"it's\""
  {
    assert '\'' in "it's" && '"' !in "it's";
    assert Escape("it's", '"') == "it's" by {
      assert "it's"[1..] == "t's" && "t's"[1..] == "'s" && "'s"[1..] == "s" && "s"[1..] == [];
    }
  }
}
