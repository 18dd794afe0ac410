/**
 * The few pieces of the Kotlin standard library that the provisioning code
 * relies on: `Char.isWhitespace`, `String.trim`, `startsWith` and `contains`.
 */
module KotlinText {
  import opened Wrappers

  /**
   * `Char.isWhitespace()` on the JVM: `Character.isWhitespace(c) ||
   * Character.isSpaceChar(c)`, i.e. the ASCII controls TAB, LF, VT, FF, CR,
   * the four information separators U+001C..U+001F, and every character of
   * the Unicode categories Zs, Zl and Zp.
   */
  predicate IsWhitespace(c: char) {
    c == '\t' || c == '\n' || c == '\U{B}' || c == '\U{C}' || c == '\r'
    || ('\U{1C}' <= c <= '\U{1F}')
    || c == ' ' || c == '\U{A0}' || c == '\U{1680}'
    || ('\U{2000}' <= c <= '\U{200A}')
    || c == '\U{2028}' || c == '\U{2029}' || c == '\U{202F}' || c == '\U{205F}' || c == '\U{3000}'
  }

  predicate AllWhitespace(s: string) {
    forall i :: 0 <= i < |s| ==> IsWhitespace(s[i])
  }

  /** Neither the first nor the last character is whitespace. */
  predicate Trimmed(s: string) {
    |s| == 0 || (!IsWhitespace(s[0]) && !IsWhitespace(s[|s| - 1]))
  }

  /** Drops the leading whitespace. */
  function TrimStart(s: string): string {
    if |s| > 0 && IsWhitespace(s[0]) then TrimStart(s[1..]) else s
  }

  /** Drops the trailing whitespace. */
  function TrimEnd(s: string): string {
    if |s| > 0 && IsWhitespace(s[|s| - 1]) then TrimEnd(s[..|s| - 1]) else s
  }

  /** `String.trim()`: whitespace removed from both ends. */
  function Trim(s: string): string {
    TrimEnd(TrimStart(s))
  }

  /** TrimStart leaves a suffix that starts with a non-blank, and drops only whitespace. */
  lemma {:induction false} TrimStartSuffix(s: string)
    ensures |TrimStart(s)| <= |s| && TrimStart(s) == s[|s| - |TrimStart(s)|..]
    ensures AllWhitespace(s[..|s| - |TrimStart(s)|])
    ensures |TrimStart(s)| > 0 ==> !IsWhitespace(TrimStart(s)[0])
  {
    if |s| > 0 && IsWhitespace(s[0]) {
      TrimStartSuffix(s[1..]);
      assert s[..|s| - |TrimStart(s)|] == [s[0]] + s[1..][..|s| - 1 - |TrimStart(s)|];
    }
  }

  /** TrimEnd leaves a prefix that ends with a non-blank, and drops only whitespace. */
  lemma {:induction false} TrimEndPrefix(s: string)
    ensures |TrimEnd(s)| <= |s| && TrimEnd(s) == s[..|TrimEnd(s)|]
    ensures AllWhitespace(s[|TrimEnd(s)|..])
    ensures |TrimEnd(s)| > 0 ==> !IsWhitespace(TrimEnd(s)[|TrimEnd(s)| - 1])
  {
    if |s| > 0 && IsWhitespace(s[|s| - 1]) {
      var t := s[..|s| - 1];
      TrimEndPrefix(t);
      assert s[|TrimEnd(s)|..] == t[|TrimEnd(s)|..] + [s[|s| - 1]];
    }
  }

  /** The trimmed text has no whitespace at either end. */
  lemma TrimTrimmed(s: string)
    ensures Trimmed(Trim(s)) && |Trim(s)| <= |s|
  {
    TrimStartSuffix(s);
    TrimEndPrefix(TrimStart(s));
  }

  /** Trim removes exactly a whitespace prefix and a whitespace suffix. */
  lemma TrimIsInfix(s: string) returns (i: nat)
    ensures i + |Trim(s)| <= |s|
    ensures s[i..i + |Trim(s)|] == Trim(s)
    ensures AllWhitespace(s[..i]) && AllWhitespace(s[i + |Trim(s)|..])
  {
    TrimStartSuffix(s);
    TrimEndPrefix(TrimStart(s));
    var t := TrimStart(s);
    var r := TrimEnd(t);
    i := |s| - |t|;
    assert s[i..i + |r|] == t[..|r|];
    assert s[i + |r|..] == t[|r|..];
  }

  lemma {:induction false} TrimStartDropsWhitespace(a: string, t: string)
    requires AllWhitespace(a)
    requires |t| == 0 || !IsWhitespace(t[0])
    ensures TrimStart(a + t) == t
  {
    if |a| > 0 {
      assert (a + t)[1..] == a[1..] + t;
      TrimStartDropsWhitespace(a[1..], t);
    } else {
      assert a + t == t;
    }
  }

  lemma {:induction false} TrimEndDropsWhitespace(t: string, b: string)
    requires AllWhitespace(b)
    requires |t| == 0 || !IsWhitespace(t[|t| - 1])
    ensures TrimEnd(t + b) == t
  {
    if |b| > 0 {
      assert (t + b)[..|t + b| - 1] == t + b[..|b| - 1];
      TrimEndDropsWhitespace(t, b[..|b| - 1]);
    } else {
      assert t + b == t;
    }
  }

  /**
   * The converse of TrimIsInfix: surrounding a trimmed text with any
   * whitespace and trimming gives the text back.
   */
  lemma TrimSurrounded(a: string, t: string, b: string)
    requires AllWhitespace(a) && AllWhitespace(b) && Trimmed(t)
    ensures Trim(a + t + b) == t
  {
    if |t| == 0 {
      assert a + t + b == a + b;
      assert AllWhitespace(a + b);
      TrimStartDropsWhitespace(a + b, "");
      assert (a + b) + "" == a + b;
    } else {
      assert a + t + b == a + (t + b);
      TrimStartDropsWhitespace(a, t + b);
      TrimEndDropsWhitespace(t, b);
    }
  }

  /** A trimmed text is its own trim; in particular Trim is idempotent. */
  lemma TrimOfTrimmed(s: string)
    requires Trimmed(s)
    ensures Trim(s) == s
  {
    TrimSurrounded("", s, "");
    assert "" + s + "" == s;
  }

  lemma TrimIdempotent(s: string)
    ensures Trim(Trim(s)) == Trim(s)
  {
    TrimTrimmed(s);
    TrimOfTrimmed(Trim(s));
  }

  /** `String.startsWith(prefix)`. */
  predicate StartsWith(s: string, prefix: string) {
    prefix <= s
  }

  /** The index of the first occurrence of `c` in `s`, if any. */
  function IndexOf(s: string, c: char): (r: Option<nat>)
    ensures r.None? <==> c !in s
    ensures r.Some? ==> r.value < |s| && s[r.value] == c && c !in s[..r.value]
  {
    if |s| == 0 then None
    else if s[0] == c then Some(0)
    else
      match IndexOf(s[1..], c)
      case None => None
      case Some(k) => assert s[..k + 1] == [s[0]] + s[1..][..k]; Some(k + 1)
  }
}
