/**
 * The two Python string methods the check-in test applies to a message text:
 * `str.strip()` with no argument and `str.lower()`.
 */
module PyText {

  /** `c.isspace()`: the characters Python treats as whitespace. */
  predicate IsSpace(c: char)
  {
    || c == ' '
    || '\t' <= c <= '\r'
    || '\U{1C}' <= c <= '\U{1F}'
    || c == '\U{85}' || c == '\U{A0}' || c == '\U{1680}'
    || '\U{2000}' <= c <= '\U{200A}'
    || c == '\U{2028}' || c == '\U{2029}' || c == '\U{202F}' || c == '\U{205F}' || c == '\U{3000}'
  }

  predicate AllSpace(s: string)
  {
    forall k :: 0 <= k < |s| ==> IsSpace(s[k])
  }

  /** `s.lstrip()`. */
  function TrimLeft(s: string): string
  {
    if s != [] && IsSpace(s[0]) then TrimLeft(s[1..]) else s
  }

  /** `s.rstrip()`. */
  function TrimRight(s: string): string
  {
    if s != [] && IsSpace(s[|s| - 1]) then TrimRight(s[..|s| - 1]) else s
  }

  /** `s.strip()`. */
  function Strip(s: string): string
  {
    TrimRight(TrimLeft(s))
  }

  /** `lstrip` keeps a suffix, drops only whitespace, and leaves none at the front. */
  lemma {:induction false} TrimLeftSpec(s: string)
    ensures var r := TrimLeft(s);
      && |r| <= |s| && r == s[|s| - |r|..]
      && AllSpace(s[..|s| - |r|])
      && (r != [] ==> !IsSpace(r[0]))
  {
    if s != [] && IsSpace(s[0]) {
      TrimLeftSpec(s[1..]);
    }
  }

  /** `rstrip` keeps a prefix, drops only whitespace, and leaves none at the back. */
  lemma {:induction false} TrimRightSpec(s: string)
    ensures var r := TrimRight(s);
      && |r| <= |s| && r == s[..|r|]
      && AllSpace(s[|r|..])
      && (r != [] ==> !IsSpace(r[|r| - 1]))
  {
    if s != [] && IsSpace(s[|s| - 1]) {
      TrimRightSpec(s[..|s| - 1]);
      assert s[|TrimRight(s)|..] == s[..|s| - 1][|TrimRight(s)|..] + [s[|s| - 1]];
    }
  }

  /**
   * `strip` gives the slice s[i..i+|r|] whose surroundings are all whitespace
   * and whose own ends are not.
   */
  lemma StripSpec(s: string) returns (i: nat)
    ensures var r := Strip(s);
      && i + |r| <= |s| && r == s[i..i + |r|]
      && AllSpace(s[..i]) && AllSpace(s[i + |r|..])
      && (r != [] ==> !IsSpace(r[0]) && !IsSpace(r[|r| - 1]))
  {
    var l := TrimLeft(s);
    TrimLeftSpec(s);
    TrimRightSpec(l);
    var r := TrimRight(l);
    i := |s| - |l|;
    assert r == s[i..i + |r|];
    assert s[i + |r|..] == l[|r|..];
  }

  /** Cutting whitespace off both sides of a word with non-space ends gives back that word. */
  lemma {:induction false} StripPadded(lead: string, w: string, trail: string)
    requires AllSpace(lead) && AllSpace(trail)
    requires w != [] ==> !IsSpace(w[0]) && !IsSpace(w[|w| - 1])
    ensures Strip(lead + w + trail) == w
  {
    var s := lead + w + trail;
    if w == [] {
      assert s == (lead + trail) + [];
      TrimLeftPadded(lead + trail, []);
    } else {
      assert s == lead + (w + trail);
      TrimLeftPadded(lead, w + trail);
      TrimRightPadded(w, trail);
    }
  }

  lemma {:induction false} TrimLeftPadded(lead: string, rest: string)
    requires AllSpace(lead)
    requires rest != [] ==> !IsSpace(rest[0])
    ensures TrimLeft(lead + rest) == rest
  {
    if lead != [] {
      assert (lead + rest)[1..] == lead[1..] + rest;
      TrimLeftPadded(lead[1..], rest);
    } else {
      assert lead + rest == rest;
    }
  }

  lemma {:induction false} TrimRightPadded(w: string, trail: string)
    requires AllSpace(trail)
    requires w != [] ==> !IsSpace(w[|w| - 1])
    ensures TrimRight(w + trail) == w
  {
    if trail != [] {
      assert (w + trail)[..|w + trail| - 1] == w + trail[..|trail| - 1];
      TrimRightPadded(w, trail[..|trail| - 1]);
    } else {
      assert w + trail == w;
    }
  }

  /**
   * `c.lower()` for the characters whose lower case is an ASCII letter: A-Z and
   * the Kelvin sign U+212A, which Python lowers to 'k'. Every other character is
   * kept as it is, U+0130 included, whose Python lower case 'i' + U+0307 is two
   * characters long.
   */
  function LowerChar(c: char): char
  {
    if 'A' <= c <= 'Z' then (c as int + 32) as char
    else if c == '\U{212A}' then 'k'
    else c
  }

  /**
   * `s.lower()` as far as comparing the result with an ASCII word goes. It maps
   * character by character and so keeps the length, which Python's `lower()`
   * does not for U+0130, lowered there to 'i' followed by U+0307.
   */
  function Lower(s: string): string
  {
    seq(|s|, k requires 0 <= k < |s| => LowerChar(s[k]))
  }
}
