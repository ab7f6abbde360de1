/** The few Python string builtins the integration relies on: `str.strip()`,
    `str.lower()`, `str.format` with one positional field, and the decimal
    rendering of an integer inside an f-string. */
module Text {

  /** Python's `str.isspace()` for one character: the code points that
      `str.strip()` with no argument removes. */
  predicate IsSpace(c: char)
  {
    var n := c as int;
    n == 0x20 || 0x09 <= n <= 0x0d || 0x1c <= n <= 0x1f || n == 0x85 || n == 0xa0 ||
    n == 0x1680 || 0x2000 <= n <= 0x200a || n == 0x2028 || n == 0x2029 ||
    n == 0x202f || n == 0x205f || n == 0x3000
  }

  /** Blank, tab, newline and carriage return are white space; letters,
      digits, braces and the minus sign are not. */
  lemma SpaceCharacters(c: char)
    ensures c == ' ' || c == '\t' || c == '\n' || c == '\r' ==> IsSpace(c)
    ensures 'a' <= c <= 'z' || 'A' <= c <= 'Z' || '0' <= c <= '9' || c == '{' || c == '-' ==> !IsSpace(c)
  {
  }

  predicate AllSpace(s: string)
  {
    forall i :: 0 <= i < |s| ==> IsSpace(s[i])
  }

  predicate StartsWith(s: string, head: string)
  {
    |head| <= |s| && s[..|head|] == head
  }

  predicate EndsWith(s: string, tail: string)
  {
    |tail| <= |s| && s[|s| - |tail|..] == tail
  }

  /** A concatenation starts with its first part and ends with its last. */
  lemma ConcatEnds(head: string, tail: string)
    ensures StartsWith(head + tail, head) && EndsWith(head + tail, tail)
  {
  }

  /** The same for three parts. */
  lemma ConcatEnds3(head: string, mid: string, tail: string)
    ensures StartsWith(head + mid + tail, head) && EndsWith(head + mid + tail, tail)
  {
    assert head + mid + tail == head + (mid + tail);
  }

  /** `s.lstrip()`: the suffix of `s` left after its leading white space. */
  function StripLeading(s: string): (r: string)
    ensures |r| <= |s| && r == s[|s| - |r|..]
    ensures forall k :: 0 <= k < |s| - |r| ==> IsSpace(s[k])
    ensures r == [] || !IsSpace(r[0])
  {
    if s != [] && IsSpace(s[0]) then StripLeading(s[1..]) else s
  }

  /** `s.rstrip()`: the prefix of `s` left before its trailing white space. */
  function StripTrailing(s: string): (r: string)
    ensures |r| <= |s| && r == s[..|r|]
    ensures forall k :: |r| <= k < |s| ==> IsSpace(s[k])
    ensures r == [] || !IsSpace(r[|r| - 1])
  {
    if s != [] && IsSpace(s[|s| - 1]) then StripTrailing(s[..|s| - 1]) else s
  }

  /** Where `s.strip()` starts: the length of the leading white space. */
  function StripStart(s: string): (i: nat)
    ensures i <= |s|
  {
    |s| - |StripLeading(s)|
  }

  /** `s.strip()`: a slice of `s` that neither starts nor ends with white
      space and outside of which `s` holds only white space. */
  function Strip(s: string): (r: string)
    ensures StripStart(s) + |r| <= |s| && r == s[StripStart(s)..StripStart(s) + |r|]
    ensures forall k :: 0 <= k < StripStart(s) ==> IsSpace(s[k])
    ensures forall k :: StripStart(s) + |r| <= k < |s| ==> IsSpace(s[k])
    ensures r == [] || (!IsSpace(r[0]) && !IsSpace(r[|r| - 1]))
  {
    var t := StripLeading(s);
    var r := StripTrailing(t);
    StripSlice(s, t, r);
    r
  }

  /** The bookkeeping behind `Strip`'s contract: an `rstrip` slice of an
      `lstrip` suffix is a slice of the original string. */
  lemma StripSlice(s: string, t: string, r: string)
    requires |t| <= |s| && t == s[|s| - |t|..]
    requires forall k :: 0 <= k < |s| - |t| ==> IsSpace(s[k])
    requires |r| <= |t| && r == t[..|r|]
    requires forall k :: |r| <= k < |t| ==> IsSpace(t[k])
    requires t == [] || !IsSpace(t[0])
    requires r == [] || !IsSpace(r[|r| - 1])
    ensures var i := |s| - |t|;
      i + |r| <= |s| && r == s[i..i + |r|] &&
      (forall k :: 0 <= k < i ==> IsSpace(s[k])) &&
      (forall k :: i + |r| <= k < |s| ==> IsSpace(s[k]))
    ensures r == [] || (!IsSpace(r[0]) && !IsSpace(r[|r| - 1]))
  {
    var i := |s| - |t|;
    assert forall k :: i + |r| <= k < |s| ==> s[k] == t[k - i];
  }

  /** Leading white space followed by a string that does not start with
      white space is removed by `lstrip`, and nothing more. */
  lemma {:induction false} StripLeadingPadded(pre: string, rest: string)
    requires AllSpace(pre)
    requires rest == [] || !IsSpace(rest[0])
    ensures StripLeading(pre + rest) == rest
  {
    if pre != [] {
      assert (pre + rest)[1..] == pre[1..] + rest;
      StripLeadingPadded(pre[1..], rest);
    } else {
      assert pre + rest == rest;
    }
  }

  /** Trailing white space after a string that does not end with white space
      is removed by `rstrip`, and nothing more. */
  lemma {:induction false} StripTrailingPadded(rest: string, post: string)
    requires AllSpace(post)
    requires rest == [] || !IsSpace(rest[|rest| - 1])
    ensures StripTrailing(rest + post) == rest
  {
    if post != [] {
      assert (rest + post)[..|rest + post| - 1] == rest + post[..|post| - 1];
      StripTrailingPadded(rest, post[..|post| - 1]);
    } else {
      assert rest + post == rest;
    }
  }

  /** Stripping is determined by its contract: padding a string that neither
      starts nor ends with white space gives that string back. */
  lemma StripPadded(pre: string, core: string, post: string)
    requires AllSpace(pre) && AllSpace(post)
    requires core == [] || (!IsSpace(core[0]) && !IsSpace(core[|core| - 1]))
    ensures Strip(pre + core + post) == core
  {
    assert pre + core + post == pre + (core + post);
    if core == [] {
      assert core + post == post;
      assert AllSpace(pre + post);
      StripLeadingPadded(pre + post, []);
      assert pre + post + [] == pre + post;
    } else {
      StripLeadingPadded(pre, core + post);
      StripTrailingPadded(core, post);
    }
  }

  /** Stripping twice is stripping once. */
  lemma StripIdempotent(s: string)
    ensures Strip(Strip(s)) == Strip(s)
  {
    StripPadded([], Strip(s), []);
    assert [] + Strip(s) + [] == Strip(s);
  }

  /** Only a string made of white space strips to the empty string. */
  lemma StripEmptyIffBlank(s: string)
    ensures Strip(s) == [] <==> AllSpace(s)
  {
    if AllSpace(s) {
      assert s + [] + [] == s;
      StripPadded(s, [], []);
    }
  }

  /** `str.lower()` on one character, for the ASCII letters. */
  function LowerChar(c: char): (d: char)
    ensures 'A' <= c <= 'Z' ==> d as int == c as int + 32
    ensures !('A' <= c <= 'Z') ==> d == c
  {
    if 'A' <= c <= 'Z' then (c as int + 32) as char else c
  }

  /** `s.lower()`, with ASCII case mapping. */
  function Lower(s: string): (r: string)
    ensures |r| == |s| && forall i :: 0 <= i < |s| ==> r[i] == LowerChar(s[i])
  {
    seq(|s|, i requires 0 <= i < |s| => LowerChar(s[i]))
  }

  /** The strings whose lower-case form is "none" are exactly the sixteen
      case variants of "none". */
  lemma LowerIsNone(s: string)
    ensures Lower(s) == "none" <==>
      |s| == 4 && s[0] in "nN" && s[1] in "oO" && s[2] in "nN" && s[3] in "eE"
  {
    if |s| == 4 && s[0] in "nN" && s[1] in "oO" && s[2] in "nN" && s[3] in "eE" {
      assert Lower(s) == [Lower(s)[0], Lower(s)[1], Lower(s)[2], Lower(s)[3]];
    }
    if Lower(s) == "none" {
      assert Lower(s)[0] == 'n' && Lower(s)[1] == 'o' && Lower(s)[2] == 'n' && Lower(s)[3] == 'e';
    }
  }

  /** `template.format(arg)` for a template whose only replacement field is
      `{}`: the first `{}` is replaced by `arg`. A template without one is
      returned as it is. */
  function Format(template: string, arg: string): (r: string)
  {
    if |template| >= 2 && template[0] == '{' && template[1] == '}' then arg + template[2..]
    else if template == [] then []
    else [template[0]] + Format(template[1..], arg)
  }

  /** A template without a brace has no placeholder: formatting leaves it
      as it is. */
  lemma {:induction false} FormatBraceFree(template: string, arg: string)
    requires '{' !in template
    ensures Format(template, arg) == template
  {
    if template != [] {
      assert '{' !in template[1..] by {
        forall i | 0 <= i < |template[1..]| ensures template[1..][i] != '{' {
          assert template[1..][i] == template[i + 1];
        }
      }
      FormatBraceFree(template[1..], arg);
    }
  }

  /** A template `prefix + "{}" + suffix` whose prefix holds no brace is
      formatted by putting the argument in place of the braces. */
  lemma {:induction false} FormatAt(prefix: string, suffix: string, arg: string)
    requires forall i :: 0 <= i < |prefix| ==> prefix[i] != '{'
    ensures Format(prefix + "{}" + suffix, arg) == prefix + arg + suffix
  {
    if prefix == [] {
      assert prefix + "{}" + suffix == "{}" + suffix;
    } else {
      FormatAt(prefix[1..], suffix, arg);
      assert (prefix + "{}" + suffix)[1..] == prefix[1..] + "{}" + suffix;
    }
  }

  /** `str(d)` for a single decimal digit. */
  function DigitChar(d: int): (c: char)
    requires 0 <= d < 10
    ensures '0' <= c <= '9' && c as int - '0' as int == d
  {
    (d + '0' as int) as char
  }

  /** `str(n)` for a natural number: its decimal digits, most significant
      first, with no leading zero. */
  function NatString(n: nat): (r: string)
    ensures r != [] && forall i :: 0 <= i < |r| ==> '0' <= r[i] <= '9'
    ensures |r| > 1 ==> r[0] != '0'
  {
    if n < 10 then [DigitChar(n)] else NatString(n / 10) + [DigitChar(n % 10)]
  }

  /** `str(n)` for any integer, as an f-string renders it. */
  function IntString(n: int): (r: string)
    ensures r != [] && (r[0] == '-' <==> n < 0)
    ensures forall i :: 0 < i < |r| ==> '0' <= r[i] <= '9'
    ensures n >= 0 ==> '0' <= r[0] <= '9'
  {
    if n < 0 then "-" + NatString(-n) else NatString(n)
  }

  /** The value of a string of decimal digits. */
  function DigitsValue(s: string): nat
    requires forall i :: 0 <= i < |s| ==> '0' <= s[i] <= '9'
  {
    if s == [] then 0
    else 10 * DigitsValue(s[..|s| - 1]) + (s[|s| - 1] as int - '0' as int)
  }

  /** Reading the digits back gives the number: the rendering loses nothing. */
  lemma {:induction false} NatStringRoundTrip(n: nat)
    ensures DigitsValue(NatString(n)) == n
  {
    if n >= 10 {
      NatStringRoundTrip(n / 10);
      var s := NatString(n);
      assert s[..|s| - 1] == NatString(n / 10);
    }
  }

  /** Equal strings that share a prefix and a suffix agree in between. */
  lemma CancelAround(head: string, x: string, y: string, mid: string, tail: string)
    requires head + x + mid + tail == head + y + mid + tail
    ensures x == y
  {
    var s := head + x + mid + tail;
    assert |x| == |y|;
    assert x == s[|head|..|head| + |x|];
    assert y == (head + y + mid + tail)[|head|..|head| + |y|];
  }

  /** Different natural numbers render differently. */
  lemma NatStringInjective(m: nat, n: nat)
    requires NatString(m) == NatString(n)
    ensures m == n
  {
    NatStringRoundTrip(m);
    NatStringRoundTrip(n);
  }

  /** Different integers render differently. */
  lemma IntStringInjective(m: int, n: int)
    requires IntString(m) == IntString(n)
    ensures m == n
  {
    if m < 0 && n < 0 {
      assert NatString(-m) == IntString(m)[1..];
      assert NatString(-n) == IntString(n)[1..];
      NatStringInjective(-m, -n);
    } else if m >= 0 && n >= 0 {
      NatStringInjective(m, n);
    } else {
      assert false;
    }
  }
}
