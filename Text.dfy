/** Small readers over strings: the pieces needed to take a prompt built from
    a template apart again. */
module Text {
  import opened Wrappers

  /** The longest prefix of `s` that does not contain `c`. */
  function UpTo(s: string, c: char): (r: string)
    ensures r <= s && c !in r
    ensures |r| < |s| ==> s[|r|] == c
  {
    if s == [] || s[0] == c then [] else [s[0]] + UpTo(s[1..], c)
  }

  /** `s` with `pre` removed from its front, or None when `s` does not start with `pre`. */
  function StripPrefix(s: string, pre: string): (r: Option<string>)
    ensures r.Some? <==> pre <= s
    ensures r.Some? ==> s == pre + r.value
  {
    if pre <= s then Some(s[|pre|..]) else None
  }

  /** Reading up to a delimiter recovers a text that does not contain it. */
  lemma {:induction false} UpToConcat(a: string, b: string, c: char)
    requires c !in a
    requires b == [] || b[0] == c
    ensures UpTo(a + b, c) == a
  {
    if a != [] {
      assert (a + b)[0] == a[0];
      assert (a + b)[1..] == a[1..] + b;
      UpToConcat(a[1..], b, c);
    } else {
      assert a + b == b;
    }
  }

  lemma StripPrefixConcat(pre: string, rest: string)
    ensures StripPrefix(pre + rest, pre) == Some(rest)
  {
    assert (pre + rest)[|pre|..] == rest;
  }
}
