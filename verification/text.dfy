/**
 Prefix handling on strings. Every string the worker writes is a fixed
 prefix followed by a payload; stripping the prefix is the inverse that
 lets a reader of a result key or value recover what was written.
 */
module Text {
  import opened Results

  predicate IsPrefix(p: string, s: string) {
    |p| <= |s| && s[..|p|] == p
  }

  /** The rest of `s` after `p`, when `s` starts with `p`. */
  function StripPrefix(p: string, s: string): (rest: Option<string>)
    ensures rest.Some? <==> IsPrefix(p, s)
    ensures rest.Some? ==> p + rest.value == s
  {
    if IsPrefix(p, s) then Some(s[|p|..]) else None
  }

  lemma StripPrefixOfConcat(p: string, s: string)
    ensures IsPrefix(p, p + s)
    ensures StripPrefix(p, p + s) == Some(s)
  {
    assert (p + s)[..|p|] == p;
    assert (p + s)[|p|..] == s;
  }

  /** Two strings that start with different characters cannot both begin
      with the same prefix text: used to keep the tags apart. */
  lemma DistinctHeads(p: string, q: string, s: string)
    requires |p| > 0 && |q| > 0 && p[0] != q[0]
    requires IsPrefix(q, s)
    ensures !IsPrefix(p, s)
  {
    assert s[0] == s[..|q|][0] == q[0];
  }
}
