/** Membership of one byte in a character set given as inclusive (lo, hi) pairs. */
module Charset {
  import opened Bytecode

  /** `ch` lies in one of the inclusive ranges `cs[2k] ..= cs[2k+1]`. */
  predicate InCharset(ch: Char, cs: seq<Char>)
    requires |cs| % 2 == 0
  {
    exists i :: 0 <= i < |cs| && i % 2 == 0 && cs[i] <= ch && ch <= cs[i + 1]
  }

  /** `rxMatchCharset`: scans the pairs of `chars[from .. from + len)` two at a time and
      stops at the first range holding `ch`. */
  method MatchCharset(ch: Char, chars: seq<Char>, from: nat, len: nat) returns (found: bool)
    requires from + len <= |chars| && len % 2 == 0
    ensures found <==> InCharset(ch, chars[from .. from + len])
  {
    ghost var cs := chars[from .. from + len];
    var cc := from;
    while cc != from + len
      invariant from <= cc <= from + len && (cc - from) % 2 == 0
      invariant forall i :: 0 <= i < cc - from && i % 2 == 0 ==> !(cs[i] <= ch && ch <= cs[i + 1])
      decreases from + len - cc
    {
      if chars[cc] <= ch && ch <= chars[cc + 1] {
        assert cs[cc - from] == chars[cc] && cs[cc - from + 1] == chars[cc + 1];
        return true;
      }
      cc := cc + 2;
    }
    return false;
  }
}
