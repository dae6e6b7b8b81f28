/**
 Byte strings as the C code sees them.

 A byte is a `char` with code below 256 and a text is a `string`.  A C string in memory is such a
 text followed by the terminating NUL, so reading at the end of the text yields '\0'.
 */
module CText {

  datatype Option<+T> = None | Some(value: T)

  const NUL: char := '\0'
  const BACKSPACE: char := 8 as char
  const FORMFEED: char := 12 as char

  /** `*(s + i)` for a text of which `s[i..]` is left. */
  function At(s: string, i: nat): char {
    if i < |s| then s[i] else NUL
  }

  predicate IsDigit(c: char) {
    '0' <= c <= '9'
  }

  predicate IsHexDigit(c: char) {
    '0' <= c <= '9' || 'a' <= c <= 'f' || 'A' <= c <= 'F'
  }

  function HexValue(c: char): (v: nat)
    requires IsHexDigit(c)
    ensures v < 16
  {
    if c <= '9' then c as int - '0' as int
    else if c <= 'F' then c as int - 'A' as int + 10
    else c as int - 'a' as int + 10
  }

  /** `%x` of one hexadecimal digit. */
  function HexDigit(v: nat): (c: char)
    requires v < 16
    ensures IsHexDigit(c) && HexValue(c) == v
  {
    if v < 10 then (v + '0' as int) as char else (v - 10 + 'a' as int) as char
  }

  predicate StartsWith(s: string, p: string) {
    |p| <= |s| && s[..|p|] == p
  }

  /** The text is usable as a C string: nothing in it ends it early. */
  predicate NulFree(s: string) {
    NUL !in s
  }

  /** Buffer `a` holds the C string `s`: the text, with no NUL inside it, and then its terminator. */
  ghost predicate Holds(a: array<char>, s: string)
    reads a
  {
    && |s| < a.Length
    && (forall i :: 0 <= i < |s| ==> a[i] == s[i])
    && a[|s|] == NUL
    && NulFree(s)
  }

  /** strlen: the terminator is the first NUL. */
  method StrLen(a: array<char>, ghost s: string) returns (n: nat)
    requires Holds(a, s)
    ensures n == |s|
  {
    n := 0;
    while a[n] != NUL
      invariant n <= |s|
      decreases |s| - n
    {
      n := n + 1;
    }
  }

  /** strcpy( out + at, a ): the text and its terminator, and nothing else, is written. */
  method StrCpy(out: array<char>, at: nat, a: array<char>, ghost s: string)
    requires Holds(a, s) && a != out
    requires at + |s| < out.Length
    modifies out
    ensures out[..at + |s|] == old(out[..at]) + s && out[at + |s|] == NUL
  {
    var n := 0;
    while a[n] != NUL
      invariant n <= |s| && Holds(a, s)
      invariant out[..at + n] == old(out[..at]) + s[..n]
      decreases |s| - n
    {
      out[at + n] := a[n];
      n := n + 1;
    }
    out[at + n] := NUL;
  }
}
