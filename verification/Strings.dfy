/** Strings as JavaScript's library sees them: blank ones, the last index of a character, and the
    length of the UTF-8 encoding. */
module Strings {

  predicate IsSpace(c: char) {
    var code := c as int;
    || 9 <= code <= 13 || code == 0x20 || code == 0xA0 || code == 0x1680 || 0x2000 <= code <= 0x200A
    || code == 0x2028 || code == 0x2029 || code == 0x202F || code == 0x205F || code == 0x3000 || code == 0xFEFF
  }

  predicate IsBlank(s: string) {
    forall i :: 0 <= i < |s| ==> IsSpace(s[i])
  }

  function LastIndexOf(s: string, c: char): int {
    if s == [] then -1 else if s[|s|-1] == c then |s| - 1 else LastIndexOf(s[..|s|-1], c)
  }

  lemma {:induction false} LastIndexIs(s: string, c: char, i: int)
    requires 0 <= i < |s| && s[i] == c && forall k :: i < k < |s| ==> s[k] != c
    ensures LastIndexOf(s, c) == i
    decreases |s|
  {
    if i < |s| - 1 { LastIndexIs(s[..|s|-1], c, i); }
  }

  function Utf8Size(c: char): nat {
    var code := c as int;
    if code < 0x80 then 1 else if code < 0x800 then 2 else if code < 0x1_0000 then 3 else 4
  }

  function Utf8Length(s: string): nat {
    if s == [] then 0 else Utf8Size(s[0]) + Utf8Length(s[1..])
  }
}
