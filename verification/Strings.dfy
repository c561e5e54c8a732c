/** What JavaScript's strings offer to more than one component. */
module Strings {
  /** String.split on one character. */
  function Split(s: string, at: char): (parts: seq<string>)
    ensures |parts| >= 1
  {
    if s == "" then [""]
    else
      var rest := Split(s[1..], at);
      if s[0] == at then [""] + rest else [[s[0]] + rest[0]] + rest[1..]
  }

  /** White space as regular expressions and trim see it. */
  predicate Space(c: char) {
    var n := c as int;
    0x9 <= n <= 0xd || n == 0x20 || n == 0xa0 || n == 0x1680 || 0x2000 <= n <= 0x200a
    || n in {0x2028, 0x2029, 0x202f, 0x205f, 0x3000, 0xfeff}
  }
}
