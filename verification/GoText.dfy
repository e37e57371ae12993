/** The parts of Go's `strings` and `unicode` packages the program uses, on sequences of code points. */
module GoText {
  predicate IsSpace(c: char) {
    || c in {' ', '\t', '\n', '\r', '\U{000B}', '\U{000C}', '\U{0085}', '\U{00A0}', '\U{1680}'}
    || '\U{2000}' <= c <= '\U{200A}'
    || c in {'\U{2028}', '\U{2029}', '\U{202F}', '\U{205F}', '\U{3000}'}
  }

  function TrimLeft(s: string): string {
    if s != [] && IsSpace(s[0]) then TrimLeft(s[1..]) else s
  }

  function TrimRight(s: string): string {
    if s != [] && IsSpace(s[|s| - 1]) then TrimRight(s[..|s| - 1]) else s
  }

  function TrimSpace(s: string): string {
    TrimRight(TrimLeft(s))
  }

  predicate Blank(s: string) {
    TrimSpace(s) == ""
  }

  // Length of the UTF-8 encoding of one code point.
  function Utf8Width(c: char): nat {
    if c <= '\U{007F}' then 1 else if c <= '\U{07FF}' then 2 else if c <= '\U{FFFF}' then 3 else 4
  }

  function ByteLength(s: string): nat {
    if s == [] then 0 else Utf8Width(s[0]) + ByteLength(s[1..])
  }
}
