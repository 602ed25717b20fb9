/** String operations of the source's standard library that the model needs. */
module Text {
  /** The Unicode White_Space property, which `trim` and `split_whitespace` use. */
  predicate IsWhitespace(c: char) {
    var n := c as int;
    || 0x9 <= n <= 0xD || n == 0x20 || n == 0x85 || n == 0xA0 || n == 0x1680 || 0x2000 <= n <= 0x200A
    || n == 0x2028 || n == 0x2029 || n == 0x202F || n == 0x205F || n == 0x3000
  }

  /** `s.trim().is_empty()` */
  predicate IsBlank(s: string) {
    forall c <- s :: IsWhitespace(c)
  }

  function TrimStart(s: string): (t: string)
    ensures |t| <= |s| && (t != "" ==> !IsWhitespace(t[0]))
  {
    if s != "" && IsWhitespace(s[0]) then TrimStart(s[1..]) else s
  }

  function TrimEnd(s: string): (t: string)
    ensures |t| <= |s|
  {
    if s != "" && IsWhitespace(s[|s| - 1]) then TrimEnd(s[..|s| - 1]) else s
  }

  function Trim(s: string): string { TrimEnd(TrimStart(s)) }

  function WordLength(s: string): (n: nat)
    ensures n <= |s| && (s != "" && !IsWhitespace(s[0]) ==> n > 0)
  {
    if s == "" || IsWhitespace(s[0]) then 0 else 1 + WordLength(s[1..])
  }

  /** The words of `s`, one space apart. */
  function CollapseWhitespace(s: string): string
    decreases |s|
  {
    var t := TrimStart(s);
    if t == "" then ""
    else
      var rest := CollapseWhitespace(t[WordLength(t)..]);
      if rest == "" then t[..WordLength(t)] else t[..WordLength(t)] + " " + rest
  }

  predicate IsLineBreak(c: char) { c == '\r' || c == '\n' }

  /** `s.trim_start_matches(['\r', '\n'])` */
  function TrimLineBreaks(s: string): string {
    if s != "" && IsLineBreak(s[0]) then TrimLineBreaks(s[1..]) else s
  }

  function LowerChar(c: char): char {
    if 'A' <= c <= 'Z' then (c as int + 32) as char else c
  }

  /** `to_ascii_lowercase` */
  function Lower(s: string): string {
    seq(|s|, i requires 0 <= i < |s| => LowerChar(s[i]))
  }

  predicate StartsWith(s: string, prefix: string) { prefix <= s }

  predicate Contains(s: string, part: string) {
    exists i: nat | i <= |s| - |part| :: part <= s[i..]
  }

  function Digit(n: nat): char
    requires n < 10
  {
    ('0' as int + n) as char
  }

  function Decimal(n: nat): string {
    if n < 10 then [Digit(n)] else Decimal(n / 10) + [Digit(n % 10)]
  }

  /** The last `n` characters, or all of them. */
  function Last(s: string, n: nat): string {
    if |s| <= n then s else s[|s| - n..]
  }

  /** `cap_string`: keeps the head and says how much was cut. */
  function CapString(s: string, max: nat): string {
    if |s| <= max then s else s[..max] + "\n[... omitted " + Decimal(|s| - max) + " chars ...]"
  }

  function TailHeader(omitted: nat): string {
    "[... omitted " + Decimal(omitted) + " chars ...]\n"
  }

  /** `cap_string_in_place`: keeps the tail and says how much was cut. */
  function CapTail(s: string, max: nat): string {
    if |s| <= max then s else TailHeader(|s| - max) + Last(s, max)
  }
}
