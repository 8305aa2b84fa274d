/**
 The string operations behind `_normalize` and `_norm`: `strip`, `lower`, and the
 replacement of every whitespace run by one space. Lower-casing is ASCII.
 */
module Text {

  /** Python's `str.isspace` on one character, which is also what `\s` matches. */
  predicate IsSpace(c: char) {
    var n := c as int;
    || 9 <= n <= 13
    || 28 <= n <= 32
    || n in {0x85, 0xA0, 0x1680, 0x2028, 0x2029, 0x202F, 0x205F, 0x3000}
    || 0x2000 <= n <= 0x200A
  }

  function LowerChar(c: char): char {
    if 'A' <= c <= 'Z' then (c as int + 32) as char else c
  }

  function Lower(s: string): string {
    if s == "" then "" else [LowerChar(s[0])] + Lower(s[1..])
  }

  function DropLeading(s: string): string {
    if s != "" && IsSpace(s[0]) then DropLeading(s[1..]) else s
  }

  function DropTrailing(s: string): string {
    if s != "" && IsSpace(s[|s| - 1]) then DropTrailing(s[..|s| - 1]) else s
  }

  function Strip(s: string): string {
    DropTrailing(DropLeading(s))
  }

  lemma {:induction false} DropLeadingShape(s: string)
    ensures |DropLeading(s)| <= |s|
    ensures DropLeading(s) == s[|s| - |DropLeading(s)|..]
    ensures DropLeading(s) != "" ==> !IsSpace(DropLeading(s)[0])
  {
    if s != "" && IsSpace(s[0]) {
      DropLeadingShape(s[1..]);
    }
  }

  lemma {:induction false} DropTrailingShape(s: string)
    ensures DropTrailing(s) <= s
    ensures DropTrailing(s) != "" ==> !IsSpace(DropTrailing(s)[|DropTrailing(s)| - 1])
  {
    if s != "" && IsSpace(s[|s| - 1]) {
      DropTrailingShape(s[..|s| - 1]);
    }
  }

  /** `re.sub(r"\s+", " ", s)`. */
  function Squeeze(s: string): string
    decreases |s|
  {
    if s == "" then
      ""
    else if IsSpace(s[0]) then
      DropLeadingShape(s[1..]);
      " " + Squeeze(DropLeading(s[1..]))
    else
      [s[0]] + Squeeze(s[1..])
  }

  function Normalize(s: string): string {
    Squeeze(Lower(Strip(s)))
  }

  predicate OccursAt(text: string, needle: string, i: int) {
    0 <= i <= |text| - |needle| && text[i..i + |needle|] == needle
  }

  /** Python's `needle in text`. */
  predicate Contains(text: string, needle: string) {
    exists i | 0 <= i <= |text| - |needle| :: OccursAt(text, needle, i)
  }

  // ---------- the independent reading: words ----------

  function WordLength(s: string): (n: nat)
    ensures n <= |s|
  {
    if s == "" || IsSpace(s[0]) then 0 else 1 + WordLength(s[1..])
  }

  /** Python's `str.split()`. */
  function Words(s: string): seq<string>
    decreases |s|
  {
    DropLeadingShape(s);
    var t := DropLeading(s);
    if t == "" then [] else [t[..WordLength(t)]] + Words(t[WordLength(t)..])
  }

  function LowerAll(words: seq<string>): seq<string> {
    if words == [] then [] else [Lower(words[0])] + LowerAll(words[1..])
  }

  /** `" ".join(words)`. */
  function Join(words: seq<string>): string {
    if words == [] then "" else if |words| == 1 then words[0] else words[0] + " " + Join(words[1..])
  }
}
