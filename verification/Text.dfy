/** Text and bytes, as far as the other modules need them. Of case, what can end in an ASCII
    letter: every other character stands for itself. */
module Text {

  newtype byte = x: int | 0 <= x < 256

  predicate IsUpper(c: char) { 'A' <= c <= 'Z' }

  predicate IsLower(c: char) { 'a' <= c <= 'z' }

  predicate IsDigit(c: char) { '0' <= c <= '9' }

  /** Unicode's White_Space, which is what strings.TrimSpace trims. */
  predicate IsSpace(c: char) {
    || c == ' ' || '\t' <= c <= '\r' || 0x2000 <= c as int <= 0x200A
    || c as int in [0x85, 0xA0, 0x1680, 0x2028, 0x2029, 0x202F, 0x205F, 0x3000]
  }

  // The number of bytes of text in UTF-8, which is what len of a Go string counts.
  function Utf8Length(s: string): nat {
    if s == "" then 0 else Utf8Size(s[0] as int) + Utf8Length(s[1..])
  }

  function Utf8Size(c: int): nat {
    if c < 0x80 then 1 else if c < 0x800 then 2 else if c < 0x1_0000 then 3 else 4
  }

  // unicode.ToUpper; besides a to z, the dotless i and the long s.
  function UpperChar(c: char): char {
    if IsLower(c) then ('A' as int + (c as int - 'a' as int)) as char
    else if c == '\U{0131}' then 'I'
    else if c == '\U{017F}' then 'S'
    else c
  }

  function Upper(s: string): (r: string)
    ensures |r| == |s| && forall i :: 0 <= i < |s| ==> r[i] == UpperChar(s[i])
  {
    seq(|s|, i requires 0 <= i < |s| => UpperChar(s[i]))
  }

  // unicode.ToLower; besides A to Z, the dotted I and the Kelvin sign.
  function LowerChar(c: char): char {
    if IsUpper(c) then ('a' as int + (c as int - 'A' as int)) as char
    else if c == '\U{0130}' then 'i'
    else if c == '\U{212A}' then 'k'
    else c
  }

  function Lower(s: string): string {
    if s == "" then "" else [LowerChar(s[0])] + Lower(s[1..])
  }

  const SMALL := "abcdefghijklmnopqrstuvwxyz"
  const CAPITAL := "ABCDEFGHIJKLMNOPQRSTUVWXYZ"

  /** The letters pair up in their order. */
  lemma CasesPair(i: nat)
    requires i < 26
    ensures UpperChar(SMALL[i]) == CAPITAL[i] && LowerChar(CAPITAL[i]) == SMALL[i]
  {
    SmallAt(i);
    CapitalAt(i);
    hide SMALL, CAPITAL;
  }

  lemma SmallAt(i: nat)
    requires i < 26
    ensures |SMALL| == 26 && SMALL[i] as int == 'a' as int + i
  {
  }

  lemma CapitalAt(i: nat)
    requires i < 26
    ensures |CAPITAL| == 26 && CAPITAL[i] as int == 'A' as int + i
  {
  }

  /** No character but these, and two odd ones in either direction, has another case that is an
      ASCII letter. */
  lemma NoOtherCase(c: char)
    ensures c !in SMALL && c !in ['\U{0131}', '\U{017F}'] ==> UpperChar(c) == c
    ensures c !in CAPITAL && c !in ['\U{0130}', '\U{212A}'] ==> LowerChar(c) == c
  {
    if IsLower(c) { assert c == SMALL[c as int - 'a' as int]; }
    if IsUpper(c) { assert c == CAPITAL[c as int - 'A' as int]; }
  }

  lemma {:induction false} LowerIs(s: string)
    ensures |Lower(s)| == |s| && forall i :: 0 <= i < |s| ==> Lower(s)[i] == LowerChar(s[i])
  {
    if s != "" { LowerIs(s[1..]); }
  }

  function TrimLeft(s: string): string {
    if s != "" && IsSpace(s[0]) then TrimLeft(s[1..]) else s
  }

  function TrimRight(s: string): string {
    if s != "" && IsSpace(s[|s| - 1]) then TrimRight(s[..|s| - 1]) else s
  }

  /** strings.TrimSpace. */
  function TrimSpace(s: string): string { TrimRight(TrimLeft(s)) }

  lemma {:induction false} TrimLeftBlank(s: string)
    ensures TrimLeft(s) == "" <==> forall i :: 0 <= i < |s| ==> IsSpace(s[i])
    ensures TrimLeft(s) != "" ==> !IsSpace(TrimLeft(s)[0])
  {
    if s != "" && IsSpace(s[0]) {
      TrimLeftBlank(s[1..]);
      assert s == [s[0]] + s[1..];
    }
  }

  lemma {:induction false} TrimRightKeepsFirst(s: string)
    requires s != "" && !IsSpace(s[0])
    ensures TrimRight(s) != "" && TrimRight(s)[0] == s[0]
  {
    if IsSpace(s[|s| - 1]) { TrimRightKeepsFirst(s[..|s| - 1]); }
  }

  /** Trimming leaves nothing exactly of text that is all white space. */
  lemma TrimSpaceBlank(s: string)
    ensures TrimSpace(s) == "" <==> forall i :: 0 <= i < |s| ==> IsSpace(s[i])
  {
    TrimLeftBlank(s);
    if TrimLeft(s) != "" { TrimRightKeepsFirst(TrimLeft(s)); }
  }
}
