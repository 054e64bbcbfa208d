/** Room codes: drawn by the server (room-api/internal/rooms/service.go:339-349), cleaned up
    by the form (client/frontend/src/roomCode.ts), checked by the client
    (client/internal/roomapi/client.go:491-508) and masked for display
    (client/internal/session/service.go:464-476). */
module RoomCodes {
  import opened Outcomes
  import opened Text

  predicate IsCodeChar(c: char) { IsUpper(c) || IsDigit(c) }

  // ---------------------------------------------------------------- the client's check

  function Split(s: string): (parts: seq<string>)
    ensures parts != []
  {
    if s == "" then [""]
    else
      var rest := Split(s[1..]);
      if s[0] == '-' then [""] + rest else [[s[0]] + rest[0]] + rest[1..]
  }

  predicate GoodPart(part: string) { |part| == 4 && forall i :: 0 <= i < 4 ==> IsCodeChar(part[i]) }

  /** normalizeRoomCode of the client, client.go:491-508: None is "invalid room code". */
  method CheckRoomCode(value: string) returns (r: Option<string>)
    ensures r == Checked(value)
  {
    var v := Upper(TrimSpace(value));
    var parts := Split(v);
    if |parts| != 3 { return None; }
    for i := 0 to |parts|
      invariant forall j :: 0 <= j < i ==> GoodPart(parts[j])
    {
      var part := parts[i];
      if |part| != 4 { return None; }
      for k := 0 to |part|
        invariant forall j :: 0 <= j < k ==> IsCodeChar(part[j])
      {
        if !IsCodeChar(part[k]) { return None; }
      }
    }
    return Some(v);
  }

  function Checked(value: string): Option<string> {
    var v := Upper(TrimSpace(value));
    var parts := Split(v);
    if |parts| == 3 && GoodPart(parts[0]) && GoodPart(parts[1]) && GoodPart(parts[2]) then Some(v) else None
  }

  /** Three groups of four code characters: /^[A-Z0-9]{4}(?:-[A-Z0-9]{4}){2}$/. */
  predicate WellFormed(s: string) {
    |s| == 14 && s[4] == s[9] == '-' && GoodPart(s[..4]) && GoodPart(s[5..9]) && GoodPart(s[10..])
  }

  // ---------------------------------------------------------------- the form's clean-up

  /** Upper case, and code characters only. */
  function Compact(s: string): string {
    if s == "" then "" else Code(s[0]) + Compact(s[1..])
  }

  function Code(c: char): string { if IsCodeChar(UpperChar(c)) then [UpperChar(c)] else Expanded(c as int) }

  /** JavaScript's toUpperCase turns these characters into several, and some of those are
      code characters (Unicode's SpecialCasing.txt). */
  function Expanded(c: int): string {
    match c
    case 0x00DF => "SS"
    case 0x0149 => "N"
    case 0x01F0 => "J"
    case 0x1E96 => "H"
    case 0x1E97 => "T"
    case 0x1E98 => "W"
    case 0x1E99 => "Y"
    case 0x1E9A => "A"
    case 0xFB00 => "FF"
    case 0xFB01 => "FI"
    case 0xFB02 => "FL"
    case 0xFB03 => "FFI"
    case 0xFB04 => "FFL"
    case 0xFB05 => "ST"
    case 0xFB06 => "ST"
    case _ => ""
  }

  function Take12(s: string): string { if |s| > 12 then s[..12] else s }

  function Grouped(s: string): string {
    if |s| <= 4 then s else s[..4] + "-" + Grouped(s[4..])
  }

  /** normalizeRoomCode of the form, roomCode.ts:3-6. */
  function Cleaned(value: string): string { Grouped(Take12(Compact(value))) }

  // ---------------------------------------------------------------- splitting and joining

  lemma {:induction false} SplitNoDash(s: string)
    requires forall i :: 0 <= i < |s| ==> s[i] != '-'
    ensures Split(s) == [s]
  {
    if s != "" {
      SplitNoDash(s[1..]);
      assert [s[0]] + s[1..] == s;
    }
  }

  lemma {:induction false} SplitAtDash(a: string, b: string)
    requires forall i :: 0 <= i < |a| ==> a[i] != '-'
    ensures Split(a + "-" + b) == [a] + Split(b)
  {
    var s := a + "-" + b;
    if a == "" {
      assert s[1..] == b;
    } else {
      assert s[1..] == a[1..] + "-" + b;
      SplitAtDash(a[1..], b);
      assert [a[0]] + a[1..] == a;
    }
  }

  /** The other way round: a string is its parts with dashes between. */
  function Joined(parts: seq<string>): string
    requires parts != []
  {
    if |parts| == 1 then parts[0] else parts[0] + "-" + Joined(parts[1..])
  }

  lemma {:induction false} JoinedSplit(s: string)
    ensures Joined(Split(s)) == s
  {
    if s != "" {
      var rest := Split(s[1..]);
      JoinedSplit(s[1..]);
      if s[0] == '-' {
        assert ([""] + rest)[1..] == rest;
      } else {
        var parts := [[s[0]] + rest[0]] + rest[1..];
        assert parts[1..] == rest[1..];
      }
    }
  }

  lemma SplitWellFormed(v: string)
    ensures WellFormed(v) <==>
              var parts := Split(v); |parts| == 3 && GoodPart(parts[0]) && GoodPart(parts[1]) && GoodPart(parts[2])
  {
    var parts := Split(v);
    if WellFormed(v) {
      assert v == v[..4] + "-" + (v[5..9] + "-" + v[10..]);
      SplitAtDash(v[..4], v[5..9] + "-" + v[10..]);
      SplitAtDash(v[5..9], v[10..]);
      SplitNoDash(v[10..]);
    }
    if |parts| == 3 && GoodPart(parts[0]) && GoodPart(parts[1]) && GoodPart(parts[2]) {
      JoinedSplit(v);
      assert parts[1..][1..] == [parts[2]] && parts[1..][0] == parts[1];
      assert Joined([parts[2]]) == parts[2];
      assert Joined(parts[1..]) == parts[1] + "-" + parts[2];
      assert v == parts[0] + "-" + (parts[1] + "-" + parts[2]);
      assert v[..4] == parts[0] && v[5..9] == parts[1] && v[10..] == parts[2];
    }
  }

  // ---------------------------------------------------------------- compacting

  lemma {:induction false} CompactAppend(a: string, b: string)
    ensures Compact(a + b) == Compact(a) + Compact(b)
  {
    if a == "" {
      assert a + b == b;
    } else {
      hide Code;
      assert (a + b)[1..] == a[1..] + b;
      CompactAppend(a[1..], b);
      assert Code(a[0]) + (Compact(a[1..]) + Compact(b)) == Code(a[0]) + Compact(a[1..]) + Compact(b);
    }
  }

  lemma {:induction false} CompactCode(s: string)
    requires forall i :: 0 <= i < |s| ==> IsCodeChar(s[i])
    ensures Compact(s) == s
  {
    if s != "" { CompactCode(s[1..]); }
  }

  lemma {:induction false} CompactOnlyCode(s: string)
    ensures forall i :: 0 <= i < |Compact(s)| ==> IsCodeChar(Compact(s)[i])
  {
    if s != "" { CompactOnlyCode(s[1..]); }
  }

  lemma {:induction false} CompactUpper(s: string)
    ensures Compact(Upper(s)) == Compact(s)
  {
    if s != "" {
      assert Upper(s)[1..] == Upper(s[1..]);
      CompactUpper(s[1..]);
    }
  }

  lemma SpaceIsNoCode(c: char)
    requires IsSpace(c)
    ensures Code(c) == "" && Compact([c]) == ""
  {
    assert [c][1..] == "";
  }

  lemma {:induction false} CompactTrimLeft(s: string)
    ensures Compact(TrimLeft(s)) == Compact(s)
  {
    hide IsSpace, Code;
    if s != "" && IsSpace(s[0]) {
      SpaceIsNoCode(s[0]);
      CompactTrimLeft(s[1..]);
    }
  }

  lemma {:induction false} CompactTrimRight(s: string)
    ensures Compact(TrimRight(s)) == Compact(s)
  {
    hide IsSpace, Code;
    if s != "" && IsSpace(s[|s| - 1]) {
      SpaceIsNoCode(s[|s| - 1]);
      CompactTrimRight(s[..|s| - 1]);
      CompactAppend(s[..|s| - 1], [s[|s| - 1]]);
      assert s[..|s| - 1] + [s[|s| - 1]] == s;
    }
  }

  lemma {:induction false} CompactGrouped(s: string)
    requires forall i :: 0 <= i < |s| ==> IsCodeChar(s[i])
    ensures Compact(Grouped(s)) == s
  {
    if |s| <= 4 {
      CompactCode(s);
    } else {
      CompactGrouped(s[4..]);
      CompactCode(s[..4]);
      CompactAppend(s[..4] + "-", Grouped(s[4..]));
      CompactAppend(s[..4], "-");
      assert Compact("-") == "";
      assert s[..4] + s[4..] == s;
    }
  }

  lemma CompactDashed(a: string, rest: string)
    requires GoodPart(a)
    ensures Compact(a + "-" + rest) == a + Compact(rest)
  {
    assert Compact("-") == "";
    CompactCode(a);
    hide Compact;
    CompactAppend(a + "-", rest);
    CompactAppend(a, "-");
  }

  /** A well-formed code compacts to its twelve characters and groups back to itself. */
  lemma CleanedWellFormed(v: string)
    requires WellFormed(v)
    ensures Compact(v) == v[..4] + v[5..9] + v[10..] && Cleaned(v) == v
  {
    hide Compact, Grouped;
    var a, b, c := v[..4], v[5..9], v[10..];
    assert v == a + "-" + (b + "-" + c);
    CompactDashed(a, b + "-" + c);
    CompactDashed(b, c);
    CompactCode(c);
    GroupedTwelve(a, b, c);
  }

  lemma GroupedMore(a: string, rest: string)
    requires |a| == 4 && rest != ""
    ensures Grouped(a + rest) == a + "-" + Grouped(rest)
  {
    assert (a + rest)[..4] == a && (a + rest)[4..] == rest;
  }

  lemma GroupedTwelve(a: string, b: string, c: string)
    requires |a| == |b| == |c| == 4
    ensures Grouped(a + b + c) == a + "-" + (b + "-" + c)
  {
    assert Grouped(c) == c;
    hide Grouped;
    assert a + b + c == a + (b + c);
    GroupedMore(a, b + c);
    GroupedMore(b, c);
  }

  // ---------------------------------------------------------------- what the two agree on

  lemma TrimCode(s: string)
    requires s != "" && !IsSpace(s[0]) && !IsSpace(s[|s| - 1])
    ensures TrimSpace(s) == s
  {
  }

  lemma WellFormedFixed(v: string)
    requires WellFormed(v)
    ensures Checked(v) == Some(v) && Cleaned(v) == v
  {
    assert v[0] == v[..4][0] && v[13] == v[10..][3];
    TrimCode(v);
    forall i | 0 <= i < |v| ensures UpperChar(v[i]) == v[i] {
      if i < 4 {
        assert v[i] == v[..4][i];
      } else if 5 <= i < 9 {
        assert v[i] == v[5..9][i - 5];
      } else if 10 <= i {
        assert v[i] == v[10..][i - 10];
      }
    }
    assert Upper(v) == v;
    SplitWellFormed(v);
    CleanedWellFormed(v);
  }

  /** What the client accepts, it accepts as a well-formed code, accepts unchanged the
      second time, and the form cleans up to the very same code. */
  lemma CheckedAgrees(value: string)
    ensures Checked(value).Some? <==> WellFormed(Upper(TrimSpace(value)))
    ensures Checked(value).Some? ==>
              && Checked(Checked(value).value) == Checked(value)
              && Cleaned(value) == Checked(value).value
  {
    var v := Upper(TrimSpace(value));
    SplitWellFormed(v);
    if WellFormed(v) {
      WellFormedFixed(v);
      CompactUpper(TrimSpace(value));
      CompactTrimRight(TrimLeft(value));
      CompactTrimLeft(value);
    }
  }

  lemma GroupedWellFormed(t: string)
    requires |t| <= 12 && forall i :: 0 <= i < |t| ==> IsCodeChar(t[i])
    ensures WellFormed(Grouped(t)) <==> |t| == 12
  {
    hide Grouped, Compact;
    if |t| == 12 {
      var a, b, c := t[..4], t[4..8], t[8..];
      GroupedTwelve(a, b, c);
      assert t == a + b + c;
      var g := a + "-" + (b + "-" + c);
      assert g[..4] == a && g[5..9] == b && g[10..] == c;
    } else if WellFormed(Grouped(t)) {
      CompactGrouped(t);
      CleanedWellFormed(Grouped(t));
    }
  }

  /** Cleaning up twice is cleaning up once, and the client accepts the result, unchanged,
      exactly when the form calls it valid, which is when twelve characters were left. */
  lemma CleanedTwice(value: string)
    ensures Cleaned(Cleaned(value)) == Cleaned(value)
    ensures WellFormed(Cleaned(value)) <==> Checked(Cleaned(value)) == Some(Cleaned(value))
    ensures WellFormed(Cleaned(value)) <==> |Compact(value)| >= 12
  {
    hide Grouped, Compact, Checked, WellFormed;
    var t := Take12(Compact(value));
    CompactOnlyCode(value);
    CompactGrouped(t);
    GroupedWellFormed(t);
    if WellFormed(Cleaned(value)) { WellFormedFixed(Cleaned(value)); }
    CheckedAgrees(Cleaned(value));
    if Checked(Cleaned(value)) == Some(Cleaned(value)) { AcceptedIsWellFormed(Cleaned(value)); }
  }

  lemma AcceptedIsWellFormed(value: string)
    requires Checked(value).Some?
    ensures WellFormed(Checked(value).value)
  {
    CheckedAgrees(value);
  }

  // ---------------------------------------------------------------- drawing a code

  const ALPHABET := "ABCDEFGHJKLMNPQRSTUVWXYZ23456789"

  function Letter(b: byte): char { ALPHABET[b as int % |ALPHABET|] }

  lemma LetterGood(b: byte)
    ensures IsCodeChar(Letter(b))
  {
  }

  // Where a letter of the alphabet stands.
  function Position(c: char): int {
    var n := c as int;
    if 'A' <= c <= 'H' then n - 'A' as int
    else if 'J' <= c <= 'N' then n - 'J' as int + 8
    else if 'P' <= c <= 'Z' then n - 'P' as int + 13
    else n - '2' as int + 24
  }

  lemma AlphabetInOrder(i: nat)
    requires i < 32
    ensures |ALPHABET| == 32 && Position(ALPHABET[i]) == i && IsCodeChar(ALPHABET[i]) && ALPHABET[i] !in "IO01"
  {
  }

  lemma InAlphabet(c: char)
    requires IsCodeChar(c) && c !in "IO01"
    ensures 0 <= Position(c) < 32 && ALPHABET[Position(c)] == c
  {
  }

  function Column(b: byte): int { b as int % 32 }

  lemma DrawnFor(b: byte, c: char)
    ensures Letter(b) == c <==> IsCodeChar(c) && c !in "IO01" && Column(b) == Position(c)
  {
    AlphabetInOrder(b as int % 32);
    if IsCodeChar(c) && c !in "IO01" { InAlphabet(c); }
    hide Position;
  }

  lemma EightBytes(k: nat)
    requires k < 32
    ensures |set b: byte | Column(b) == k| == 8
  {
    var bytes := set b: byte | Column(b) == k;
    var eight := seq(8, i requires 0 <= i < 8 => (k + 32 * i) as byte);
    forall b: byte ensures b in bytes <==> b in eight {
      if b in bytes { assert b == eight[b as int / 32]; }
    }
    AllDifferent(eight, bytes);
  }

  /** Every code character but the four that look alike is drawn, no other is, and each of them
      for eight bytes of the 256: all codes are equally likely. */
  lemma EvenlyDrawn(c: char)
    ensures |set b: byte | Letter(b) == c| == if IsCodeChar(c) && c !in "IO01" then 8 else 0
  {
    var bytes := set b: byte | Letter(b) == c;
    forall b: byte ensures Letter(b) == c <==> IsCodeChar(c) && c !in "IO01" && Column(b) == Position(c) {
      DrawnFor(b, c);
    }
    if IsCodeChar(c) && c !in "IO01" {
      InAlphabet(c);
      EightBytes(Position(c));
      assert bytes == set b: byte | Column(b) == Position(c);
    } else {
      assert bytes == {};
    }
    hide Letter, Position;
  }

  lemma {:induction false} AllDifferent(s: seq<byte>, t: set<byte>)
    requires (forall b :: b in s <==> b in t) && forall i, j :: 0 <= i < j < |s| ==> s[i] != s[j]
    ensures |t| == |s|
  {
    if s != [] {
      AllDifferent(s[1..], t - {s[0]});
    } else {
      assert t == {};
    }
  }

  /** randomRoomCode, service.go:339-349, on twelve random bytes. */
  method RandomRoomCode(random: seq<byte>) returns (code: string)
    requires |random| == 12
    ensures WellFormed(code) && Checked(code) == Some(code) && Cleaned(code) == code
    ensures Compact(code) == seq(12, i requires 0 <= i < 12 => Letter(random[i]))
  {
    hide Letter, Compact, Checked, Cleaned;
    var buf := new char[12](i => '-');
    for i := 0 to 12
      invariant forall j :: 0 <= j < i ==> buf[j] == Letter(random[j]) && IsCodeChar(buf[j])
    {
      LetterGood(random[i]);
      buf[i] := Letter(random[i]);
    }
    var a, b, c := buf[..4], buf[4..8], buf[8..];
    code := a + "-" + b + "-" + c;
    assert code[..4] == a && code[5..9] == b && code[10..] == c;
    WellFormedFixed(code);
    CleanedWellFormed(code);
  }

  // ---------------------------------------------------------------- showing a code

  predicate Shows(i: nat, length: nat, c: char) { i + 4 >= length || c == '-' }

  /** maskRoomCode, service.go:464-476. */
  method MaskRoomCode(value: string) returns (masked: string)
    ensures |value| < 4 ==> masked == ""
    ensures |value| >= 4 ==> |masked| == |value| && forall i :: 0 <= i < |value| ==>
              masked[i] == if Shows(i, |value|, value[i]) then value[i] else '*'
    ensures masked == Masked(value)
  {
    if |value| < 4 { return ""; }
    var buf := new char[|value|](i requires 0 <= i < |value| => value[i]);
    for i := 0 to |value| - 4
      invariant forall j :: 0 <= j < i ==> buf[j] == if value[j] == '-' then '-' else '*'
      invariant forall j :: i <= j < |value| ==> buf[j] == value[j]
    {
      if buf[i] != '-' { buf[i] := '*'; }
    }
    masked := buf[..];
  }

  function Masked(value: string): string {
    if |value| < 4 then ""
    else seq(|value|, i requires 0 <= i < |value| => if Shows(i, |value|, value[i]) then value[i] else '*')
  }

  /** Two codes that agree in length, in their hyphens and in their last four characters
      look the same: nothing else of a code is shown. */
  lemma MaskHidesTheRest(a: string, b: string)
    requires |a| == |b| && forall i :: 0 <= i < |a| ==>
               (a[i] == '-' <==> b[i] == '-') && (i + 4 >= |a| ==> a[i] == b[i])
    ensures Masked(a) == Masked(b)
  {
  }

  lemma MaskOfACode(code: string)
    requires WellFormed(code)
    ensures Masked(code) == "****-****-" + code[10..]
  {
    forall i | 0 <= i < 10 && i != 4 && i != 9 ensures code[i] != '-' {
      if i < 4 { assert code[i] == code[..4][i]; } else { assert code[i] == code[5..9][i - 5]; }
    }
  }
}
