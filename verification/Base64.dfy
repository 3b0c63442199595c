/** packages/delegation_fabric_adapters/kms/signer.py, `_b64url_encode` and `_b64url_decode`: unpadded base64url
    (section 5 of RFC 4648), with the decoder's leniency towards characters outside the alphabet. */
module Base64 {
  import opened Text

  type Byte = b: int | 0 <= b < 256

  // ---- the alphabet ----

  predicate IsDigit64(v: int) { 0 <= v < 64 }

  function Symbol(v: int): char
    requires IsDigit64(v)
  {
    if v < 26 then ('A' as int + v) as char
    else if v < 52 then ('a' as int + v - 26) as char
    else if v < 62 then ('0' as int + v - 52) as char
    else if v == 62 then '-' else '_'
  }

  /** The decoder also takes the two symbols of the standard alphabet. */
  function ValueOf(c: char): Option<int> {
    if 'A' <= c <= 'Z' then Some(c as int - 'A' as int)
    else if 'a' <= c <= 'z' then Some(c as int - 'a' as int + 26)
    else if '0' <= c <= '9' then Some(c as int - '0' as int + 52)
    else if c == '-' || c == '+' then Some(62)
    else if c == '_' || c == '/' then Some(63)
    else None
  }

  lemma SymbolValue(v: int)
    requires IsDigit64(v)
    ensures ValueOf(Symbol(v)) == Some(v) && Symbol(v) as int < 128 && Symbol(v) !in {'=', '.'} && !Space(Symbol(v))
  {}

  /** The URL-safe alphabet: capitals, small letters, digits, then minus and underscore, each in order. */
  lemma AlphabetIs(v: int)
    requires IsDigit64(v)
    ensures Symbol(0) == 'A' && Symbol(26) == 'a' && Symbol(52) == '0' && Symbol(62) == '-' && Symbol(63) == '_'
    ensures v !in {25, 51, 61, 62, 63} ==> Symbol(v + 1) as int == Symbol(v) as int + 1
  {}

  // ---- encoding ----

  function Quad(a: Byte, b: Byte, c: Byte): string {
    [Symbol(a / 4), Symbol(a % 4 * 16 + b / 16), Symbol(b % 16 * 4 + c / 64), Symbol(c % 64)]
  }

  /** `base64.urlsafe_b64encode`, padded to a multiple of four characters. */
  function EncodePadded(d: seq<Byte>): (s: string)
    ensures |s| % 4 == 0
  {
    if |d| == 0 then ""
    else if |d| == 1 then Quad(d[0], 0, 0)[..2] + "=="
    else if |d| == 2 then Quad(d[0], d[1], 0)[..3] + "="
    else Quad(d[0], d[1], d[2]) + EncodePadded(d[3..])
  }

  function StripPads(s: string): string { if s != "" && s[|s| - 1] == '=' then StripPads(s[..|s| - 1]) else s }

  function Encode(d: seq<Byte>): string { StripPads(EncodePadded(d)) }

  /** Stripping the padding leaves the symbols of the data: two, three or four for each group. */
  function Symbols(d: seq<Byte>): string {
    if |d| == 0 then ""
    else if |d| == 1 then Quad(d[0], 0, 0)[..2]
    else if |d| == 2 then Quad(d[0], d[1], 0)[..3]
    else Quad(d[0], d[1], d[2]) + Symbols(d[3..])
  }

  function Pads(d: seq<Byte>): string { if |d| % 3 == 0 then "" else if |d| % 3 == 1 then "==" else "=" }

  predicate Plain(s: string) { forall i :: 0 <= i < |s| ==> ValueOf(s[i]).Some? && s[i] as int < 128 && s[i] !in {'=', '.'} && !Space(s[i]) }

  lemma QuadIsPlain(a: Byte, b: Byte, c: Byte)
    ensures Plain(Quad(a, b, c))
  {
    SymbolValue(a / 4);
    SymbolValue(a % 4 * 16 + b / 16);
    SymbolValue(b % 16 * 4 + c / 64);
    SymbolValue(c % 64);
  }

  lemma {:induction false} SymbolsArePlain(d: seq<Byte>)
    ensures Plain(Symbols(d))
  {
    if |d| == 1 { QuadIsPlain(d[0], 0, 0); }
    if |d| == 2 { QuadIsPlain(d[0], d[1], 0); }
    if |d| >= 3 {
      QuadIsPlain(d[0], d[1], d[2]);
      SymbolsArePlain(d[3..]);
    }
  }

  lemma PadsOfRest(d: seq<Byte>)
    requires |d| >= 3
    ensures Pads(d[3..]) == Pads(d)
  {
    assert (|d| - 3) % 3 == |d| % 3;
  }

  lemma {:induction false} PaddedIsSymbolsAndPads(d: seq<Byte>)
    ensures EncodePadded(d) == Symbols(d) + Pads(d)
  {
    if |d| >= 3 {
      PaddedIsSymbolsAndPads(d[3..]);
      PadsOfRest(d);
    }
  }

  lemma StripOnePad(s: string)
    ensures StripPads(s + "=") == StripPads(s)
  {
    assert (s + "=")[..|s|] == s;
  }

  lemma {:induction false} EncodeIsSymbols(d: seq<Byte>)
    ensures Encode(d) == Symbols(d) && Plain(Encode(d))
  {
    PaddedIsSymbolsAndPads(d);
    SymbolsArePlain(d);
    var s := Symbols(d);
    StripOnePad(s);
    StripOnePad(s + "=");
    assert s + "==" == s + "=" + "=" && s + "" == s;
    assert s != "" ==> s[|s| - 1] != '=';
  }

  /** The byte at a position, or zero behind the end. */
  function ByteAt(d: seq<Byte>, i: nat): Byte { if i < |d| then d[i] else 0 }

  /** Three bytes as one number of twenty-four bits. */
  function Group(d: seq<Byte>, i: nat): nat { ByteAt(d, 3 * i) * 0x10000 + ByteAt(d, 3 * i + 1) * 0x100 + ByteAt(d, 3 * i + 2) }

  function SixBits(group: nat, k: nat): int
    requires k < 4
    ensures IsDigit64(SixBits(group, k))
  {
    (match k case 0 => group / 0x40000 case 1 => group / 0x1000 case 2 => group / 0x40 case _ => group) % 64
  }

  lemma Divided(x: nat, r: nat)
    ensures r < 0x40 ==> (x * 0x40 + r) / 0x40 == x && (x * 0x40 + r) % 0x40 == r
    ensures r < 0x1000 ==> (x * 0x1000 + r) / 0x1000 == x
    ensures r < 0x40000 ==> (x * 0x40000 + r) / 0x40000 == x
  {}

  lemma HighBits(a: Byte, b: Byte, c: Byte)
    ensures var g := a * 0x10000 + b * 0x100 + c; g / 0x40000 % 64 == a / 4 && g % 64 == c % 64
  {
    var g := a * 0x10000 + b * 0x100 + c;
    assert g == a / 4 * 0x40000 + (a % 4 * 0x10000 + b * 0x100 + c);
    Divided(a / 4, a % 4 * 0x10000 + b * 0x100 + c);
    assert g == (a * 0x400 + b * 4 + c / 64) * 0x40 + c % 64;
    Divided(a * 0x400 + b * 4 + c / 64, c % 64);
  }

  lemma SecondBits(a: Byte, b: Byte, c: Byte)
    ensures (a * 0x10000 + b * 0x100 + c) / 0x1000 % 64 == a % 4 * 16 + b / 16
  {
    var digit, rest := a % 4 * 16 + b / 16, b % 16 * 0x100 + c;
    assert a * 0x10000 + b * 0x100 + c == (a / 4 * 0x40 + digit) * 0x1000 + rest;
    Divided(a / 4 * 0x40 + digit, rest);
    Divided(a / 4, digit);
  }

  lemma ThirdBits(a: Byte, b: Byte, c: Byte)
    ensures (a * 0x10000 + b * 0x100 + c) / 0x40 % 64 == b % 16 * 4 + c / 64
  {
    var high, digit := a * 16 + b / 16, b % 16 * 4 + c / 64;
    assert a * 0x10000 + b * 0x100 + c == (high * 0x40 + digit) * 0x40 + c % 64;
    Divided(high * 0x40 + digit, c % 64);
    Divided(high, digit);
  }

  lemma QuadExactly(a: Byte, b: Byte, c: Byte, k: nat)
    requires k < 4
    ensures Quad(a, b, c)[k] == Symbol(SixBits(a * 0x10000 + b * 0x100 + c, k))
  {
    if k == 1 { SecondBits(a, b, c); } else if k == 2 { ThirdBits(a, b, c); } else { HighBits(a, b, c); }
  }

  lemma EncodedTail(d: seq<Byte>)
    requires |d| >= 3
    ensures Encode(d) == Quad(d[0], d[1], d[2]) + Encode(d[3..])
  {
    EncodeIsSymbols(d);
    EncodeIsSymbols(d[3..]);
  }

  lemma {:induction false} EncodedLength(d: seq<Byte>)
    ensures |Encode(d)| == (4 * |d| + 2) / 3
  {
    EncodeIsSymbols(d);
    if |d| >= 3 {
      EncodedTail(d);
      EncodedLength(d[3..]);
    }
  }

  lemma FirstSymbols(d: seq<Byte>, k: nat)
    requires k < 4 && k < |Encode(d)|
    ensures Encode(d)[k] == Symbol(SixBits(Group(d, 0), k))
  {
    EncodeIsSymbols(d);
    if d != [] { QuadExactly(d[0], ByteAt(d, 1), ByteAt(d, 2), k); }
    if |d| >= 3 { EncodedTail(d); }
  }

  /** The encoding is the bit string six bits at a time, each group of three bytes from its highest bits on, with as many
      symbols as the bits of the last group need. */
  lemma {:induction false} EncodedExactly(d: seq<Byte>, j: nat)
    ensures |Encode(d)| == (4 * |d| + 2) / 3
    ensures j < |Encode(d)| ==> Encode(d)[j] == Symbol(SixBits(Group(d, j / 4), j % 4))
    decreases |d|
  {
    EncodedLength(d);
    if j < |Encode(d)| {
      if j < 4 {
        FirstSymbols(d, j);
      } else {
        EncodedTail(d);
        EncodedExactly(d[3..], j - 4);
        ShiftedGroup(d, j);
      }
    }
  }

  lemma ShiftedGroup(d: seq<Byte>, j: nat)
    requires |d| >= 3 && j >= 4
    ensures Group(d[3..], (j - 4) / 4) == Group(d, j / 4) && (j - 4) % 4 == j % 4
  {
    assert (j - 4) / 4 == j / 4 - 1;
  }

  // ---- decoding ----

  /** `binascii.a2b_base64` in its lenient mode: unknown characters are skipped, padding that completes a group ends
      the data, and an incomplete group is an error. `quad` is the position in the group, `left` the bits carried over. */
  function Scan(s: string, quad: int, left: int, pads: nat): Option<seq<int>> {
    if s == "" then (if quad == 0 then Some([]) else None)
    else if s[0] == '=' then
      (if quad >= 2 && quad + pads + 1 >= 4 then Some([])
       else Scan(s[1..], quad, left, if quad >= 2 then pads + 1 else pads))
    else match ValueOf(s[0])
      case None => Scan(s[1..], quad, left, pads)
      case Some(v) =>
        if quad == 0 then Scan(s[1..], 1, v, 0)
        else if quad == 1 then Emit(left * 4 + v / 16, Scan(s[1..], 2, v % 16, 0))
        else if quad == 2 then Emit(left * 16 + v / 4, Scan(s[1..], 3, v % 4, 0))
        else Emit(left * 64 + v, Scan(s[1..], 0, 0, 0))
  }

  function Emit(b: int,
                rest: Option<seq<int>>): Option<seq<int>> { if rest.Some? then Some([b] + rest.value) else None }

  predicate Ascii(s: string) { forall i :: 0 <= i < |s| ==> s[i] as int < 128 }

  /** `data += "=" * (4 - rem)` */
  function Restore(s: string): string {
    var rem := |s| % 4;
    if rem == 0 then s else if rem == 1 then s + "===" else if rem == 2 then s + "==" else s + "="
  }

  /** Restore the padding and decode; None is an exception. */
  function Decode(s: string): Option<seq<int>> { if Ascii(Restore(s)) then Scan(Restore(s), 0, 0, 0) else None }

  // ---- the round trip ----

  lemma ScanSymbol(v: int, rest: string, quad: int, left: int, pads: nat)
    requires IsDigit64(v) && 0 <= quad <= 3
    ensures Scan([Symbol(v)] + rest, quad, left, pads)
      == if quad == 0 then Scan(rest, 1, v, 0)
         else if quad == 1 then Emit(left * 4 + v / 16, Scan(rest, 2, v % 16, 0))
         else if quad == 2 then Emit(left * 16 + v / 4, Scan(rest, 3, v % 4, 0))
         else Emit(left * 64 + v, Scan(rest, 0, 0, 0))
  {
    SymbolValue(v);
    assert ([Symbol(v)] + rest)[1..] == rest;
  }

  /** Four six-bit digits carry three bytes. */
  lemma GroupBits(a: Byte, b: Byte, c: Byte)
    ensures var v1, v2 := a % 4 * 16 + b / 16, b % 16 * 4 + c / 64;
      a / 4 * 4 + v1 / 16 == a && v1 % 16 * 16 + v2 / 4 == b && v2 % 4 * 64 + c % 64 == c
  {
    assert b / 16 < 16 && c / 64 < 4;
    assert (a % 4 * 16 + b / 16) / 16 == a % 4 && (a % 4 * 16 + b / 16) % 16 == b / 16;
    assert (b % 16 * 4 + c / 64) / 4 == b % 16 && (b % 16 * 4 + c / 64) % 4 == c / 64;
  }

  lemma ScanDigits(v0: int, v1: int, v2: int, v3: int, rest: string)
    requires IsDigit64(v0) && IsDigit64(v1) && IsDigit64(v2) && IsDigit64(v3)
    ensures Scan([Symbol(v0), Symbol(v1), Symbol(v2), Symbol(v3)] + rest, 0, 0, 0)
      == Emit(v0 * 4 + v1 / 16, Emit(v1 % 16 * 16 + v2 / 4, Emit(v2 % 4 * 64 + v3, Scan(rest, 0, 0, 0))))
  {
    var s3 := [Symbol(v3)] + rest;
    var s2 := [Symbol(v2)] + s3;
    var s1 := [Symbol(v1)] + s2;
    assert [Symbol(v0), Symbol(v1), Symbol(v2), Symbol(v3)] + rest == [Symbol(v0)] + s1;
    ScanSymbol(v0, s1, 0, 0, 0);
    ScanSymbol(v1, s2, 1, v0, 0);
    ScanSymbol(v2, s3, 2, v1 % 16, 0);
    ScanSymbol(v3, rest, 3, v2 % 4, 0);
  }

  lemma ScanGroup(a: Byte, b: Byte, c: Byte, rest: string)
    ensures Scan(Quad(a, b, c) + rest, 0, 0, 0) == Emit(a, Emit(b, Emit(c, Scan(rest, 0, 0, 0))))
  {
    ScanDigits(a / 4, a % 4 * 16 + b / 16, b % 16 * 4 + c / 64, c % 64, rest);
    GroupBits(a, b, c);
  }

  lemma ScanOneByte(a: Byte)
    ensures Scan(Quad(a, 0, 0)[..2] + "==", 0, 0, 0) == Some([a])
  {
    var v0, v1 := a / 4, a % 4 * 16;
    var s1 := [Symbol(v1)] + "==";
    assert Quad(a, 0, 0)[..2] + "==" == [Symbol(v0)] + s1;
    ScanSymbol(v0, s1, 0, 0, 0);
    ScanSymbol(v1, "==", 1, v0, 0);
    assert "=="[1..] == "=";
    assert Scan("==", 2, v1 % 16, 0) == Scan("=", 2, v1 % 16, 1) == Some([]);
    GroupBits(a, 0, 0);
    assert [a] + [] == [a];
  }

  lemma ScanTwoBytes(a: Byte, b: Byte)
    ensures Scan(Quad(a, b, 0)[..3] + "=", 0, 0, 0) == Some([a, b])
  {
    var v0, v1, v2 := a / 4, a % 4 * 16 + b / 16, b % 16 * 4;
    var s2 := [Symbol(v2)] + "=";
    var s1 := [Symbol(v1)] + s2;
    assert Quad(a, b, 0)[..3] + "=" == [Symbol(v0)] + s1;
    ScanSymbol(v0, s1, 0, 0, 0);
    ScanSymbol(v1, s2, 1, v0, 0);
    ScanSymbol(v2, "=", 2, v1 % 16, 0);
    assert Scan("=", 3, v2 % 4, 0) == Some([]);
    GroupBits(a, b, 0);
    assert [a] + ([b] + []) == [a, b];
  }

  lemma {:induction false} ScanPadded(d: seq<Byte>)
    ensures Scan(EncodePadded(d), 0, 0, 0) == Some(d)
  {
    if |d| == 0 {
      assert d == [];
    } else if |d| == 1 {
      ScanOneByte(d[0]);
      assert d == [d[0]];
    } else if |d| == 2 {
      ScanTwoBytes(d[0], d[1]);
      assert d == [d[0], d[1]];
    } else {
      var rest: seq<int> := d[3..];
      ScanPadded(d[3..]);
      ScanGroup(d[0], d[1], d[2], EncodePadded(d[3..]));
      assert [d[0]] + ([d[1]] + ([d[2]] + rest)) == d;
    }
  }

  lemma Remainder(n: nat, p: nat)
    requires (n + p) % 4 == 0 && p <= 2
    ensures n % 4 == if p == 0 then 0 else 4 - p
  {}

  /** The padding that was stripped is the padding that is restored. */
  lemma RestoreSymbols(d: seq<Byte>)
    ensures Restore(Symbols(d)) == EncodePadded(d)
  {
    PaddedIsSymbolsAndPads(d);
    Remainder(|Symbols(d)|, |Pads(d)|);
    assert Symbols(d) + "" == Symbols(d);
  }

  /** Decoding inverts encoding for every byte string. */
  lemma RoundTrip(d: seq<Byte>)
    ensures Decode(Encode(d)) == Some(d)
  {
    EncodeIsSymbols(d);
    PaddedIsSymbolsAndPads(d);
    RestoreSymbols(d);
    ScanPadded(d);
    assert Ascii(Symbols(d) + Pads(d));
  }
}
