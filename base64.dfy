/**
 * Base64 as Python's `base64` module does it: `b64encode` writes the standard alphabet with
 * `=` padding of section 4 of RFC 4648; `b64decode` (no `validate`) first requires ASCII text
 * and then runs CPython's lenient `a2b_base64` scan, which skips characters outside the alphabet
 * and stops at the padding that completes a quadruple.
 */
module Base64 {
  import opened Wrappers
  import Json

  type byte = x: int | 0 <= x < 256
  type sextet = x: int | 0 <= x < 64

  /** Table 1 of RFC 4648, in order, sixteen values to a row. */
  const Alphabet: string := Row0 + Row1 + Row2 + Row3
  const Row0: string := "ABCDEFGHIJKLMNOP"
  const Row1: string := "QRSTUVWXYZabcdef"
  const Row2: string := "ghijklmnopqrstuv"
  const Row3: string := "wxyz0123456789+/"

  /** The character Table 1 of RFC 4648 assigns to a 6-bit value. */
  function EncodeChar(v: sextet): (c: char)
    ensures IsAlphabetChar(c) && ValueOf(c) == v
  {
    if v < 26 then (65 + v) as char
    else if v < 52 then (97 + v - 26) as char
    else if v < 62 then (48 + v - 52) as char
    else if v == 62 then '+'
    else '/'
  }

  /** The arithmetic definition of EncodeChar is the table. */
  lemma EncodeCharIsTable(v: sextet)
    ensures |Alphabet| == 64 && Alphabet[v] == EncodeChar(v)
  {
    assert |Row0 + Row1| == 32 && |Row0 + Row1 + Row2| == 48;
    if v < 16 {
      UpperRow(v);
    } else if v < 32 {
      SecondRow(v - 16);
    } else if v < 48 {
      ThirdRow(v - 32);
    } else {
      LastRow(v - 48);
    }
  }

  lemma UpperRow(i: nat)
    requires i < 16
    ensures Row0[i] == EncodeChar(i)
  {
  }

  lemma SecondRow(i: nat)
    requires i < 16
    ensures Row1[i] == EncodeChar(16 + i)
  {
  }

  lemma ThirdRow(i: nat)
    requires i < 16
    ensures Row2[i] == EncodeChar(32 + i)
  {
  }

  lemma LastRow(i: nat)
    requires i < 16
    ensures Row3[i] == EncodeChar(48 + i)
  {
  }

  predicate IsAlphabetChar(c: char) {
    ('A' <= c <= 'Z') || ('a' <= c <= 'z') || ('0' <= c <= '9') || c == '+' || c == '/'
  }

  /** CPython's `table_a2b_base64` restricted to the alphabet. */
  function ValueOf(c: char): sextet
    requires IsAlphabetChar(c)
  {
    if 'A' <= c <= 'Z' then c as int - 65
    else if 'a' <= c <= 'z' then c as int - 97 + 26
    else if '0' <= c <= '9' then c as int - 48 + 52
    else if c == '+' then 62
    else 63
  }

  /** `base64.b64encode(data).decode()`. */
  function Encode(data: seq<byte>): (s: string)
    ensures |s| == (|data| + 2) / 3 * 4
    decreases |data|
  {
    if |data| == 0 then ""
    else if |data| == 1 then
      [EncodeChar(data[0] / 4), EncodeChar(data[0] % 4 * 16), '=', '=']
    else if |data| == 2 then
      [EncodeChar(data[0] / 4), EncodeChar(data[0] % 4 * 16 + data[1] / 16), EncodeChar(data[1] % 16 * 4), '=']
    else
      Quad(data[0], data[1], data[2]) + Encode(data[3..])
  }

  /** The four characters of one complete 3-byte group. */
  function Quad(b0: byte, b1: byte, b2: byte): (q: string)
    ensures |q| == 4
    ensures forall k :: 0 <= k < 4 ==> IsAlphabetChar(q[k])
  {
    [EncodeChar(b0 / 4), EncodeChar(b0 % 4 * 16 + b1 / 16), EncodeChar(b1 % 16 * 4 + b2 / 64), EncodeChar(b2 % 64)]
  }

  /** Why `b64decode` raises. */
  datatype DecodeError =
    | NonAscii                                  // ValueError from `str.encode('ascii')`
    | ExcessDataCharacter(dataCharacters: nat)  // one data character too many in the last quadruple
    | IncorrectPadding                          // two or three data characters left without padding

  /** `str(e)` of the exception Python raises. */
  function ErrorText(e: DecodeError): string {
    match e
    case NonAscii => "string argument should contain only ASCII characters"
    case ExcessDataCharacter(n) =>
      "Invalid base64-encoded string: number of data characters (" + Json.NatToString(n) + ") cannot be 1 more than a multiple of 4"
    case IncorrectPadding => "Incorrect padding"
  }

  /** The state of CPython's `a2b_base64` loop: position in the quadruple, pending bits, pad count, output. */
  datatype ScanState = ScanState(quadPos: nat, leftChar: int, pads: nat, out: seq<byte>)

  /** The pending bits always fit in what the next data character completes into a byte. */
  predicate ValidState(st: ScanState) {
    && st.quadPos < 4
    && 0 <= st.leftChar
    && (st.quadPos == 0 ==> st.leftChar == 0)
    && (st.quadPos == 1 ==> st.leftChar < 64)
    && (st.quadPos == 2 ==> st.leftChar < 16)
    && (st.quadPos == 3 ==> st.leftChar < 4)
  }

  const Start := ScanState(0, 0, 0, [])

  /** One data character fed to the loop. */
  function Feed(st: ScanState, v: sextet): (r: ScanState)
    requires ValidState(st)
    ensures ValidState(r) && r.pads == 0
  {
    if st.quadPos == 0 then ScanState(1, v, 0, st.out)
    else if st.quadPos == 1 then ScanState(2, v % 16, 0, st.out + [st.leftChar * 4 + v / 16])
    else if st.quadPos == 2 then ScanState(3, v % 4, 0, st.out + [st.leftChar * 16 + v / 4])
    else ScanState(0, 0, 0, st.out + [st.leftChar * 64 + v])
  }

  /**
   * What the loop has committed to output, counted in quarter bytes: four per byte written, and
   * three for each data character of the current quadruple still to come before it is complete.
   */
  function Pending(st: ScanState): nat {
    4 * |st.out| + (4 - st.quadPos) % 4
  }

  /** The loop over the remaining characters; it never reports the ASCII check's error. */
  function Scan(s: string, st: ScanState): (r: Result<seq<byte>, DecodeError>)
    requires ValidState(st)
    ensures r.Failure? ==> r.error != NonAscii
    decreases |s|
  {
    if s == [] then
      if st.quadPos == 0 then Success(st.out)
      else if st.quadPos == 1 then Failure(ExcessDataCharacter(|st.out| / 3 * 4 + 1))
      else Failure(IncorrectPadding)
    else if s[0] == '=' then
      if st.quadPos >= 2 && st.quadPos + st.pads + 1 >= 4 then Success(st.out)
      else Scan(s[1..], if st.quadPos >= 2 then st.(pads := st.pads + 1) else st)
    else if !IsAlphabetChar(s[0]) then Scan(s[1..], st)
    else Scan(s[1..], Feed(st, ValueOf(s[0])))
  }

  predicate IsAscii(s: string) {
    forall k :: 0 <= k < |s| ==> s[k] as int < 128
  }

  /** The loop only appends to its output, and writes at most three bytes per four characters read. */
  lemma {:induction false} ScanGrows(s: string, st: ScanState)
    requires ValidState(st)
    ensures Scan(s, st).Success? ==> st.out <= Scan(s, st).value
    ensures Scan(s, st).Success? ==> 4 * |Scan(s, st).value| <= Pending(st) + 3 * |s|
    decreases |s|
  {
    if s != [] {
      if s[0] == '=' {
        if !(st.quadPos >= 2 && st.quadPos + st.pads + 1 >= 4) {
          ScanGrows(s[1..], if st.quadPos >= 2 then st.(pads := st.pads + 1) else st);
        }
      } else if !IsAlphabetChar(s[0]) {
        ScanGrows(s[1..], st);
      } else {
        ScanGrows(s[1..], Feed(st, ValueOf(s[0])));
      }
    }
  }

  /** `base64.b64decode(s)` for a `str` argument: at most three bytes for every four characters. */
  function Decode(s: string): (r: Result<seq<byte>, DecodeError>)
    ensures r == Failure(NonAscii) <==> !IsAscii(s)
    ensures r.Success? ==> 4 * |r.value| <= 3 * |s|
  {
    ScanGrows(s, Start);
    if !IsAscii(s) then Failure(NonAscii) else Scan(s, Start)
  }

  lemma QuadBytes(b0: byte, b1: byte, b2: byte, rest: string, out: seq<byte>)
    ensures Scan(Quad(b0, b1, b2) + rest, ScanState(0, 0, 0, out)) == Scan(rest, ScanState(0, 0, 0, out + [b0, b1, b2]))
  {
    var q := Quad(b0, b1, b2);
    ScanFour(q[0], q[1], q[2], q[3], rest, ScanState(0, 0, 0, out));
    assert q == [q[0], q[1], q[2], q[3]];
    FeedGroup(b0, b1, b2, out);
  }

  /** Four data characters in a row are fed one after the other. */
  lemma ScanFour(c0: char, c1: char, c2: char, c3: char, rest: string, st: ScanState)
    requires ValidState(st) && IsAlphabetChar(c0) && IsAlphabetChar(c1) && IsAlphabetChar(c2) && IsAlphabetChar(c3)
    ensures Scan([c0, c1, c2, c3] + rest, st)
         == Scan(rest, Feed(Feed(Feed(Feed(st, ValueOf(c0)), ValueOf(c1)), ValueOf(c2)), ValueOf(c3)))
  {
    assert [c0, c1, c2, c3] + rest == [c0, c1] + ([c2, c3] + rest);
    ScanTwo(c0, c1, [c2, c3] + rest, st);
    ScanTwo(c2, c3, rest, Feed(Feed(st, ValueOf(c0)), ValueOf(c1)));
  }

  lemma ScanTwo(c0: char, c1: char, rest: string, st: ScanState)
    requires ValidState(st) && IsAlphabetChar(c0) && IsAlphabetChar(c1)
    ensures Scan([c0, c1] + rest, st) == Scan(rest, Feed(Feed(st, ValueOf(c0)), ValueOf(c1)))
  {
    ScanData(c0, [c1] + rest, st);
    assert [c0, c1] + rest == [c0] + ([c1] + rest);
    ScanData(c1, rest, Feed(st, ValueOf(c0)));
  }

  /** The four sextets of a group rebuild its three bytes. */
  lemma FeedGroup(b0: byte, b1: byte, b2: byte, out: seq<byte>)
    ensures Feed(Feed(Feed(Feed(ScanState(0, 0, 0, out), b0 / 4), b0 % 4 * 16 + b1 / 16), b1 % 16 * 4 + b2 / 64), b2 % 64)
         == ScanState(0, 0, 0, out + [b0, b1, b2])
  {
    GroupArithmetic(b0, b1, b2);
  }

  /** The bit arithmetic of a group: the decoder's shifts undo the encoder's. */
  lemma GroupArithmetic(b0: byte, b1: byte, b2: byte)
    ensures b0 / 4 * 4 + (b0 % 4 * 16 + b1 / 16) / 16 == b0
    ensures (b0 % 4 * 16 + b1 / 16) % 16 * 16 + (b1 % 16 * 4 + b2 / 64) / 4 == b1
    ensures (b1 % 16 * 4 + b2 / 64) % 4 * 64 + b2 % 64 == b2
  {
    assert (b0 % 4 * 16 + b1 / 16) / 16 == b0 % 4;
    assert (b0 % 4 * 16 + b1 / 16) % 16 == b1 / 16;
    assert (b1 % 16 * 4 + b2 / 64) / 4 == b1 % 16;
    assert (b1 % 16 * 4 + b2 / 64) % 4 == b2 / 64;
  }

  /** One step of the loop on a data character. */
  lemma ScanData(c: char, rest: string, st: ScanState)
    requires ValidState(st) && IsAlphabetChar(c)
    ensures Scan([c] + rest, st) == Scan(rest, Feed(st, ValueOf(c)))
  {
    assert ([c] + rest)[1..] == rest;
  }

  /** Decoding what `b64encode` wrote gives back exactly the input bytes. */
  lemma {:induction false} DecodeEncode(data: seq<byte>)
    ensures Decode(Encode(data)) == Success(data)
  {
    EncodeIsAscii(data);
    ScanEncode(data, []);
    assert [] + data == data;
  }

  /** Every encoding decodes to the bytes it was made from. */
  lemma DecodeEncodeAll()
    ensures forall data :: Decode(Encode(data)) == Success(data)
  {
    forall data
      ensures Decode(Encode(data)) == Success(data)
    {
      DecodeEncode(data);
    }
  }

  lemma {:induction false} ScanEncode(data: seq<byte>, out: seq<byte>)
    ensures Scan(Encode(data), ScanState(0, 0, 0, out)) == Success(out + data)
    decreases |data|, 1
  {
    if |data| == 0 {
      assert out + data == out;
    } else if |data| == 1 {
      ScanFinalOne(data[0], out);
      assert data == [data[0]];
    } else if |data| == 2 {
      ScanFinalTwo(data[0], data[1], out);
      assert data == [data[0], data[1]];
    } else {
      ScanEncodeGroup(data, out);
    }
  }

  /** A complete group, then the rest of the input. */
  lemma {:induction false} ScanEncodeGroup(data: seq<byte>, out: seq<byte>)
    requires |data| >= 3
    ensures Scan(Encode(data), ScanState(0, 0, 0, out)) == Success(out + data)
    decreases |data|, 0
  {
    var rest := data[3..];
    var out' := out + [data[0], data[1], data[2]];
    assert Encode(data) == Quad(data[0], data[1], data[2]) + Encode(rest);
    QuadBytes(data[0], data[1], data[2], Encode(rest), out);
    ScanEncode(rest, out');
    assert out' + rest == out + data;
  }

  /** A last group of one byte: two data characters and two pads. */
  lemma ScanFinalOne(b0: byte, out: seq<byte>)
    ensures Scan([EncodeChar(b0 / 4), EncodeChar(b0 % 4 * 16), '=', '='], ScanState(0, 0, 0, out)) == Success(out + [b0])
  {
    var s := [EncodeChar(b0 / 4), EncodeChar(b0 % 4 * 16), '=', '='];
    var s0 := ScanState(0, 0, 0, out);
    var s1 := Feed(s0, b0 / 4);
    var s2 := Feed(s1, b0 % 4 * 16);
    GroupArithmetic(b0, 0, 0);
    assert s2 == ScanState(2, 0, 0, out + [b0]);
    ScanData(s[0], s[1..], s0);
    assert s == [s[0]] + s[1..];
    ScanData(s[1], s[2..], s1);
    assert s[1..] == [s[1]] + s[2..];
    assert s[2..] == ['=', '='];
    assert Scan(['=', '='], s2) == Scan(['='], s2.(pads := 1));
  }

  /** A last group of two bytes: three data characters and one pad. */
  lemma ScanFinalTwo(b0: byte, b1: byte, out: seq<byte>)
    ensures Scan([EncodeChar(b0 / 4), EncodeChar(b0 % 4 * 16 + b1 / 16), EncodeChar(b1 % 16 * 4), '='], ScanState(0, 0, 0, out))
         == Success(out + [b0, b1])
  {
    var s := [EncodeChar(b0 / 4), EncodeChar(b0 % 4 * 16 + b1 / 16), EncodeChar(b1 % 16 * 4), '='];
    var s0 := ScanState(0, 0, 0, out);
    var s1 := Feed(s0, b0 / 4);
    var s2 := Feed(s1, b0 % 4 * 16 + b1 / 16);
    var s3 := Feed(s2, b1 % 16 * 4);
    GroupArithmetic(b0, b1, 0);
    assert s3 == ScanState(3, 0, 0, out + [b0, b1]);
    ScanData(s[0], s[1..], s0);
    assert s == [s[0]] + s[1..];
    ScanData(s[1], s[2..], s1);
    assert s[1..] == [s[1]] + s[2..];
    ScanData(s[2], s[3..], s2);
    assert s[2..] == [s[2]] + s[3..];
    assert s[3..] == ['='];
  }

  /** Encode writes only alphabet characters and `=`. */
  lemma {:induction false} EncodeAlphabet(data: seq<byte>)
    ensures forall k :: 0 <= k < |Encode(data)| ==> IsAlphabetChar(Encode(data)[k]) || Encode(data)[k] == '='
    decreases |data|
  {
    if |data| >= 3 {
      var q, rest := Quad(data[0], data[1], data[2]), Encode(data[3..]);
      EncodeAlphabet(data[3..]);
      assert Encode(data) == q + rest;
      forall k | 0 <= k < |q + rest| ensures IsAlphabetChar((q + rest)[k]) || (q + rest)[k] == '=' {
        if k >= 4 {
          assert (q + rest)[k] == rest[k - 4];
        }
      }
    }
  }

  /** Encode writes only ASCII, so Decode goes straight to the scan. */
  lemma EncodeIsAscii(data: seq<byte>)
    ensures IsAscii(Encode(data))
  {
    EncodeAlphabet(data);
    var s := Encode(data);
    forall k | 0 <= k < |s| ensures s[k] as int < 128 {
      assert IsAlphabetChar(s[k]) || s[k] == '=';
    }
  }
}
