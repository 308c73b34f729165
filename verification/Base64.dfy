/**
 Byte utilities without Node's `Buffer` (pocket-shared, bytes.ts): base64 as in section 4 of
 RFC 4648, with the decoder's accumulator in wrapping signed 32-bit arithmetic.
 */
module Base64 {
  import opened Common

  type Sextet = v: int | 0 <= v < 64

  /** The alphabet: A-Z, a-z, 0-9, + and /. */
  function Letter(v: Sextet): char {
    if v < 26 then 'A' + v as char
    else if v < 52 then 'a' + (v - 26) as char
    else if v < 62 then '0' + (v - 52) as char
    else if v == 62 then '+'
    else '/'
  }

  /** `BASE64_LOOKUP.get`. */
  function Lookup(c: char): Option<Sextet> {
    if 'A' <= c <= 'Z' then Some(c as int - 'A' as int)
    else if 'a' <= c <= 'z' then Some(26 + c as int - 'a' as int)
    else if '0' <= c <= '9' then Some(52 + c as int - '0' as int)
    else if c == '+' then Some(62)
    else if c == '/' then Some(63)
    else None
  }

  /** The lookup inverts the alphabet, and knows no other character. */
  lemma LookupInvertsLetter(v: Sextet, c: char)
    ensures Lookup(c) == Some(v) <==> c == Letter(v)
    ensures Letter(v) != '='
  {
  }

  // Three bytes as four sextets.

  function First(a: byte): Sextet { a as int / 4 }
  function Second(a: byte, b: byte): Sextet { a as int % 4 * 16 + b as int / 16 }
  function Third(b: byte, c: byte): Sextet { b as int % 16 * 4 + c as int / 64 }
  function Fourth(c: byte): Sextet { c as int % 64 }

  /** The 24 bits of three bytes. */
  function Word(a: byte, b: byte, c: byte): (n: int)
    ensures 0 <= n < 0x100_0000
  {
    a as int * 0x1_0000 + b as int * 0x100 + c as int
  }

  lemma DivideBy64(n: int, q: int, r: int)
    requires n == q * 64 + r && 0 <= r < 64
    ensures n / 64 == q && n % 64 == r
  {
  }

  lemma DivideBy4096(n: int, q: int, r: int)
    requires n == q * 0x1000 + r && 0 <= r < 0x1000
    ensures n / 0x1000 == q
  {
  }

  lemma DivideBy262144(n: int, q: int, r: int)
    requires n == q * 0x4_0000 + r && 0 <= r < 0x4_0000
    ensures n / 0x4_0000 == q
  {
  }

  /** Shifting and masking the word gives its sextets. */
  lemma ShiftAndMask(a: byte, b: byte, c: byte)
    ensures var n := Word(a, b, c);
            && n / 0x4_0000 % 64 == First(a) && n / 0x1000 % 64 == Second(a, b) && n / 64 % 64 == Third(b, c)
              && n % 64 == Fourth(c)
  {
    var n, x, y, z := Word(a, b, c), a as int, b as int, c as int;
    DivideBy262144(n, x / 4, x % 4 * 0x1_0000 + y * 0x100 + z);
    DivideBy4096(n, x * 16 + y / 16, y % 16 * 0x100 + z);
    DivideBy64(x * 16 + y / 16, x / 4, x % 4 * 16 + y / 16);
    DivideBy64(n, x * 1024 + y * 4 + z / 64, z % 64);
    DivideBy64(x * 1024 + y * 4 + z / 64, x * 16 + y / 16, y % 16 * 4 + z / 64);
  }

  // Encoding.

  function FourLetters(a: byte, b: byte, c: byte): (s: string)
    ensures |s| == 4
  {
    [Letter(First(a)), Letter(Second(a, b)), Letter(Third(b, c)), Letter(Fourth(c))]
  }

  function Encode(bytes: Bytes): string {
    if bytes == [] then ""
    else if |bytes| == 1 then [Letter(First(bytes[0])), Letter(Second(bytes[0], 0)), '=', '=']
    else if |bytes| == 2
        then [Letter(First(bytes[0])), Letter(Second(bytes[0], bytes[1])), Letter(Third(bytes[1], 0)), '=']
    else FourLetters(bytes[0], bytes[1], bytes[2]) + Encode(bytes[3..])
  }

  method BytesToBase64(bytes: Bytes) returns (result: string)
    ensures result == Encode(bytes)
  {
    hide Word, First, Second, Third, Fourth, Letter;
    result := "";
    var i := 0;
    while i + 3 <= |bytes|
      invariant i <= |bytes|
      invariant Encode(bytes) == result + Encode(bytes[i..])
    {
      var n := Word(bytes[i], bytes[i + 1], bytes[i + 2]);
      ShiftAndMask(bytes[i], bytes[i + 1], bytes[i + 2]);
      assert bytes[i..][3..] == bytes[i + 3..];
      result := result + [Letter(n / 0x4_0000 % 64), Letter(n / 0x1000 % 64), Letter(n / 64 % 64), Letter(n % 64)];
      i := i + 3;
    }
    var remaining := |bytes| - i;
    if remaining == 1 {
      var n := Word(bytes[i], 0, 0);
      ShiftAndMask(bytes[i], 0, 0);
      result := result + [Letter(n / 0x4_0000 % 64), Letter(n / 0x1000 % 64), '=', '='];
    } else if remaining == 2 {
      var n := Word(bytes[i], bytes[i + 1], 0);
      ShiftAndMask(bytes[i], bytes[i + 1], 0);
      result := result + [Letter(n / 0x4_0000 % 64), Letter(n / 0x1000 % 64), Letter(n / 64 % 64), '='];
    } else {
      assert bytes[i..] == [];
      assert result + "" == result;
    }
  }

  // Decoding.

  /** How many sextets of a group have been read, the last of them, and the bytes so far. */
  datatype State = State(phase: nat, last: Sextet, out: Bytes)

  const START: State := State(0, 0, [])

  /**
   A byte is complete with the second, third and fourth sextet: the last bits of the one before it, then its own first
   bits.
   */
  function Feed(st: State, x: Sextet): State {
    if st.phase == 0 then State(1, x, st.out)
    else if st.phase == 1 then State(2, x, st.out + [(st.last * 4 + x / 16) as byte])
    else if st.phase == 2 then State(3, x, st.out + [(st.last % 16 * 16 + x / 4) as byte])
    else State(0, 0, st.out + [(st.last % 4 * 64 + x) as byte])
  }

  /** Letters are fed up to the first '='; any other character is skipped. */
  function DecodeFrom(st: State, s: string): State
    decreases |s|
  {
    if s == "" || s[0] == '=' then st
    else match Lookup(s[0])
      case None => DecodeFrom(st, s[1..])
      case Some(v) => DecodeFrom(Feed(st, v), s[1..])
  }

  function Decode(s: string): Bytes {
    DecodeFrom(START, s).out
  }

  /** Two's complement, 32 bits. */
  function ToInt32(x: int): int {
    (x + 0x8000_0000) % 0x1_0000_0000 - 0x8000_0000
  }

  /** `(buffer << 6) | value`. */
  function Shifted(buffer: int, x: Sextet): int {
    ToInt32(buffer * 64) + x
  }

  /** Wrapping takes away a multiple of 2^32. */
  lemma Wrapped(buffer: int, x: Sextet) returns (wraps: int)
    ensures Shifted(buffer, x) == buffer * 64 + x - wraps * 0x1_0000_0000
  {
    wraps := (buffer * 64 + 0x8000_0000) / 0x1_0000_0000;
  }

  lemma LowBits(buffer: int, x: Sextet)
    ensures Shifted(buffer, x) % 64 == x && Shifted(buffer, x) % 16 == x % 16 && Shifted(buffer, x) % 4 == x % 4
  {
    var wraps := Wrapped(buffer, x);
    hide Shifted;
    DivideBy64(Shifted(buffer, x), buffer - wraps * 0x400_0000, x);
  }

  lemma ByteAfterSix(buffer: int, last: Sextet, x: Sextet)
    requires buffer % 64 == last
    ensures Shifted(buffer, x) / 16 % 256 == last * 4 + x / 16
  {
    var wraps := Wrapped(buffer, x);
    var high := buffer / 64 - wraps * 0x10_0000;
    assert Shifted(buffer, x) == high * 4096 + (last * 64 + x);
    assert Shifted(buffer, x) / 16 == high * 256 + (last * 4 + x / 16);
  }

  lemma ByteAfterFour(buffer: int, last: int, x: Sextet)
    requires 0 <= last < 16 && buffer % 16 == last
    ensures Shifted(buffer, x) / 4 % 256 == last * 16 + x / 4
  {
    var wraps := Wrapped(buffer, x);
    var high := buffer / 16 - wraps * 0x40_0000;
    assert Shifted(buffer, x) == high * 1024 + (last * 64 + x);
    assert Shifted(buffer, x) / 4 == high * 256 + (last * 16 + x / 4);
  }

  lemma ByteAfterTwo(buffer: int, last: int, x: Sextet)
    requires 0 <= last < 4 && buffer % 4 == last
    ensures Shifted(buffer, x) % 256 == last * 64 + x
  {
    var wraps := Wrapped(buffer, x);
    var high := buffer / 4 - wraps * 0x100_0000;
    assert Shifted(buffer, x) == high * 256 + (last * 64 + x);
  }

  /** The bits not emitted yet are the low bits of the accumulator; anything may be left above them. */
  predicate Pending(buffer: int, bits: int, st: State) {
    if st.phase == 0 then bits == 0
    else if st.phase == 1 then bits == 6 && buffer % 64 == st.last
    else if st.phase == 2 then bits == 4 && buffer % 16 == st.last % 16
    else st.phase == 3 && bits == 2 && buffer % 4 == st.last % 4
  }

  /** `buffer >> bits`: an arithmetic shift, by 0, 2 or 4. */
  function ShiftRight(buffer: int, bits: int): int {
    if bits == 4 then buffer / 16 else if bits == 2 then buffer / 4 else buffer
  }

  /** One letter of the decoder's loop. */
  lemma DecodeLetter(buffer: int, bits: int, st: State, x: Sextet)
    requires Pending(buffer, bits, st)
    ensures var now := Shifted(buffer, x);
            if bits + 6 >= 8 then
              && Pending(now, bits - 2, Feed(st, x))
              && Feed(st, x).out == st.out + [(ShiftRight(now, bits - 2) % 256) as byte]
            else Pending(now, bits + 6, Feed(st, x)) && Feed(st, x).out == st.out
  {
    LowBits(buffer, x);
    if st.phase == 1 { ByteAfterSix(buffer, st.last, x); }
    if st.phase == 2 { ByteAfterFour(buffer, st.last % 16, x); }
    if st.phase == 3 { ByteAfterTwo(buffer, st.last % 4, x); }
    hide Shifted;
  }

  /** The accumulator is never masked: it only ever wraps. */
  method Base64ToBytes(b64: string) returns (out: Bytes)
    ensures out == Decode(b64)
  {
    hide Shifted, ShiftRight, Feed;
    out := [];
    var buffer, bits := 0, 0;
    ghost var st := START;
    assert b64[0..] == b64;
    for i := 0 to |b64|
      invariant DecodeFrom(START, b64) == DecodeFrom(st, b64[i..])
      invariant Pending(buffer, bits, st) && out == st.out
    {
      hide Pending;
      var c := b64[i];
      assert b64[i..][0] == c && b64[i..][1..] == b64[i + 1..];
      if c == '=' { return; }
      var value := Lookup(c);
      if value.None? { continue; }
      DecodeLetter(buffer, bits, st, value.value);
      buffer := Shifted(buffer, value.value);
      bits := bits + 6;
      if bits >= 8 {
        bits := bits - 8;
        out := out + [(ShiftRight(buffer, bits) % 256) as byte];
      }
      st := Feed(st, value.value);
    }
    assert b64[|b64|..] == "";
  }

  // The decoder inverts the encoder.

  lemma ReadLetter(st: State, v: Sextet, rest: string)
    ensures DecodeFrom(st, [Letter(v)] + rest) == DecodeFrom(Feed(st, v), rest)
  {
    LookupInvertsLetter(v, Letter(v));
    hide Feed, Letter, Lookup;
    assert ([Letter(v)] + rest)[1..] == rest;
  }

  lemma JoinFirst(a: byte, b: byte)
    ensures First(a) * 4 + Second(a, b) / 16 == a as int
  {
  }

  lemma JoinSecond(a: byte, b: byte, c: byte)
    ensures Second(a, b) % 16 * 16 + Third(b, c) / 4 == b as int
  {
  }

  lemma JoinThird(b: byte, c: byte)
    ensures Third(b, c) % 4 * 64 + Fourth(c) == c as int
  {
  }

  /** The sextets of a group complete its three bytes. */
  lemma FeedGroup(out: Bytes, a: byte, b: byte, c: byte)
    ensures var two := Feed(Feed(State(0, 0, out), First(a)), Second(a, b));
            && two == State(2, Second(a, b), out + [a])
            && Feed(two, Third(b, c)) == State(3, Third(b, c), out + [a] + [b])
            && Feed(Feed(two, Third(b, c)), Fourth(c)) == State(0, 0, out + [a] + [b] + [c])
  {
    JoinFirst(a, b);
    JoinSecond(a, b, c);
    JoinThird(b, c);
    hide First, Second, Third, Fourth;
  }

  lemma DecodeGroup(out: Bytes, a: byte, b: byte, c: byte, tail: string)
    ensures DecodeFrom(State(0, 0, out), FourLetters(a, b, c) + tail)
            == DecodeFrom(State(0, 0, out + [a] + [b] + [c]), tail)
  {
    hide First, Second, Third, Fourth, Feed, Letter, DecodeFrom;
    var last := [Letter(Fourth(c))] + tail;
    var rest := [Letter(Third(b, c))] + last;
    assert FourLetters(a, b, c) + tail == [Letter(First(a))] + ([Letter(Second(a, b))] + rest);
    hide FourLetters;
    FeedGroup(out, a, b, c);
    ReadTwo(out, First(a), Second(a, b), rest);
    var two := State(2, Second(a, b), out + [a]);
    ReadLetter(two, Third(b, c), last);
    ReadLetter(Feed(two, Third(b, c)), Fourth(c), tail);
  }

  lemma DecodeOneLeft(out: Bytes, a: byte)
    ensures DecodeFrom(State(0, 0, out), Encode([a])).out == out + [a]
  {
    hide First, Second, Third, Fourth, Feed, Letter, DecodeFrom;
    assert Encode([a]) == [Letter(First(a))] + ([Letter(Second(a, 0))] + "==");
    hide Encode;
    FeedGroup(out, a, 0, 0);
    ReadTwo(out, First(a), Second(a, 0), "==");
    EndOfText(State(2, Second(a, 0), out + [a]));
  }

  lemma DecodeTwoLeft(out: Bytes, a: byte, b: byte)
    ensures DecodeFrom(State(0, 0, out), Encode([a, b])).out == out + [a] + [b]
  {
    hide First, Second, Third, Fourth, Feed, Letter, DecodeFrom;
    var rest := [Letter(Third(b, 0))] + "=";
    assert Encode([a, b]) == [Letter(First(a))] + ([Letter(Second(a, b))] + rest);
    hide Encode;
    FeedGroup(out, a, b, 0);
    ReadTwo(out, First(a), Second(a, b), rest);
    var two := State(2, Second(a, b), out + [a]);
    ReadLetter(two, Third(b, 0), "=");
    EndOfText(Feed(two, Third(b, 0)));
  }

  /** Base64 round trip, at any length, whatever was decoded before. */
  lemma {:induction false} DecodeAfter(out: Bytes, bytes: Bytes)
    ensures DecodeFrom(State(0, 0, out), Encode(bytes)).out == out + bytes
    decreases |bytes|
  {
    hide FourLetters, Feed, DecodeFrom;
    if bytes == [] {
      EndOfText(State(0, 0, out));
      assert out + [] == out;
    } else if |bytes| == 1 {
      DecodeOneLeft(out, bytes[0]);
      assert bytes == [bytes[0]];
    } else if |bytes| == 2 {
      DecodeTwoLeft(out, bytes[0], bytes[1]);
      assert bytes == [bytes[0], bytes[1]] && out + [bytes[0]] + [bytes[1]] == out + bytes;
    } else {
      DecodeGroup(out, bytes[0], bytes[1], bytes[2], Encode(bytes[3..]));
      DecodeAfter(out + [bytes[0]] + [bytes[1]] + [bytes[2]], bytes[3..]);
      assert Encode(bytes) == FourLetters(bytes[0], bytes[1], bytes[2]) + Encode(bytes[3..]);
      hide Encode;
      assert out + [bytes[0]] + [bytes[1]] + [bytes[2]] + bytes[3..] == out + bytes;
    }
  }

  lemma EndOfText(st: State)
    ensures DecodeFrom(st, "") == DecodeFrom(st, "=") == DecodeFrom(st, "==") == st
  {
  }

  lemma ReadTwo(out: Bytes, x: Sextet, y: Sextet, rest: string)
    ensures DecodeFrom(State(0, 0, out), [Letter(x)] + ([Letter(y)] + rest))
            == DecodeFrom(Feed(Feed(State(0, 0, out), x), y), rest)
  {
    hide Feed, Letter, DecodeFrom;
    ReadLetter(State(0, 0, out), x, [Letter(y)] + rest);
    ReadLetter(Feed(State(0, 0, out), x), y, rest);
  }

  /** The decoder inverts the encoder, for any bytes. */
  lemma DecodeEncode(bytes: Bytes)
    ensures Decode(Encode(bytes)) == bytes
  {
    hide Encode, DecodeFrom;
    DecodeAfter([], bytes);
    assert [] + bytes == bytes;
  }

  /** Characters outside the alphabet, such as line breaks, may be inserted anywhere. */
  lemma {:induction false} WhitespaceIsIgnored(st: State, a: string, c: char, b: string)
    requires Lookup(c).None? && c != '='
    ensures DecodeFrom(st, a + [c] + b) == DecodeFrom(st, a + b)
    decreases |a|
  {
    hide Feed;
    if a == "" {
      assert ([c] + b)[1..] == b && a + [c] + b == [c] + b && a + b == b;
    } else {
      assert (a + [c] + b)[1..] == a[1..] + [c] + b && (a + b)[1..] == a[1..] + b;
      if a[0] != '=' {
        WhitespaceIsIgnored(if Lookup(a[0]).Some? then Feed(st, Lookup(a[0]).value) else st, a[1..], c, b);
      }
    }
  }

  /** The alphabet letters of a text, up to its first '='. */
  function Letters(s: string): string
    decreases |s|
  {
    if s == "" || s[0] == '=' then "" else (if Lookup(s[0]).Some? then [s[0]] else "") + Letters(s[1..])
  }

  /** Nothing else of a text has any effect. */
  lemma {:induction false} OnlyLettersMatter(st: State, s: string)
    ensures DecodeFrom(st, s) == DecodeFrom(st, Letters(s))
    decreases |s|
  {
    hide Feed;
    if s != "" && s[0] != '=' {
      match Lookup(s[0])
      case None =>
        OnlyLettersMatter(st, s[1..]);
        assert Letters(s) == Letters(s[1..]);
      case Some(v) =>
        OnlyLettersMatter(Feed(st, v), s[1..]);
        assert Letters(s)[0] == s[0] && Letters(s)[1..] == Letters(s[1..]);
    }
  }

  /** However the encoded text is broken into lines, spaced or stripped of its padding, it decodes to the bytes. */
  lemma DecodeReflowed(bytes: Bytes, s: string)
    requires Letters(s) == Letters(Encode(bytes))
    ensures Decode(s) == bytes
  {
    hide Letters, DecodeFrom, Encode;
    OnlyLettersMatter(START, s);
    OnlyLettersMatter(START, Encode(bytes));
    DecodeEncode(bytes);
  }

  /** `s` is `t` with characters outside the alphabet, other than '=', inserted anywhere. */
  predicate Reflows(s: string, t: string)
    decreases |s|
  {
    if s == "" then t == ""
    else || (Lookup(s[0]).None? && s[0] != '=' && Reflows(s[1..], t))
         || (t != "" && s[0] == t[0] && Reflows(s[1..], t[1..]))
  }

  /** Inserting characters outside the alphabet keeps the letters. */
  lemma {:induction false} InsertionsKeepLetters(s: string, t: string)
    requires Reflows(s, t)
    ensures Letters(s) == Letters(t)
    decreases |s|
  {
    if s != "" {
      if Reflows(s[1..], t) && Lookup(s[0]).None? && s[0] != '=' {
        InsertionsKeepLetters(s[1..], t);
      } else if s[0] != '=' {
        InsertionsKeepLetters(s[1..], t[1..]);
      }
    }
  }

  /** A line-broken or spaced encoding decodes to the bytes. */
  lemma DecodeSpaced(bytes: Bytes, s: string)
    requires Reflows(s, Encode(bytes))
    ensures Decode(s) == bytes
  {
    hide Letters, Encode;
    InsertionsKeepLetters(s, Encode(bytes));
    DecodeReflowed(bytes, s);
  }

  /** Section 4 of RFC 4648: four characters for every three bytes begun, alphabet letters, then the padding. */
  ghost predicate WellFormed(s: string, n: nat, padding: nat) {
    && |s| == 4 * n && padding <= |s|
    && (forall i :: 0 <= i < |s| - padding ==> Lookup(s[i]).Some?)
    && (forall i :: |s| - padding <= i < |s| ==> s[i] == '=')
  }

  function PaddingFor(bytes: Bytes): nat {
    if |bytes| % 3 == 0 then 0 else 3 - |bytes| % 3
  }

  lemma GlueShape(head: string, tail: string, n: nat, padding: nat)
    requires |head| == 4 && (forall i :: 0 <= i < 4 ==> Lookup(head[i]).Some?) && WellFormed(tail, n, padding)
    ensures WellFormed(head + tail, n + 1, padding)
  {
    hide Lookup;
  }

  lemma GroupOfLetters(a: byte, b: byte, c: byte)
    ensures forall i :: 0 <= i < 4 ==> Lookup(FourLetters(a, b, c)[i]).Some?
  {
    forall v: Sextet ensures Lookup(Letter(v)).Some? { LookupInvertsLetter(v, Letter(v)); }
    hide Lookup, Letter, First, Second, Third, Fourth;
  }

  lemma {:induction false} EncodedShape(bytes: Bytes)
    ensures WellFormed(Encode(bytes), (|bytes| + 2) / 3, PaddingFor(bytes))
    decreases |bytes|
  {
    if |bytes| >= 3 {
      hide WellFormed, FourLetters, Lookup, PaddingFor;
      EncodedShape(bytes[3..]);
      GroupOfLetters(bytes[0], bytes[1], bytes[2]);
      GlueShape(FourLetters(bytes[0], bytes[1], bytes[2]), Encode(bytes[3..]), (|bytes[3..]| + 2) / 3,
                PaddingFor(bytes[3..]));
      SameRemainder(bytes);
    } else {
      forall v: Sextet ensures Lookup(Letter(v)).Some? { LookupInvertsLetter(v, Letter(v)); }
      hide Lookup, Letter, First, Second, Third, Fourth;
    }
  }

  lemma SameRemainder(bytes: Bytes)
    requires |bytes| >= 3
    ensures (|bytes| + 2) / 3 == (|bytes[3..]| + 2) / 3 + 1 && PaddingFor(bytes) == PaddingFor(bytes[3..])
  {
  }

  // Comparing and joining.

  /** The low `n` bits of a ^ b. */
  function Xor(a: nat, b: nat, n: nat): nat {
    if n == 0 then 0 else 2 * Xor(a / 2, b / 2, n - 1) + if a % 2 == b % 2 then 0 else 1
  }

  /** The low `n` bits of a | b. */
  function Or(a: nat, b: nat, n: nat): nat {
    if n == 0 then 0 else 2 * Or(a / 2, b / 2, n - 1) + if a % 2 == 0 && b % 2 == 0 then 0 else 1
  }

  function Power(n: nat): nat {
    if n == 0 then 1 else 2 * Power(n - 1)
  }

  lemma {:induction false} XorZero(a: nat, b: nat, n: nat)
    requires a < Power(n) && b < Power(n)
    ensures Xor(a, b, n) == 0 <==> a == b
    ensures Xor(a, b, n) < Power(n)
  {
    if n > 0 { XorZero(a / 2, b / 2, n - 1); }
  }

  lemma {:induction false} OrZero(a: nat, b: nat, n: nat)
    requires a < Power(n) && b < Power(n)
    ensures Or(a, b, n) == 0 <==> a == 0 && b == 0
    ensures Or(a, b, n) < Power(n)
  {
    if n > 0 { OrZero(a / 2, b / 2, n - 1); }
  }

  lemma EightBits()
    ensures Power(8) == 256
  {
    assert Power(2) == 4 && Power(4) == 16 && Power(6) == 64;
  }

  method BytesEqual(a: Bytes, b: Bytes) returns (equal: bool)
    ensures equal == (a == b)
  {
    if |a| != |b| { return false; }
    hide Or, Xor, Power;
    EightBits();
    var diff: nat := 0;
    for i := 0 to |a|
      invariant diff < 256
      invariant diff == 0 <==> a[..i] == b[..i]
    {
      var x, y := a[i] as int, b[i] as int;
      XorZero(x, y, 8);
      OrZero(diff, Xor(x, y, 8), 8);
      assert a[..i + 1] == a[..i] + [a[i]] && b[..i + 1] == b[..i] + [b[i]];
      diff := Or(diff, Xor(x, y, 8), 8);
    }
    assert a[..|a|] == a && b[..|b|] == b;
    return diff == 0;
  }

  function Concat(chunks: seq<Bytes>): Bytes {
    if chunks == [] then [] else Concat(chunks[..|chunks| - 1]) + chunks[|chunks| - 1]
  }

  lemma ConcatNext(chunks: seq<Bytes>, i: nat)
    requires i < |chunks|
    ensures Concat(chunks[..i + 1]) == Concat(chunks[..i]) + chunks[i]
  {
    assert chunks[..i + 1][..i] == chunks[..i];
  }

  /** The result is one array, filled chunk by chunk. */
  method ConcatBytes(chunks: seq<Bytes>) returns (out: array<byte>)
    ensures fresh(out) && out[..] == Concat(chunks)
  {
    var total := 0;
    for i := 0 to |chunks|
      invariant total == |Concat(chunks[..i])|
    {
      ConcatNext(chunks, i);
      hide Concat;
      total := total + |chunks[i]|;
    }
    assert chunks[..|chunks|] == chunks;
    out := new byte[total](_ => 0);
    var offset := 0;
    for i := 0 to |chunks|
      invariant offset <= total
      invariant offset == |Concat(chunks[..i])| && out[..offset] == Concat(chunks[..i])
    {
      hide Concat;
      ConcatNext(chunks, i);
      ConcatGrows(chunks, i + 1);
      SetAt(out, chunks[i], offset);
      offset := offset + |chunks[i]|;
    }
    assert out[..offset] == out[..];
  }

  /** `out.set(chunk, offset)`. */
  method SetAt(out: array<byte>, chunk: Bytes, offset: nat)
    requires offset + |chunk| <= out.Length
    modifies out
    ensures out[..offset + |chunk|] == old(out[..offset]) + chunk
  {
    for j := 0 to |chunk|
      invariant out[..offset] == old(out[..offset])
      invariant out[offset..offset + j] == chunk[..j]
    {
      out[offset + j] := chunk[j];
    }
    assert out[..offset + |chunk|] == out[..offset] + out[offset..offset + |chunk|];
  }

  lemma {:induction false} ConcatGrows(chunks: seq<Bytes>, i: nat)
    requires i <= |chunks|
    ensures |Concat(chunks[..i])| <= |Concat(chunks)|
    decreases |chunks| - i
  {
    if i < |chunks| {
      ConcatNext(chunks, i);
      ConcatGrows(chunks, i + 1);
    } else {
      assert chunks[..i] == chunks;
    }
  }
}
