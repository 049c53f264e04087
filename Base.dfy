/** Shared vocabulary of the model: bytes, the error values the Go code returns,
    Go's string helpers (strings, strconv, path) and big-endian integers.

    A Go `string` is a sequence of bytes. The model writes it as a Dafny `string`
    holding one `char` per byte, so `len(s)`, `s[i]` and `s[:n]` keep their Go
    meaning; `ToBytes` turns such a string into the bytes written to a file. */
module Base {

  newtype byte = x: int | 0 <= x < 256

  datatype Option<T> = None | Some(value: T)

  /** The errors the modelled Go code returns or panics with. */
  datatype Error =
    | Unexpected(line: string)        // fmt.Errorf("unexpected %s", ln) while parsing a playlist
    | UnexpectedEOF                   // io.ErrUnexpectedEOF: input ended with a file pending
    | NotExist                        // fs.ErrNotExist (missing file, takeFile / offsetFile miss)
    | MalformedByteRange              // "malformed #EXT-X-BYTERANGE:" (no '@')
    | InvalidSyntax(text: string)     // strconv.ParseInt failure
    | CouldNotRemoveStream(id: int)   // fixMaster: audio playlist missing from the master
    | UnsupportedMediaType(name: string)  // the panic of hlsFlags / hlsFlagsName
    | VideoTrackMissing               // prepareVideo: no video stream

  datatype Result<T> = Ok(value: T) | Err(error: Error)

  /** The video codec enumeration of codec.go (`type Codec int` with iota
      constants). Other integer values are representable, as in Go. */
  newtype Codec = int
  const H264: Codec := 0
  const HEVC: Codec := 1
  const AV1: Codec := 2

  // ---------------------------------------------------------------------------
  // Decimal numbers (strconv.Itoa / FormatInt / ParseInt, fmt's %d)
  // ---------------------------------------------------------------------------

  function DigitChar(d: nat): char
    requires d < 10
  {
    "0123456789"[d]
  }

  predicate IsDigit(c: char) { '0' <= c <= '9' }

  predicate AllDigits(s: string) { forall i :: 0 <= i < |s| ==> IsDigit(s[i]) }

  /** The decimal text of `n`, without leading zeros. */
  function NatToString(n: nat): (s: string)
    ensures |s| > 0 && AllDigits(s)
    ensures s[0] == '0' ==> n == 0
  {
    if n < 10 then [DigitChar(n)] else NatToString(n / 10) + [DigitChar(n % 10)]
  }

  /** strconv.FormatInt(i, 10): a '-' before the digits of a negative number. */
  function IntToString(i: int): string
  {
    if i < 0 then "-" + NatToString(-i) else NatToString(i)
  }

  /** The value of a string of decimal digits. */
  function DigitsValue(s: string): nat
    requires AllDigits(s)
  {
    if s == [] then 0 else DigitsValue(s[..|s| - 1]) * 10 + (s[|s| - 1] as int - '0' as int)
  }

  const MinInt64: int := -0x8000_0000_0000_0000
  const MaxInt64: int := 0x7FFF_FFFF_FFFF_FFFF

  predicate InInt64(i: int) { MinInt64 <= i <= MaxInt64 }

  /** strconv.ParseInt(s, 10, 64): an optional sign, at least one digit and
      nothing else, with a value that fits in 64 bits. */
  function ParseInt(s: string): (r: Option<int>)
    ensures r.Some? ==> InInt64(r.value)
  {
    var neg := |s| > 0 && s[0] == '-';
    var digits := if |s| > 0 && (s[0] == '-' || s[0] == '+') then s[1..] else s;
    if |digits| == 0 || !AllDigits(digits) then None
    else
      var v: int := if neg then -(DigitsValue(digits) as int) else DigitsValue(digits);
      if InInt64(v) then Some(v) else None
  }

  /** Go's int64 addition, which wraps around modulo 2^64. */
  function AddInt64(a: int, b: int): (r: int)
    requires InInt64(a) && InInt64(b)
    ensures InInt64(r)
    ensures InInt64(a + b) ==> r == a + b
  {
    var s := a + b;
    if s > MaxInt64 then s - 0x1_0000_0000_0000_0000
    else if s < MinInt64 then s + 0x1_0000_0000_0000_0000
    else s
  }

  lemma {:induction false} DigitsValueAppend(s: string, c: char)
    requires AllDigits(s) && IsDigit(c)
    ensures AllDigits(s + [c])
    ensures DigitsValue(s + [c]) == DigitsValue(s) * 10 + (c as int - '0' as int)
  {
    assert (s + [c])[..|s + [c]| - 1] == s;
  }

  /** Printing a number and reading it back gives the number. */
  lemma {:induction false} NatToStringValue(n: nat)
    ensures DigitsValue(NatToString(n)) == n
  {
    if n >= 10 {
      var q, r := n / 10, n % 10;
      assert n == q * 10 + r;
      assert DigitChar(r) as int - '0' as int == r;
      NatToStringValue(q);
      DigitsValueAppend(NatToString(q), DigitChar(r));
    } else {
      assert DigitChar(n) as int - '0' as int == n;
      assert [DigitChar(n)][..0] == [];
    }
  }

  /** strconv.ParseInt reads back what strconv.FormatInt wrote. */
  lemma ParseFormatInt(i: int)
    requires InInt64(i)
    ensures ParseInt(IntToString(i)) == Some(i)
  {
    if i < 0 {
      ParseNegative(-i);
    } else {
      ParseNatural(i);
    }
  }

  lemma ParseNegative(n: nat)
    requires 0 < n <= -MinInt64
    ensures ParseInt("-" + NatToString(n)) == Some(-(n as int))
  {
    var d := NatToString(n);
    NatToStringValue(n);
    var s := "-" + d;
    assert s[0] == '-' && s[1..] == d;
  }

  lemma ParseNatural(n: nat)
    requires n <= MaxInt64
    ensures ParseInt(NatToString(n)) == Some(n)
  {
    NatToStringValue(n);
  }

  /** Distinct numbers print differently. */
  lemma NatToStringInjective(a: nat, b: nat)
    requires NatToString(a) == NatToString(b)
    ensures a == b
  {
    NatToStringValue(a);
    NatToStringValue(b);
  }

  // ---------------------------------------------------------------------------
  // strings and path helpers
  // ---------------------------------------------------------------------------

  /** The ASCII white space strings.TrimSpace removes. */
  predicate IsSpace(c: char)
  {
    c == ' ' || c == '\t' || c == '\n' || c == '\r' || c == '\U{0B}' || c == '\U{0C}'
  }

  function TrimLeft(s: string): (r: string)
    ensures |r| <= |s| && r == s[|s| - |r|..]
    ensures r == [] || !IsSpace(r[0])
    ensures forall i :: 0 <= i < |s| - |r| ==> IsSpace(s[i])
  {
    if s != [] && IsSpace(s[0]) then TrimLeft(s[1..]) else s
  }

  function TrimRight(s: string): (r: string)
    ensures |r| <= |s| && r == s[..|r|]
    ensures r == [] || !IsSpace(r[|r| - 1])
    ensures forall i :: |r| <= i < |s| ==> IsSpace(s[i])
  {
    if s != [] && IsSpace(s[|s| - 1]) then TrimRight(s[..|s| - 1]) else s
  }

  /** strings.TrimSpace restricted to ASCII white space. */
  function TrimSpace(s: string): (r: string)
    ensures r == [] || (!IsSpace(r[0]) && !IsSpace(r[|r| - 1]))
  {
    TrimRight(TrimLeft(s))
  }

  /** A string with no white space at either end is its own TrimSpace. */
  lemma TrimSpaceTrimmed(s: string)
    requires s == [] || (!IsSpace(s[0]) && !IsSpace(s[|s| - 1]))
    ensures TrimSpace(s) == s
  {
  }

  /** strings.Join. */
  function Join(parts: seq<string>, sep: string): string
  {
    if parts == [] then ""
    else if |parts| == 1 then parts[0]
    else Join(parts[..|parts| - 1], sep) + sep + parts[|parts| - 1]
  }

  /** The index of the first `c` in `s` (strings.IndexByte), if any. */
  function IndexOfChar(s: string, c: char): (r: Option<nat>)
    ensures r.Some? ==> r.value < |s| && s[r.value] == c && c !in s[..r.value]
    ensures r.None? ==> c !in s
  {
    if s == [] then None
    else if s[0] == c then Some(0)
    else match IndexOfChar(s[1..], c)
      case None => None
      case Some(k) => Some(k + 1)
  }

  /** path.Ext: the suffix from the final '.' of the last '/'-separated element,
      or "" when that element has no '.'. */
  function Ext(path: string): string
  {
    if path == [] || path[|path| - 1] == '/' then ""
    else if path[|path| - 1] == '.' then path[|path| - 1..]
    else
      var e := Ext(path[..|path| - 1]);
      if e == [] then [] else e + [path[|path| - 1]]
  }

  /** The extension is a suffix of the path, empty or starting with '.', and
      it never reaches back past a '/'. */
  lemma {:induction false} ExtSuffix(path: string)
    ensures |Ext(path)| <= |path| && Ext(path) == path[|path| - |Ext(path)|..]
    ensures Ext(path) == [] || (Ext(path)[0] == '.' && '/' !in Ext(path))
  {
    if path != [] && path[|path| - 1] != '/' && path[|path| - 1] != '.' {
      var p := path[..|path| - 1];
      ExtSuffix(p);
      var e := Ext(p);
      if e != [] {
        assert path[|path| - |e| - 1..] == p[|p| - |e|..] + [path[|path| - 1]];
      }
    }
  }

  /** Writes `"` before and after a value, as `fmt.Sprintf("\"%s\"", v)`. */
  function Quote(v: string): string { "\"" + v + "\"" }

  /** The bytes of a Go string (one char per byte). */
  function ToBytes(s: string): (b: seq<byte>)
    ensures |b| == |s|
  {
    seq(|s|, i requires 0 <= i < |s| => (s[i] as int % 256) as byte)
  }

  lemma ToBytesAppend(a: string, b: string)
    ensures ToBytes(a + b) == ToBytes(a) + ToBytes(b)
  {
  }

  // ---------------------------------------------------------------------------
  // big-endian integers (encoding/binary.BigEndian.PutUint32 / PutUint64)
  // ---------------------------------------------------------------------------

  function Pow256(n: nat): (r: nat)
    ensures r > 0
  {
    if n == 0 then 1 else 256 * Pow256(n - 1)
  }

  /** The `width` low-order bytes of `v`, most significant first; for a value
      below 256^width this is BigEndian.PutUint32 (width 4) or PutUint64 (8). */
  function BigEndian(v: nat, width: nat): (b: seq<byte>)
    ensures |b| == width
  {
    if width == 0 then [] else BigEndian(v / 256, width - 1) + [(v % 256) as byte]
  }

  /** Reads a big-endian unsigned integer (BigEndian.Uint32 / Uint64). */
  function FromBigEndian(b: seq<byte>): nat
  {
    if b == [] then 0 else FromBigEndian(b[..|b| - 1]) * 256 + b[|b| - 1] as int
  }

  /** Reading back a big-endian encoding of a value that fits gives the value. */
  lemma {:induction false} FromBigEndianRoundTrip(v: nat, width: nat)
    requires v < Pow256(width)
    ensures FromBigEndian(BigEndian(v, width)) == v
  {
    if width > 0 {
      var q, r := v / 256, v % 256;
      assert v == q * 256 + r;
      assert q < Pow256(width - 1);
      var b := BigEndian(v, width);
      assert b == BigEndian(q, width - 1) + [r as byte];
      assert b[..|b| - 1] == BigEndian(q, width - 1);
      FromBigEndianRoundTrip(q, width - 1);
    }
  }

  const U32: nat := 0x1_0000_0000
  const U64: nat := 0x1_0000_0000_0000_0000

  /** PutUint32 of the Go conversion uint32(v): the value modulo 2^32. */
  function BE32(v: int): (b: seq<byte>)
    ensures |b| == 4
  {
    BigEndian(v % U32, 4)
  }

  /** PutUint64 of the Go conversion uint64(v): the value modulo 2^64. */
  function BE64(v: int): (b: seq<byte>)
    ensures |b| == 8
  {
    BigEndian(v % U64, 8)
  }

  lemma BE32RoundTrip(v: int)
    ensures FromBigEndian(BE32(v)) == v % U32
  {
    assert Pow256(4) == U32;
    FromBigEndianRoundTrip(v % U32, 4);
  }

  lemma BE64RoundTrip(v: int)
    ensures FromBigEndian(BE64(v)) == v % U64
  {
    assert Pow256(8) == U64;
    FromBigEndianRoundTrip(v % U64, 8);
  }
}
