/** The store key of a UE: the big-endian byte fold, the `%x` printer and the
    five-field key string, with a parser that inverts the printer. */
module UeKey {
  import opened Wrappers

  type Byte = b: int | 0 <= b < 256

  const TWO_64: int := 0x1_0000_0000_0000_0000

  type Uint64 = n: int | 0 <= n < 0x1_0000_0000_0000_0000

  type Int64 = n: int | -0x8000_0000_0000_0000 <= n < 0x8000_0000_0000_0000

  datatype Guami = Guami(plmnIdentity: seq<Byte>, amfRegionId: seq<Byte>, amfSetId: seq<Byte>, amfPointer: seq<Byte>)

  datatype UeidGnb = UeidGnb(guami: Guami, amfUeNgapId: Int64)

  /** A UE ID is a protobuf choice; only the gNB alternative is supported. */
  datatype UeId = GnbUeId(gnb: UeidGnb) | OtherUeId(alternative: nat)

  // ---------- the byte fold ----------

  /** The number a byte sequence spells in base 256, most significant byte first. */
  function BigEndian(b: seq<Byte>): nat {
    if b == [] then 0 else BigEndian(b[..|b| - 1]) * 256 + b[|b| - 1]
  }

  function Pow256(n: nat): nat {
    if n == 0 then 1 else 256 * Pow256(n - 1)
  }

  /** The value of the byte fold in 64-bit unsigned arithmetic. */
  function Uint64Of(b: seq<Byte>): Uint64 {
    BigEndian(b) % TWO_64
  }

  /** The shift-and-add loop: both the shift and the addition wrap at 2^64. */
  method BytesToUint64(b: seq<Byte>) returns (result: Uint64)
    ensures result == BigEndian(b) % TWO_64
  {
    result := 0;
    for i := 0 to |b|
      invariant result == BigEndian(b[..i]) % TWO_64
    {
      assert b[..i + 1][..i] == b[..i];
      WrapStep(BigEndian(b[..i]), b[i]);
      result := ((result * 256) % TWO_64 + b[i]) % TWO_64;
    }
    assert b[..|b|] == b;
  }

  lemma WrapStep(x: nat, e: Byte)
    ensures (((x % TWO_64) * 256) % TWO_64 + e) % TWO_64 == (x * 256 + e) % TWO_64
  {
  }

  lemma ModShift(q: nat, r: nat)
    ensures (q * TWO_64 + r) % TWO_64 == r % TWO_64
  {
  }

  lemma {:induction false} BigEndianConcat(a: seq<Byte>, b: seq<Byte>)
    ensures BigEndian(a + b) == BigEndian(a) * Pow256(|b|) + BigEndian(b)
  {
    if b == [] {
      assert a + b == a;
    } else {
      var b' := b[..|b| - 1];
      assert (a + b)[..|a + b| - 1] == a + b';
      BigEndianConcat(a, b');
      assert BigEndian(a) * Pow256(|b'|) * 256 == BigEndian(a) * Pow256(|b|);
    }
  }

  lemma {:induction false} BigEndianBound(b: seq<Byte>)
    ensures BigEndian(b) < Pow256(|b|)
  {
    if b != [] {
      BigEndianBound(b[..|b| - 1]);
    }
  }

  lemma Pow256Of8()
    ensures Pow256(8) == TWO_64
  {
  }

  lemma {:induction false} BigEndianInjective(a: seq<Byte>, b: seq<Byte>)
    requires |a| == |b| && BigEndian(a) == BigEndian(b)
    ensures a == b
  {
    if a != [] {
      var a', b' := a[..|a| - 1], b[..|b| - 1];
      assert a[|a| - 1] == b[|b| - 1] && BigEndian(a') == BigEndian(b');
      BigEndianInjective(a', b');
      assert a == a' + [a[|a| - 1]] && b == b' + [b[|b| - 1]];
    }
  }

  function Zeros(n: nat): (z: seq<Byte>)
    ensures |z| == n
  {
    seq(n, _ => 0)
  }

  lemma {:induction false} BigEndianZeros(n: nat)
    ensures BigEndian(Zeros(n)) == 0
  {
    if n > 0 {
      assert Zeros(n)[..n - 1] == Zeros(n - 1);
      BigEndianZeros(n - 1);
    }
  }

  /** The last eight bytes, padded on the left with zeros when there are fewer. */
  function Last8(b: seq<Byte>): (r: seq<Byte>)
    ensures |r| == 8
  {
    if |b| >= 8 then b[|b| - 8..] else Zeros(8 - |b|) + b
  }

  /** The wrapped fold is exact on the last eight bytes and blind to the rest. */
  lemma FoldIsLast8(b: seq<Byte>)
    ensures Uint64Of(b) == BigEndian(Last8(b))
  {
    Pow256Of8();
    BigEndianBound(Last8(b));
    if |b| >= 8 {
      var hi, lo := b[..|b| - 8], b[|b| - 8..];
      assert b == hi + lo;
      BigEndianConcat(hi, lo);
      ModShift(BigEndian(hi), BigEndian(lo));
    } else {
      BigEndianConcat(Zeros(8 - |b|), b);
      BigEndianZeros(8 - |b|);
    }
  }

  /** Two byte fields of any lengths fold to the same number exactly when their
      last eight bytes, zero-extended, are the same. */
  lemma FoldEqualIff(a: seq<Byte>, b: seq<Byte>)
    ensures Uint64Of(a) == Uint64Of(b) <==> Last8(a) == Last8(b)
  {
    FoldIsLast8(a);
    FoldIsLast8(b);
    if Uint64Of(a) == Uint64Of(b) {
      BigEndianInjective(Last8(a), Last8(b));
    }
  }

  lemma Last8OfShort(a: seq<Byte>)
    requires |a| <= 8
    ensures Last8(a) == Zeros(8 - |a|) + a
    ensures Last8(a)[8 - |a|..] == a
  {
  }

  /** Up to eight bytes nothing is lost: the fold is the exact big-endian value, and
      equally long fields fold to the same number only if they are equal. */
  lemma FoldExactAndInjective(a: seq<Byte>, b: seq<Byte>)
    requires |a| == |b| <= 8
    ensures Uint64Of(a) == BigEndian(a)
    ensures Uint64Of(a) == Uint64Of(b) <==> a == b
  {
    FoldIsLast8(a);
    Last8OfShort(a);
    Last8OfShort(b);
    BigEndianConcat(Zeros(8 - |a|), a);
    BigEndianZeros(8 - |a|);
    if Uint64Of(a) == Uint64Of(b) {
      FoldEqualIff(a, b);
    }
  }

  // ---------- the hexadecimal printer ----------

  const DIGITS: string := "0123456789abcdef"

  function Hex(n: nat): (s: string)
    ensures |s| > 0
  {
    if n < 16 then [DIGITS[n]] else Hex(n / 16) + [DIGITS[n % 16]]
  }

  /** `%x` of a signed integer: a minus sign, then the magnitude. */
  function HexInt(n: int): string {
    if n < 0 then "-" + Hex(-n) else Hex(n)
  }

  predicate IsHexDigit(c: char) {
    '0' <= c <= '9' || 'a' <= c <= 'f'
  }

  function DigitValue(c: char): nat
    requires IsHexDigit(c)
  {
    if '0' <= c <= '9' then (c as int) - ('0' as int) else (c as int) - ('a' as int) + 10
  }

  predicate AllHexDigits(s: string) {
    forall i :: 0 <= i < |s| ==> IsHexDigit(s[i])
  }

  function HexValue(s: string): nat
    requires AllHexDigits(s)
  {
    if s == "" then 0 else HexValue(s[..|s| - 1]) * 16 + DigitValue(s[|s| - 1])
  }

  lemma DigitRoundTrip(d: nat)
    requires d < 16
    ensures IsHexDigit(DIGITS[d]) && DigitValue(DIGITS[d]) == d
  {
  }

  lemma HexValueSnoc(s: string, c: char)
    requires AllHexDigits(s) && IsHexDigit(c)
    ensures AllHexDigits(s + [c]) && HexValue(s + [c]) == HexValue(s) * 16 + DigitValue(c)
  {
    assert (s + [c])[..|s|] == s;
  }

  lemma {:induction false} HexRoundTrip(n: nat)
    ensures AllHexDigits(Hex(n)) && HexValue(Hex(n)) == n
  {
    hide DigitValue, IsHexDigit, HexValue;
    DigitRoundTrip(n % 16);
    if n < 16 {
      HexValueOfNothing();
      HexValueSnoc("", DIGITS[n]);
      assert "" + [DIGITS[n]] == [DIGITS[n]];
    } else {
      HexRoundTrip(n / 16);
      HexValueSnoc(Hex(n / 16), DIGITS[n % 16]);
    }
  }

  /** The printed digits are lower case and have no leading zero. */
  lemma {:induction false} HexIsCanonical(n: nat)
    ensures forall i :: 0 <= i < |Hex(n)| ==> Hex(n)[i] in "0123456789abcdef"
    ensures Hex(n)[0] == '0' ==> Hex(n) == "0" && n == 0
  {
    if n >= 16 {
      HexIsCanonical(n / 16);
    }
  }

  lemma HexValueOfNothing()
    ensures HexValue("") == 0
  {
  }

  /** The number of leading hexadecimal digits. */
  function Span(s: string): (n: nat)
    ensures n <= |s| && AllHexDigits(s[..n])
  {
    if s == "" || !IsHexDigit(s[0]) then 0 else
      var n := 1 + Span(s[1..]);
      assert s[..n] == [s[0]] + s[1..][..n - 1];
      n
  }

  lemma {:induction false} SpanOfDigits(d: string, rest: string)
    requires AllHexDigits(d) && (rest == "" || !IsHexDigit(rest[0]))
    ensures Span(d + rest) == |d|
  {
    if d == "" {
      assert d + rest == rest;
    } else {
      assert (d + rest)[1..] == d[1..] + rest;
      SpanOfDigits(d[1..], rest);
    }
  }

  // ---------- the key string ----------

  const LABELS: seq<string> := ["plmnID", "amfRegionID", "amfSetID", "amfPointer", "amfUeNgapID"]

  /** The labelled fields `label:hex`, separated by slashes. */
  function Render(labels: seq<string>, nums: seq<int>): string
    requires |labels| == |nums|
  {
    if labels == [] then "" else
      labels[0] + ":" + HexInt(nums[0])
      + (if |labels| == 1 then "" else "/" + Render(labels[1..], nums[1..]))
  }

  /** Reads the leading hexadecimal digits as a number and returns the rest. */
  function ReadDigits(s: string): Option<(int, string)> {
    var n := Span(s);
    if n == 0 then None else Some((HexValue(s[..n]), s[n..]))
  }

  function ReadNumber(s: string): Option<(int, string)> {
    if s != "" && s[0] == '-' then
      match ReadDigits(s[1..])
      case None => None
      case Some((n, rest)) => Some((-n, rest))
    else ReadDigits(s)
  }

  /** Reads `label:hex` and returns the number with the rest of the string. */
  function ReadField(name: string, s: string): Option<(int, string)> {
    var head := name + ":";
    if head <= s then ReadNumber(s[|head|..]) else None
  }

  function Parse(labels: seq<string>, s: string): Option<seq<int>> {
    if labels == [] then (if s == "" then Some([]) else None) else
      match ReadField(labels[0], s)
      case None => None
      case Some((num, rest)) =>
        if |labels| == 1 then (if rest == "" then Some([num]) else None)
        else if rest == "" || rest[0] != '/' then None
        else match Parse(labels[1..], rest[1..])
          case None => None
          case Some(nums) => Some([num] + nums)
  }

  lemma ReadDigitsOfHex(n: nat, rest: string)
    requires rest == "" || !IsHexDigit(rest[0])
    ensures ReadDigits(Hex(n) + rest) == Some((n, rest))
  {
    var d := Hex(n);
    HexRoundTrip(n);
    SpanOfDigits(d, rest);
    assert (d + rest)[..|d|] == d && (d + rest)[|d|..] == rest;
  }

  lemma HexStartsWithDigit(n: nat)
    ensures IsHexDigit(Hex(n)[0])
  {
    HexRoundTrip(n);
  }

  lemma ReadNumberSigned(d: string, m: int, rest: string)
    requires d != "" && IsHexDigit(d[0]) && ReadDigits(d + rest) == Some((m, rest))
    ensures ReadNumber(d + rest) == Some((m, rest))
    ensures ReadNumber("-" + d + rest) == Some((-m, rest))
  {
    var s := "-" + d + rest;
    assert s[0] == '-' && s[1..] == d + rest;
    assert (d + rest)[0] == d[0];
  }

  lemma ReadNumberOfHex(n: int, rest: string)
    requires rest == "" || !IsHexDigit(rest[0])
    ensures ReadNumber(HexInt(n) + rest) == Some((n, rest))
  {
    var m := if n < 0 then -n else n;
    var d := Hex(m);
    ReadDigitsOfHex(m, rest);
    HexStartsWithDigit(m);
    ReadNumberSigned(d, m, rest);
  }

  lemma ReadFieldOfHex(name: string, n: int, rest: string)
    requires rest == "" || !IsHexDigit(rest[0])
    ensures ReadField(name, name + ":" + HexInt(n) + rest) == Some((n, rest))
  {
    var head, tail := name + ":", HexInt(n) + rest;
    assert name + ":" + HexInt(n) + rest == head + tail;
    assert head <= head + tail && (head + tail)[|head|..] == tail;
    ReadNumberOfHex(n, rest);
  }

  /** Whatever the labels and the numbers, parsing a rendered key gives the numbers back. */
  lemma {:induction false} ParseRender(labels: seq<string>, nums: seq<int>)
    requires |labels| == |nums|
    ensures Parse(labels, Render(labels, nums)) == Some(nums)
  {
    if labels != [] {
      var tail := if |labels| == 1 then "" else "/" + Render(labels[1..], nums[1..]);
      assert Render(labels, nums) == labels[0] + ":" + HexInt(nums[0]) + tail;
      ReadFieldOfHex(labels[0], nums[0], tail);
      if |labels| == 1 {
        assert nums == [nums[0]];
      } else {
        assert tail[1..] == Render(labels[1..], nums[1..]);
        ParseRender(labels[1..], nums[1..]);
        assert nums == [nums[0]] + nums[1..];
      }
    }
  }

  function KeyNumbers(u: UeidGnb): (nums: seq<int>)
    ensures |nums| == 5
  {
    [Uint64Of(u.guami.plmnIdentity), Uint64Of(u.guami.amfRegionId), Uint64Of(u.guami.amfSetId),
     Uint64Of(u.guami.amfPointer), u.amfUeNgapId]
  }

  function GenerateGnbUeIDString(u: UeidGnb): string {
    Render(LABELS, KeyNumbers(u))
  }

  lemma RenderFive(l: seq<string>, n: seq<int>)
    requires |l| == |n| == 5
    ensures Render(l, n) ==
            l[0] + ":" + HexInt(n[0]) + ("/" + (
            l[1] + ":" + HexInt(n[1]) + ("/" + (
            l[2] + ":" + HexInt(n[2]) + ("/" + (
            l[3] + ":" + HexInt(n[3]) + ("/" + (
            l[4] + ":" + HexInt(n[4]) + ""))))))))
  {
    hide HexInt;
    RenderFrom(l, n, 0);
    RenderFrom(l, n, 1);
    RenderFrom(l, n, 2);
    RenderFrom(l, n, 3);
    RenderFrom(l, n, 4);
    hide Render;
    assert l[0..] == l && n[0..] == n;
  }

  lemma RenderFrom(l: seq<string>, n: seq<int>, k: nat)
    requires |l| == |n| && k < |n|
    ensures Render(l[k..], n[k..]) ==
            l[k] + ":" + HexInt(n[k]) + (if k + 1 == |n| then "" else "/" + Render(l[k + 1..], n[k + 1..]))
  {
    hide HexInt;
    assert l[k..][1..] == l[k + 1..] && n[k..][1..] == n[k + 1..];
  }

  /** The key, written out: under each label the exact value of that field's last eight bytes. */
  lemma KeyText(u: UeidGnb)
    ensures GenerateGnbUeIDString(u) ==
            "plmnID" + ":" + Hex(BigEndian(Last8(u.guami.plmnIdentity))) + ("/" + (
            "amfRegionID" + ":" + Hex(BigEndian(Last8(u.guami.amfRegionId))) + ("/" + (
            "amfSetID" + ":" + Hex(BigEndian(Last8(u.guami.amfSetId))) + ("/" + (
            "amfPointer" + ":" + Hex(BigEndian(Last8(u.guami.amfPointer))) + ("/" + (
            "amfUeNgapID" + ":" + (if u.amfUeNgapId < 0 then "-" + Hex(0 - u.amfUeNgapId as int) else Hex(u.amfUeNgapId)) + ""))))))))
  {
    hide Hex, Uint64Of, BigEndian, Last8, Render;
    FoldIsLast8(u.guami.plmnIdentity);
    FoldIsLast8(u.guami.amfRegionId);
    FoldIsLast8(u.guami.amfSetId);
    FoldIsLast8(u.guami.amfPointer);
    RenderFive(LABELS, KeyNumbers(u));
  }

  /** The parser recovers from the key, under its label, the value of each field of the UE. */
  lemma KeyRoundTrip(u: UeidGnb)
    ensures Parse(["plmnID", "amfRegionID", "amfSetID", "amfPointer", "amfUeNgapID"], GenerateGnbUeIDString(u))
         == Some([BigEndian(Last8(u.guami.plmnIdentity)), BigEndian(Last8(u.guami.amfRegionId)),
                  BigEndian(Last8(u.guami.amfSetId)), BigEndian(Last8(u.guami.amfPointer)), u.amfUeNgapId])
  {
    hide Hex, Uint64Of, BigEndian, Last8;
    FoldIsLast8(u.guami.plmnIdentity);
    FoldIsLast8(u.guami.amfRegionId);
    FoldIsLast8(u.guami.amfSetId);
    FoldIsLast8(u.guami.amfPointer);
    ParseRender(LABELS, KeyNumbers(u));
  }

  lemma KeyParses(u: UeidGnb)
    ensures Parse(LABELS, GenerateGnbUeIDString(u)) == Some(KeyNumbers(u))
  {
    ParseRender(LABELS, KeyNumbers(u));
  }

  /** Two UEs share a store entry exactly when each GUAMI field agrees on its last
      eight bytes, zero-extended, and the AMF UE NGAP IDs are the same. */
  lemma KeyEqualIff(a: UeidGnb, b: UeidGnb)
    ensures GenerateGnbUeIDString(a) == GenerateGnbUeIDString(b) <==>
            && Last8(a.guami.plmnIdentity) == Last8(b.guami.plmnIdentity)
            && Last8(a.guami.amfRegionId) == Last8(b.guami.amfRegionId)
            && Last8(a.guami.amfSetId) == Last8(b.guami.amfSetId)
            && Last8(a.guami.amfPointer) == Last8(b.guami.amfPointer)
            && a.amfUeNgapId == b.amfUeNgapId
  {
    KeyParses(a);
    KeyParses(b);
    var p, q := KeyNumbers(a), KeyNumbers(b);
    assert p == q <==> p[0] == q[0] && p[1] == q[1] && p[2] == q[2] && p[3] == q[3] && p[4] == q[4];
    FoldEqualIff(a.guami.plmnIdentity, b.guami.plmnIdentity);
    FoldEqualIff(a.guami.amfRegionId, b.guami.amfRegionId);
    FoldEqualIff(a.guami.amfSetId, b.guami.amfSetId);
    FoldEqualIff(a.guami.amfPointer, b.guami.amfPointer);
  }

  /** With the field widths of section 2.10.1 of 3GPP TS 23.003 (PLMN 3 bytes, AMF
      region 1, AMF set 2, AMF pointer 1) the key identifies the UE. */
  predicate StandardWidths(g: Guami) {
    |g.plmnIdentity| == 3 && |g.amfRegionId| == 1 && |g.amfSetId| == 2 && |g.amfPointer| == 1
  }

  lemma KeyIdentifiesUe(a: UeidGnb, b: UeidGnb)
    requires StandardWidths(a.guami) && StandardWidths(b.guami)
    ensures GenerateGnbUeIDString(a) == GenerateGnbUeIDString(b) <==> a == b
  {
    KeyEqualIff(a, b);
    FoldExactAndInjective(a.guami.plmnIdentity, b.guami.plmnIdentity);
    FoldEqualIff(a.guami.plmnIdentity, b.guami.plmnIdentity);
    FoldExactAndInjective(a.guami.amfRegionId, b.guami.amfRegionId);
    FoldEqualIff(a.guami.amfRegionId, b.guami.amfRegionId);
    FoldExactAndInjective(a.guami.amfSetId, b.guami.amfSetId);
    FoldEqualIff(a.guami.amfSetId, b.guami.amfSetId);
    FoldExactAndInjective(a.guami.amfPointer, b.guami.amfPointer);
    FoldEqualIff(a.guami.amfPointer, b.guami.amfPointer);
  }
}
