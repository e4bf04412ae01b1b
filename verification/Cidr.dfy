/** The address check of an API key's allow list (openwa/src/modules/auth/auth.service.ts), with
    JavaScript's 32-bit operators written out. An address matches an entry exactly when both lie in
    the same aligned block (RFC 4632, section 3.1). */
module Cidr {
  import opened Text

  // ---- JavaScript numbers ----

  // An integral number or NaN.
  datatype Num = NaN | Int(value: int)

  const WORD := 0x1_0000_0000
  const HALF := 0x8000_0000

  function ToUint32(x: Num): (r: nat)
    ensures r < WORD
  {
    if x.NaN? then 0 else x.value % WORD
  }

  function ToInt32(x: Num): (r: int)
    ensures -HALF <= r < HALF && r % WORD == ToUint32(x)
  {
    var u := ToUint32(x);
    if u < HALF then u else u - WORD
  }

  function Plus(x: Num, y: Num): Num {
    if x.NaN? || y.NaN? then NaN else Int(x.value + y.value)
  }

  function ShiftLeft8(x: Num): Num { Int(ToInt32(Int(ToInt32(x) * 256))) }

  function BitNot(x: Num): Num { Int(-ToInt32(x) - 1) }

  function AndBits(x: nat, y: nat, width: nat): nat {
    if width == 0 then 0
    else 2 * AndBits(x / 2, y / 2, width - 1) + (if x % 2 == 1 && y % 2 == 1 then 1 else 0)
  }

  function BitAnd(x: Num, y: Num): Num { Int(ToInt32(Int(AndBits(ToUint32(x), ToUint32(y), 32)))) }

  // parseInt(s, 10): leading white space, a sign, and the longest run of digits.
  function ParseInt(s: string): Num {
    var t := TrimLeft(s, IsJsSpace);
    var signed := t != "" && (t[0] == '+' || t[0] == '-');
    var u := if signed then t[1..] else t;
    var n := Span(u, IsDigit);
    if n == 0 then NaN
    else
      var magnitude: int := ParseDecimal(u[..n]);
      Int(if signed && t[0] == '-' then 0 - magnitude else magnitude)
  }

  // ---- The address check ----

  function Octets(acc: Num, parts: seq<string>): Num
    decreases |parts|
  {
    if parts == [] then acc else Octets(Plus(ShiftLeft8(acc), ParseInt(parts[0])), parts[1..])
  }

  function IpToNumber(ip: string): (r: nat)
    ensures r < WORD
  {
    var parts := Split(ip, '.');
    if |parts| != 4 then 0 else ToUint32(Octets(Int(0), parts))
  }

  function Pow2(k: nat): (r: nat)
    ensures r > 0
  {
    if k == 0 then 1 else 2 * Pow2(k - 1)
  }

  // The prefix length of an entry, if it is one.
  function PrefixLength(cidr: string): (bits: Option<nat>)
    ensures bits.Some? ==> bits.value <= 32
  {
    var parts := Split(cidr, '/');
    var bits := if |parts| < 2 then NaN else ParseInt(parts[1]);
    if bits.NaN? || bits.value < 0 || bits.value > 32 then None else Some(bits.value)
  }

  function RangeOf(cidr: string): string { Split(cidr, '/')[0] }

  function Mask(bits: nat): Num
    requires bits <= 32
  {
    BitNot(Int(Pow2(32 - bits) - 1))
  }

  predicate IpInCidr(ip: string, cidr: string) {
    var bits := PrefixLength(cidr);
    bits.Some?
    && BitAnd(Int(IpToNumber(ip)), Mask(bits.value)) == BitAnd(Int(IpToNumber(RangeOf(cidr))), Mask(bits.value))
  }

  // ---- Blocks of addresses ----

  // Drops the low `k` bits: the number of the block of 2^k that holds `x`.
  function ShiftRight(x: nat, k: nat): nat {
    if k == 0 then x else ShiftRight(x / 2, k - 1)
  }

  // The aligned block number `q` of 2^k addresses.
  ghost predicate InBlock(x: nat, q: nat, k: nat) { q * Pow2(k) <= x < q * Pow2(k) + Pow2(k) }

  ghost predicate SameBlock(x: nat, y: nat, k: nat) { exists q: nat :: InBlock(x, q, k) && InBlock(y, q, k) }

  ghost predicate Bit(x: nat, i: nat) { ShiftRight(x, i) % 2 == 1 }

  lemma Doubled(n: nat)
    requires n > 0
    ensures Pow2(n) == 2 * Pow2(n - 1)
  {
  }

  lemma Regroup(q: nat, d: nat)
    ensures q * (2 * d) == 2 * (q * d)
  {
  }

  lemma Halved(x: nat, a: nat, d: nat)
    ensures 2 * a <= x < 2 * a + 2 * d <==> a <= x / 2 < a + d
  {
  }

  lemma Pow2Zero()
    ensures Pow2(0) == 1
  {
  }

  lemma ShiftMore(x: nat, k: nat)
    requires k > 0
    ensures ShiftRight(x, k) == ShiftRight(x / 2, k - 1)
  {
  }

  lemma {:induction false} OnlyBlock(x: nat, q: nat, k: nat)
    ensures InBlock(x, q, k) <==> q == ShiftRight(x, k)
  {
    hide Pow2;
    if k == 0 {
      Pow2Zero();
    } else {
      hide ShiftRight;
      OnlyBlock(x / 2, q, k - 1);
      ShiftMore(x, k);
      Doubled(k);
      Regroup(q, Pow2(k - 1));
      Halved(x, q * Pow2(k - 1), Pow2(k - 1));
    }
  }

  lemma SameShift(x: nat, y: nat, k: nat)
    ensures SameBlock(x, y, k) <==> ShiftRight(x, k) == ShiftRight(y, k)
  {
    hide InBlock, ShiftRight;
    OnlyBlock(x, ShiftRight(x, k), k);
    OnlyBlock(y, ShiftRight(x, k), k);
    forall q: nat
      ensures InBlock(x, q, k) <==> q == ShiftRight(x, k)
      ensures InBlock(y, q, k) <==> q == ShiftRight(y, k)
    {
      OnlyBlock(x, q, k);
      OnlyBlock(y, q, k);
    }
  }

  lemma {:induction false} ShiftOnce(x: nat, k: nat)
    ensures ShiftRight(x, k + 1) == ShiftRight(x, k) / 2
  {
    if k > 0 {
      ShiftOnce(x / 2, k - 1);
    }
  }

  /** Lying in the same block is agreeing on the leading bits. */
  lemma {:induction false} BlockIsPrefix(x: nat, y: nat, k: nat, width: nat)
    requires k <= width && x < Pow2(width) && y < Pow2(width)
    ensures SameBlock(x, y, k) <==> forall i | k <= i < width :: Bit(x, i) == Bit(y, i)
    decreases width - k
  {
    hide SameBlock, Pow2, ShiftRight;
    SameShift(x, y, k);
    if k == width {
      Below(x, k);
      Below(y, k);
    } else {
      BlockIsPrefix(x, y, k + 1, width);
      SameShift(x, y, k + 1);
      ShiftOnce(x, k);
      ShiftOnce(y, k);
      var s, z := ShiftRight(x, k), ShiftRight(y, k);
      assert s == 2 * (s / 2) + s % 2 && z == 2 * (z / 2) + z % 2;
      assert s == z <==> s / 2 == z / 2 && Bit(x, k) == Bit(y, k);
    }
  }

  lemma Below(x: nat, k: nat)
    requires x < Pow2(k)
    ensures ShiftRight(x, k) == 0
  {
    OnlyBlock(x, 0, k);
  }

  // ---- Masking is rounding down to a block ----

  lemma {:induction false} Pow2Monotone(k: nat, n: nat)
    requires k <= n
    ensures Pow2(k) <= Pow2(n)
  {
    if k < n {
      Pow2Monotone(k, n - 1);
    }
  }

  lemma Pow2Word()
    ensures Pow2(32) == WORD
  {
    assert Pow2(8) == 0x100;
    assert Pow2(16) == 0x1_0000;
    assert Pow2(24) == 0x100_0000;
  }

  lemma AndOddEven(x: nat, y: nat, width: nat)
    ensures AndBits(x, 2 * y, width + 1) == 2 * AndBits(x / 2, y, width)
    ensures AndBits(x, 2 * y + 1, width + 1) == 2 * AndBits(x / 2, y, width) + x % 2
  {
    assert 2 * y / 2 == y && (2 * y + 1) / 2 == y && 2 * y % 2 == 0 && (2 * y + 1) % 2 == 1;
  }

  lemma AndNothing(x: nat, y: nat)
    ensures AndBits(x, y, 0) == 0 && ShiftRight(x, 0) == x
  {
  }

  lemma {:induction false} AndHighBits(x: nat, k: nat, width: nat)
    requires k <= width && x < Pow2(width) && Pow2(k) <= Pow2(width)
    ensures AndBits(x, Pow2(width) - Pow2(k), width) == ShiftRight(x, k) * Pow2(k)
  {
    hide Pow2, AndBits, ShiftRight;
    Pow2Zero();
    AndNothing(x, Pow2(width) - Pow2(k));
    if width > 0 {
      Doubled(width);
      if k == 0 {
        AndNothing(x / 2, 0);
        AndHighBits(x / 2, 0, width - 1);
        AndOddEven(x, Pow2(width - 1) - 1, width - 1);
      } else {
        Doubled(k);
        Pow2Monotone(k - 1, width - 1);
        AndHighBits(x / 2, k - 1, width - 1);
        AndOddEven(x, Pow2(width - 1) - Pow2(k - 1), width - 1);
        ShiftMore(x, k);
        Regroup(ShiftRight(x / 2, k - 1), Pow2(k - 1));
      }
    }
  }

  // The mask has ones above the low 32 - bits positions.
  lemma MaskValue(bits: nat)
    requires bits <= 32
    ensures Pow2(32 - bits) <= WORD && ToUint32(Mask(bits)) == WORD - Pow2(32 - bits)
  {
    hide Pow2, ToInt32, ToUint32;
    Pow2Word();
    Pow2Monotone(32 - bits, 32);
    if bits > 0 {
      Pow2Monotone(32 - bits, 31);
      HalfWord();
    }
    var p := Pow2(32 - bits);
    Wrapped(p - 1);
    Unsigned(WORD - p);
    assert bits == 0 ==> p == WORD;
  }

  lemma Wrapped(v: nat)
    requires v < WORD
    ensures ToInt32(Int(v)) == if v < HALF then v else v - WORD
  {
  }

  lemma Unsigned(v: nat)
    requires v < WORD
    ensures ToUint32(Int(v)) == v && ToUint32(Int(v - WORD)) == v
  {
  }

  lemma HalfWord()
    ensures Pow2(31) == HALF
  {
    Pow2Word();
  }

  lemma WordAndBack(v: nat)
    requires v < WORD
    ensures ToUint32(Int(ToInt32(Int(v)))) == v
  {
  }

  lemma Masked(x: nat, bits: nat)
    requires x < WORD && bits <= 32
    ensures BitAnd(Int(x), Mask(bits)) == Int(ToInt32(Int(ShiftRight(x, 32 - bits) * Pow2(32 - bits))))
    ensures ShiftRight(x, 32 - bits) * Pow2(32 - bits) < WORD
  {
    hide Mask, AndBits, ShiftRight, Pow2;
    MaskValue(bits);
    Pow2Word();
    AndHighBits(x, 32 - bits, 32);
    OnlyBlock(x, ShiftRight(x, 32 - bits), 32 - bits);
  }

  // ---- Which addresses match ----

  /** Whatever the two texts are: the check succeeds exactly when the entry has a prefix length from 0
      to 32 and one aligned block of 2^(32 - bits) addresses holds both addresses. */
  lemma InCidrIsSameBlock(ip: string, cidr: string)
    ensures IpInCidr(ip, cidr)
            <==> PrefixLength(cidr).Some?
                 && SameBlock(IpToNumber(ip), IpToNumber(RangeOf(cidr)), 32 - PrefixLength(cidr).value)
  {
    hide BitAnd, Mask, IpToNumber, PrefixLength, RangeOf, Pow2, ShiftRight, SameBlock, ToInt32, ToUint32;
    var bits := PrefixLength(cidr);
    if bits.Some? {
      var x, y, k := IpToNumber(ip), IpToNumber(RangeOf(cidr)), 32 - bits.value;
      Masked(x, bits.value);
      Masked(y, bits.value);
      SameShift(x, y, k);
      WordAndBack(ShiftRight(x, k) * Pow2(k));
      WordAndBack(ShiftRight(y, k) * Pow2(k));
      SameProduct(ShiftRight(x, k), ShiftRight(y, k), Pow2(k));
    }
  }

  lemma SameProduct(p: nat, q: nat, d: nat)
    requires d > 0
    ensures p * d == q * d <==> p == q
  {
    if p < q {
      assert q * d == p * d + (q - p) * d && (q - p) * d > 0;
    } else if q < p {
      assert p * d == q * d + (p - q) * d && (p - q) * d > 0;
    }
  }

  // ---- Dotted quads ----

  datatype Quad = Quad(a: nat, b: nat, c: nat, d: nat)

  ghost predicate Octet(n: nat) { n < 256 }

  ghost predicate ValidQuad(q: Quad) { Octet(q.a) && Octet(q.b) && Octet(q.c) && Octet(q.d) }

  function QuadText(q: Quad): string {
    Decimal(q.a) + ['.'] + (Decimal(q.b) + ['.'] + (Decimal(q.c) + ['.'] + Decimal(q.d)))
  }

  function QuadValue(q: Quad): nat { ((q.a * 256 + q.b) * 256 + q.c) * 256 + q.d }

  lemma ParseIntOfDecimal(n: nat)
    ensures ParseInt(Decimal(n)) == Int(n)
  {
    hide Decimal, ParseDecimal;
    var s := Decimal(n);
    assert IsDigit(s[0]);
    assert TrimLeft(s, IsJsSpace) == s;
    assert s + "" == s && s[..|s|] == s;
    SpanOfConcat(s, "", IsDigit);
    ParseOfDecimal(n);
  }

  lemma SplitQuad(q: Quad)
    ensures Split(QuadText(q), '.') == [Decimal(q.a), Decimal(q.b), Decimal(q.c), Decimal(q.d)]
  {
    hide Decimal, Split;
    var a, b, c, d := Decimal(q.a), Decimal(q.b), Decimal(q.c), Decimal(q.d);
    assert '.' !in a && '.' !in b && '.' !in c && '.' !in d;
    SplitOfConcat(d, "", '.');
    SplitOfConcat(c, d, '.');
    SplitOfConcat(b, c + ['.'] + d, '.');
    SplitOfConcat(a, b + ['.'] + (c + ['.'] + d), '.');
  }

  function Step(acc: Num, part: string): Num { Plus(ShiftLeft8(acc), ParseInt(part)) }

  lemma FourOctets(acc: Num, p: seq<string>)
    requires |p| == 4
    ensures Octets(acc, p) == Step(Step(Step(Step(acc, p[0]), p[1]), p[2]), p[3])
  {
    hide ShiftLeft8, ParseInt, Plus;
    var q := p[1..];
    var r := q[1..];
    assert Octets(acc, p) == Octets(Step(acc, p[0]), q);
    assert Octets(Step(acc, p[0]), q) == Octets(Step(Step(acc, p[0]), p[1]), r);
    var x := Step(Step(acc, p[0]), p[1]);
    assert Octets(x, r) == Octets(Step(x, p[2]), r[1..]);
    assert Octets(Step(x, p[2]), r[1..]) == Octets(Step(Step(x, p[2]), p[3]), []);
  }

  // Shifting an octet in stays below the sign bit until the last one.
  lemma EarlyOctet(acc: nat, n: nat)
    requires acc < 0x1_0000 && Octet(n)
    ensures Step(Int(acc), Decimal(n)) == Int(acc * 256 + n)
  {
    hide Decimal, ParseInt, ToInt32;
    ParseIntOfDecimal(n);
    Wrapped(acc);
    Wrapped(acc * 256);
  }

  // The last shift may turn negative; reading the sum as unsigned undoes it.
  lemma LastOctet(acc: nat, n: nat)
    requires acc < 0x100_0000 && Octet(n)
    ensures ToUint32(Step(Int(acc), Decimal(n))) == acc * 256 + n
  {
    hide Decimal, ParseInt, ToInt32, ToUint32;
    ParseIntOfDecimal(n);
    Wrapped(acc);
    Wrapped(acc * 256);
    Unsigned(acc * 256 + n);
  }

  /** The parser gives a dotted quad its positional value in base 256. */
  lemma QuadIsPositional(q: Quad)
    requires ValidQuad(q)
    ensures IpToNumber(QuadText(q)) == QuadValue(q)
  {
    hide QuadText, Decimal, Step, Split, Octets, ToUint32;
    SplitQuad(q);
    FourOctets(Int(0), [Decimal(q.a), Decimal(q.b), Decimal(q.c), Decimal(q.d)]);
    EarlyOctet(0, q.a);
    EarlyOctet(q.a, q.b);
    EarlyOctet(q.a * 256 + q.b, q.c);
    LastOctet((q.a * 256 + q.b) * 256 + q.c, q.d);
  }

  function CidrText(q: Quad, bits: nat): string { QuadText(q) + ['/'] + Decimal(bits) }

  lemma SplitCidr(q: Quad, bits: nat)
    ensures RangeOf(CidrText(q, bits)) == QuadText(q)
    ensures PrefixLength(CidrText(q, bits)) == if bits <= 32 then Some(bits) else None
  {
    hide Decimal, ParseInt, Split;
    var digits := Decimal(bits);
    assert '/' !in Decimal(q.a) && '/' !in Decimal(q.b) && '/' !in Decimal(q.c) && '/' !in Decimal(q.d);
    assert '/' !in digits;
    SplitOfConcat(QuadText(q), digits, '/');
    SplitOfConcat(digits, "", '/');
    ParseIntOfDecimal(bits);
  }

  /** An address matches a written range exactly when the prefix length is at most 32 and the two
      addresses agree on that many leading bits. */
  lemma QuadsMatch(ip: Quad, range: Quad, bits: nat)
    requires ValidQuad(ip) && ValidQuad(range)
    ensures IpInCidr(QuadText(ip), CidrText(range, bits))
            <==> bits <= 32 && forall i | 32 - bits <= i < 32 :: Bit(QuadValue(ip), i) == Bit(QuadValue(range), i)
  {
    hide QuadText, CidrText, IpInCidr, PrefixLength, RangeOf, Bit, Pow2, SameBlock, IpToNumber;
    InCidrIsSameBlock(QuadText(ip), CidrText(range, bits));
    SplitCidr(range, bits);
    QuadIsPositional(ip);
    QuadIsPositional(range);
    if bits <= 32 {
      Pow2Word();
      BlockIsPrefix(QuadValue(ip), QuadValue(range), 32 - bits, 32);
    }
  }

  // ---- The allow list ----

  predicate Allows(entry: string, ip: string) {
    if '/' in entry then IpInCidr(ip, entry) else ip == entry
  }

  method IsIpAllowed(clientIp: string, allowedIps: seq<string>) returns (allowed: bool)
    ensures allowed <==> exists entry :: entry in allowedIps && Allows(entry, clientIp)
  {
    for k := 0 to |allowedIps|
      invariant forall entry | entry in allowedIps[..k] :: !Allows(entry, clientIp)
    {
      hide IpInCidr;
      var entry := allowedIps[k];
      assert entry in allowedIps;
      if '/' in entry {
        if IpInCidr(clientIp, entry) {
          assert Allows(entry, clientIp);
          return true;
        }
      } else if clientIp == entry {
        assert Allows(entry, clientIp);
        return true;
      }
    }
    assert allowedIps[..|allowedIps|] == allowedIps;
    return false;
  }
}
