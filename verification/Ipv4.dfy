/** IPv4 ranges: `plan::cidr`'s canonical form and `proxmox::in_network`'s test. */
module Ipv4 {
  import opened Text

  // ---- numbers in decimal ----

  predicate IsDigit(c: char) { '0' <= c <= '9' }

  function DigitOf(n: nat): char
    requires n < 10
  {
    (n + '0' as int) as char
  }

  /** `Display` of an unsigned integer. */
  function Decimal(n: nat): string
  {
    if n < 10 then [DigitOf(n)] else Decimal(n / 10) + [DigitOf(n % 10)]
  }

  /** The value of a string of digits. */
  function Value(s: string): nat
    requires forall c :: c in s ==> IsDigit(c)
  {
    if s == "" then 0 else
      assert s[|s| - 1] in s && IsDigit(s[|s| - 1]);
      10 * Value(s[..|s| - 1]) + (s[|s| - 1] as int - '0' as int)
  }

  lemma {:induction false} DecimalRoundTrip(n: nat)
    ensures Decimal(n) != "" && (forall c :: c in Decimal(n) ==> IsDigit(c))
    ensures Value(Decimal(n)) == n
    ensures |Decimal(n)| > 1 ==> Decimal(n)[0] != '0'
    ensures n < 1000 ==> |Decimal(n)| <= 3
  {
    if n >= 10 {
      DecimalRoundTrip(n / 10);
      var s := Decimal(n);
      assert s[..|s| - 1] == Decimal(n / 10);
      if n < 100 { assert Decimal(n / 10) == [DigitOf(n / 10)]; }
      else if n < 1000 {
        assert |Decimal(n / 10)| <= 2 by { assert n / 10 / 10 < 10; }
      }
    }
  }

  /** `from_str` of an unsigned integer: an optional plus sign, digits, no more than it can hold. */
  function ParseUnsigned(s: string, most: nat): Option<nat>
  {
    var digits := if s != "" && s[0] == '+' then s[1..] else s;
    if digits != "" && (forall c | c in digits :: IsDigit(c)) && Value(digits) <= most then Some(Value(digits)) else None
  }

  function ParseU8(s: string): Option<nat>
  {
    ParseUnsigned(s, 255)
  }

  /** One part of a dotted address: up to three digits, no leading zero, at most 255. */
  function ParseOctet(s: string): Option<nat>
  {
    if 1 <= |s| <= 3 && (forall c | c in s :: IsDigit(c)) && (|s| > 1 ==> s[0] != '0') && Value(s) <= 255
    then Some(Value(s)) else None
  }

  // ---- addresses ----

  type Address = n: nat | n < 0x1_0000_0000

  /** `Ipv4Addr::from_str` */
  function ParseAddress(s: string): Option<Address>
  {
    match SplitOnce(s, '.')
    case None => None
    case Some((a, s1)) =>
      match SplitOnce(s1, '.')
      case None => None
      case Some((b, s2)) =>
        match SplitOnce(s2, '.')
        case None => None
        case Some((c, d)) =>
          match (ParseOctet(a), ParseOctet(b), ParseOctet(c), ParseOctet(d))
          case (Some(a), Some(b), Some(c), Some(d)) => Combine(a, b, c, d)
          case _ => None
  }

  function Combine(a: nat, b: nat, c: nat, d: nat): Option<Address>
  {
    if a < 256 && b < 256 && c < 256 && d < 256 then Some(((a * 256 + b) * 256 + c) * 256 + d) else None
  }

  /** `Display` of an `Ipv4Addr`. */
  function ShowAddress(a: Address): string
  {
    Decimal(a / 0x100_0000) + "." + (Decimal(a / 0x1_0000 % 256) + "." + (Decimal(a / 0x100 % 256) + "." + Decimal(a % 256)))
  }

  lemma SplitShown(pre: string, c: char, post: string)
    requires c !in pre
    ensures SplitOnce(pre + [c] + post, c) == Some((pre, post))
  {
    FindChar(pre, c, post);
    assert (pre + [c] + post)[..|pre|] == pre && (pre + [c] + post)[|pre| + 1..] == post;
  }

  lemma OctetShown(n: nat)
    requires n < 256
    ensures ParseOctet(Decimal(n)) == Some(n) && '.' !in Decimal(n) && '/' !in Decimal(n)
    ensures forall c :: c in Decimal(n) ==> !IsSpace(c)
  {
    DecimalRoundTrip(n);
  }

  lemma OctetsCombine(a: Address)
    ensures Combine(a / 0x100_0000, a / 0x1_0000 % 256, a / 0x100 % 256, a % 256) == Some(a)
  {
    var x, y := a / 256, a / 0x1_0000;
    assert a == x * 256 + a % 256;
    assert x / 256 == y && x == y * 256 + x % 256;
    assert y / 256 == a / 0x100_0000 && y == a / 0x100_0000 * 256 + y % 256;
  }

  /** What is printed is read back. */
  lemma AddressRoundTrip(a: Address)
    ensures ParseAddress(ShowAddress(a)) == Some(a)
  {
    var p, q, r, s := a / 0x100_0000, a / 0x1_0000 % 256, a / 0x100 % 256, a % 256;
    OctetShown(p);
    OctetShown(q);
    OctetShown(r);
    OctetShown(s);
    OctetsCombine(a);
    var t2 := Decimal(r) + "." + Decimal(s);
    var t1 := Decimal(q) + "." + t2;
    SplitShown(Decimal(p), '.', t1);
    SplitShown(Decimal(q), '.', t2);
    SplitShown(Decimal(r), '.', Decimal(s));
    assert SplitOnce(ShowAddress(a), '.') == Some((Decimal(p), t1));
    assert SplitOnce(t1, '.') == Some((Decimal(q), t2));
    assert SplitOnce(t2, '.') == Some((Decimal(r), Decimal(s)));
  }

  lemma ShownClean(a: Address)
    ensures '/' !in ShowAddress(a) && Solid(ShowAddress(a))
  {
    OctetShown(a / 0x100_0000);
    OctetShown(a / 0x1_0000 % 256);
    OctetShown(a / 0x100 % 256);
    OctetShown(a % 256);
    DecimalRoundTrip(a % 256);
  }

  // ---- masks ----

  function Pow2(n: nat): (p: nat)
    ensures p >= 1
  {
    if n == 0 then 1 else 2 * Pow2(n - 1)
  }

  function Quotient(x: nat, d: nat): nat
    requires d > 0
  {
    x / d
  }

  function Times(a: nat, b: nat): nat
  {
    a * b
  }

  /** Bit `i` of `x`. */
  function Bit(x: nat, i: nat): nat
  {
    Quotient(x, Pow2(i)) % 2
  }

  /** `x & (MAX << (width - len))`: the low `width - len` bits cleared. */
  function Mask(x: nat, width: nat, len: nat): nat
    requires len <= width
  {
    Times(Quotient(x, Pow2(width - len)), Pow2(width - len))
  }

  lemma {:induction false} Pow2Add(a: nat, b: nat)
    ensures Pow2(a + b) == Pow2(a) * Pow2(b)
  {
    if a > 0 {
      Pow2Add(a - 1, b);
      assert Pow2(a + b) == 2 * Pow2(a - 1 + b);
      assert 2 * (Pow2(a - 1) * Pow2(b)) == 2 * Pow2(a - 1) * Pow2(b);
    }
  }

  lemma MulLe(c: nat, a: nat, b: nat)
    requires a <= b
    ensures c * a <= c * b
  {
    assert c * b - c * a == c * (b - a);
  }

  lemma DivUnique(x: nat, d: nat, q: nat, r: nat)
    requires d > 0 && x == d * q + r && r < d
    ensures x / d == q
  {
    var p := x / d;
    assert d * p <= x < d * p + d;
    assert d * (p + 1) == d * p + d && d * (q + 1) == d * q + d;
    if p < q {
      MulLe(d, p + 1, q);
    } else if q < p {
      MulLe(d, q + 1, p);
    }
  }

  lemma DivDiv(x: nat, a: nat, b: nat)
    requires a > 0 && b > 0 && a * b > 0
    ensures Quotient(x, a * b) == Quotient(Quotient(x, a), b)
  {
    var q, r := x / a, x % a;
    var q2, r2 := q / b, q % b;
    Regroup(x, a, b, q, r, q2, r2);
    DivUnique(x, a * b, q2, a * r2 + r);
  }

  lemma Regroup(x: nat, a: nat, b: nat, q: nat, r: nat, q2: nat, r2: nat)
    requires x == a * q + r && r < a && q == b * q2 + r2 && r2 < b
    ensures x == a * b * q2 + (a * r2 + r) && a * r2 + r < a * b
  {
    assert a * q == a * (b * q2) + a * r2;
    assert a * (b * q2) == a * b * q2;
    MulLe(a, r2 + 1, b);
    assert a * (r2 + 1) == a * r2 + a;
  }

  lemma BitOfQuotient(x: nat, k: nat, j: nat)
    ensures Bit(Quotient(x, Pow2(k)), j) == Bit(x, k + j)
  {
    Pow2Add(k, j);
    DivDiv(x, Pow2(k), Pow2(j));
  }

  lemma HalfBits(x: nat, j: nat)
    ensures Bit(x / 2, j) == Bit(x, j + 1)
  {
    assert Pow2(1) == 2;
    BitOfQuotient(x, 1, j);
  }

  /** Numbers below 2^m with the same m bits are the same. */
  lemma {:induction false} SameBits(x: nat, y: nat, m: nat)
    requires x < Pow2(m) && y < Pow2(m)
    requires forall i :: 0 <= i < m ==> Bit(x, i) == Bit(y, i)
    ensures x == y
  {
    if m > 0 {
      forall j | 0 <= j < m - 1 ensures Bit(x / 2, j) == Bit(y / 2, j) {
        HalfBits(x, j);
        HalfBits(y, j);
      }
      SameBits(x / 2, y / 2, m - 1);
      assert Bit(x, 0) == x % 2 && Bit(y, 0) == y % 2;
    }
  }

  /** A value is in a range when its first `len` bits are the range's: prefix notation, section 3.1 of RFC 4632. */
  ghost predicate InRange(x: nat, base: nat, width: nat, len: nat)
    requires len <= width
  {
    forall i :: width - len <= i < width ==> Bit(x, i) == Bit(base, i)
  }

  lemma QuotientBound(x: nat, width: nat, len: nat)
    requires len <= width && x < Pow2(width)
    ensures Quotient(x, Pow2(width - len)) < Pow2(len)
  {
    Pow2Add(width - len, len);
    QuotientLess(x, Pow2(width - len), Pow2(len));
  }

  lemma QuotientLess(x: nat, k: nat, n: nat)
    requires k > 0 && x < k * n
    ensures x / k < n
  {
    assert k * (x / k) <= x;
    if x / k >= n {
      MulLe(k, n, x / k);
    }
  }

  lemma TimesInjective(p: nat, q: nat, d: nat)
    requires d > 0 && Times(p, d) == Times(q, d)
    ensures p == q
  {
    DivUnique(p * d, d, p, 0);
    DivUnique(q * d, d, q, 0);
  }

  /** Clearing the low bits and comparing is comparing the prefix bit by bit. */
  lemma MaskComparesPrefix(x: nat, y: nat, width: nat, len: nat)
    requires len <= width && x < Pow2(width) && y < Pow2(width)
    ensures Mask(x, width, len) == Mask(y, width, len) <==> InRange(x, y, width, len)
  {
    var k := width - len;
    var p, q := Quotient(x, Pow2(k)), Quotient(y, Pow2(k));
    if Mask(x, width, len) == Mask(y, width, len) {
      TimesInjective(p, q, Pow2(k));
      forall i | k <= i < width ensures Bit(x, i) == Bit(y, i) {
        BitOfQuotient(x, k, i - k);
        BitOfQuotient(y, k, i - k);
      }
    }
    if InRange(x, y, width, len) {
      QuotientBound(x, width, len);
      QuotientBound(y, width, len);
      forall j | 0 <= j < len ensures Bit(p, j) == Bit(q, j) {
        BitOfQuotient(x, k, j);
        BitOfQuotient(y, k, j);
        assert Bit(x, k + j) == Bit(y, k + j);
      }
      SameBits(p, q, len);
    }
  }

  /** A masked value's range is an interval. */
  lemma RangeIsInterval(x: nat, base: nat, width: nat, len: nat)
    requires len <= width
    ensures Mask(x, width, len) == Mask(base, width, len)
       <==> Mask(base, width, len) <= x < Mask(base, width, len) + Pow2(width - len)
  {
    FloorInterval(x, base, Pow2(width - len));
  }

  lemma FloorInterval(x: nat, y: nat, k: nat)
    requires k > 0
    ensures var m := Times(Quotient(y, k), k);
      Times(Quotient(x, k), k) == m <==> m <= x < m + k
  {
    var q := y / k;
    if q * k <= x < q * k + k {
      DivUnique(x, k, q, x - q * k);
    }
  }

  lemma MaskAgain(x: nat, width: nat, len: nat)
    requires len <= width
    ensures Mask(Mask(x, width, len), width, len) == Mask(x, width, len)
  {
    RangeIsInterval(Mask(x, width, len), x, width, len);
  }

  /** Ranges with the same members have the same length and the same first address. */
  lemma SameRange(a: nat, la: nat, b: nat, lb: nat, width: nat)
    requires la <= width && lb <= width && a < Pow2(width) && b < Pow2(width)
    requires forall x | 0 <= x < Pow2(width) :: InRange(x, a, width, la) <==> InRange(x, b, width, lb)
    ensures la == lb && Mask(a, width, la) == Mask(b, width, lb)
  {
    Narrower(a, la, b, lb, width);
    Narrower(b, lb, a, la, width);
    MaskComparesPrefix(a, b, width, la);
    assert InRange(a, a, width, la);
  }

  lemma Narrower(a: nat, la: nat, b: nat, lb: nat, width: nat)
    requires la <= width && lb <= width && a < Pow2(width) && b < Pow2(width)
    requires forall x | 0 <= x < Pow2(width) :: InRange(x, a, width, la) <==> InRange(x, b, width, lb)
    ensures la >= lb
  {
    if la < lb {
      var wide, m := Pow2(width - la), Mask(a, width, la);
      QuotientBound(a, width, la);
      Pow2Add(width - la, la);
      RoundsBelow(a, wide, Pow2(la));
      Pow2Add(width - lb, lb - la);
      MulLe(Pow2(width - lb), 2, Pow2(lb - la));
      var last := m + wide - 1;
      InBoth(m, a, la, b, lb, width);
      InBoth(last, a, la, b, lb, width);
    }
  }

  lemma RoundsBelow(a: nat, k: nat, n: nat)
    requires k > 0 && Quotient(a, k) < n
    ensures Times(Quotient(a, k), k) + k <= k * n
  {
    MulLe(k, Quotient(a, k) + 1, n);
    assert k * (Quotient(a, k) + 1) == k * Quotient(a, k) + k;
  }

  /** A member of one range, as an interval, is within the interval of the other. */
  lemma InBoth(x: nat, a: nat, la: nat, b: nat, lb: nat, width: nat)
    requires la <= width && lb <= width && a < Pow2(width) && b < Pow2(width) && x < Pow2(width)
    requires InRange(x, a, width, la) <==> InRange(x, b, width, lb)
    requires Mask(a, width, la) <= x < Mask(a, width, la) + Pow2(width - la)
    ensures Mask(b, width, lb) <= x < Mask(b, width, lb) + Pow2(width - lb)
  {
    RangeIsInterval(x, a, width, la);
    MaskComparesPrefix(x, a, width, la);
    MaskComparesPrefix(x, b, width, lb);
    RangeIsInterval(x, b, width, lb);
  }

  // ---- `plan::cidr` ----

  datatype Range = Range(base: Address, len: nat)

  /** What a range's text says, before it is made canonical; `None` where it is refused. */
  function ParseRange(text: string): (r: Option<Range>)
    ensures r.Some? ==> r.value.len <= 32
  {
    var (addr, len) := match SplitOnce(Trim(text), '/')
      case Some((a, l)) => (a, ParseU8(l))
      case None => (Trim(text), Some(32));
    if len.None? || len.value > 32 then None
    else
      match ParseAddress(addr)
      case None => None
      case Some(base) => Some(Range(base, len.value))
  }

  lemma MaskFits(a: Address, len: nat)
    requires len <= 32
    ensures Mask(a, 32, len) <= a
  {
  }

  function ShowRange(r: Range): string
  {
    ShowAddress(r.base) + "/" + Decimal(r.len)
  }

  /** `cidr`: the address masked and the prefix length written out; without a length, all 32 bits count. */
  function Cidr(text: string): Option<string>
  {
    match ParseRange(text)
    case None => None
    case Some(r) =>
      MaskFits(r.base, r.len);
      Some(ShowRange(Range(Mask(r.base, 32, r.len), r.len)))
  }

  lemma RangeRoundTrip(r: Range)
    requires r.len <= 32
    ensures ParseRange(ShowRange(r)) == Some(r)
  {
    AddressRoundTrip(r.base);
    ShownClean(r.base);
    LengthShown(r.len);
    SlashSplits(ShowAddress(r.base), Decimal(r.len));
  }

  lemma LengthShown(n: nat)
    requires n < 256
    ensures ParseU8(Decimal(n)) == Some(n) && Solid(Decimal(n))
  {
    DecimalRoundTrip(n);
    assert Decimal(n)[0] in Decimal(n);
  }

  lemma SlashSplits(addr: string, len: string)
    requires '/' !in addr && Solid(addr) && Solid(len)
    ensures SplitOnce(Trim(addr + "/" + len), '/') == Some((addr, len))
  {
    var text := addr + ['/'] + len;
    SplitShown(addr, '/', len);
    assert text[0] == addr[0] && addr[0] in addr;
    assert text[|text| - 1] == len[|len| - 1] && len[|len| - 1] in len;
    TrimSolid(text);
  }

  lemma CidrIdempotent(text: string)
    requires Cidr(text).Some?
    ensures Cidr(Cidr(text).value) == Cidr(text)
  {
    var r := ParseRange(text).value;
    MaskFits(r.base, r.len);
    RangeRoundTrip(Range(Mask(r.base, 32, r.len), r.len));
    MaskAgain(r.base, 32, r.len);
  }

  /** An address is in a text's range when it shares the text's prefix. */
  ghost predicate Denotes(text: string, x: Address)
    requires Cidr(text).Some?
  {
    var r := ParseRange(text).value;
    InRange(x, r.base, 32, r.len)
  }

  lemma AddressBits()
    ensures Pow2(32) == 0x1_0000_0000
  {
    assert Pow2(8) == 256;
    Pow2Add(8, 8);
    Pow2Add(16, 16);
  }

  /** Two accepted texts have the same canonical form exactly when they denote the same addresses. */
  lemma CidrCanonical(s: string, t: string)
    requires Cidr(s).Some? && Cidr(t).Some?
    ensures Cidr(s) == Cidr(t) <==> forall x: Address :: Denotes(s, x) <==> Denotes(t, x)
  {
    AddressBits();
    var a, b := ParseRange(s).value, ParseRange(t).value;
    MaskFits(a.base, a.len);
    MaskFits(b.base, b.len);
    var ca, cb := Range(Mask(a.base, 32, a.len), a.len), Range(Mask(b.base, 32, b.len), b.len);
    RangeRoundTrip(ca);
    RangeRoundTrip(cb);
    assert Cidr(s) == Cidr(t) <==> ca == cb;
    if ca == cb {
      forall x: Address ensures Denotes(s, x) <==> Denotes(t, x) {
        MaskComparesPrefix(x, a.base, 32, a.len);
        MaskComparesPrefix(x, b.base, 32, b.len);
      }
    }
    if forall x: Address :: Denotes(s, x) <==> Denotes(t, x) {
      forall x | 0 <= x < Pow2(32) ensures InRange(x, a.base, 32, a.len) <==> InRange(x, b.base, 32, b.len) {
        var address: Address := x;
        assert Denotes(s, address) <==> Denotes(t, address);
      }
      SameRange(a.base, a.len, b.base, b.len, 32);
    }
  }

  // ---- What is accepted, and what it means ----

  lemma {:induction false} DecimalOfValue(s: string)
    requires s != "" && (forall c :: c in s ==> IsDigit(c)) && (|s| > 1 ==> s[0] != '0')
    ensures Decimal(Value(s)) == s && (|s| > 1 ==> Value(s) >= 10)
  {
    var last := s[|s| - 1];
    assert IsDigit(last);
    var digit := last as int - '0' as int;
    if |s| == 1 {
      assert s[..0] == "" && s == [last];
      assert Value(s) == digit;
    } else {
      var init := s[..|s| - 1];
      DecimalOfValue(init);
      assert init[0] == s[0] && Value(init) > 0 by {
        if |init| == 1 {
          assert init[..0] == "" && IsDigit(init[0]);
        }
      }
      assert Value(s) == 10 * Value(init) + digit;
      assert Value(s) / 10 == Value(init) && Value(s) % 10 == digit;
      assert s == init + [last];
    }
  }

  lemma OctetIsShown(s: string)
    requires ParseOctet(s).Some?
    ensures s == Decimal(ParseOctet(s).value)
  {
    DecimalOfValue(s);
  }

  lemma SplitJoins(s: string, c: char)
    requires SplitOnce(s, c).Some?
    ensures var (before, after) := SplitOnce(s, c).value; s == before + [c] + after && c !in before
  {
    FoundFirst(s, c);
    var at := Find(s, [c]).value;
    assert s == s[..at] + [s[at]] + s[at + 1..];
  }

  lemma Recombine(a: nat, b: nat, c: nat, d: nat, x: Address)
    requires Combine(a, b, c, d) == Some(x)
    ensures x / 0x100_0000 == a && x / 0x1_0000 % 256 == b && x / 0x100 % 256 == c && x % 256 == d
  {
    assert x == ((a * 256 + b) * 256 + c) * 256 + d;
  }

  lemma ShownByOctets(a: nat, b: nat, c: nat, d: nat, x: Address)
    requires Combine(a, b, c, d) == Some(x)
    ensures ShowAddress(x) == Decimal(a) + "." + (Decimal(b) + "." + (Decimal(c) + "." + Decimal(d)))
  {
    Recombine(a, b, c, d, x);
  }

  lemma Dotted(s: string, p: string, s1: string, q: string, s2: string, r: string, t: string)
    requires s == p + ['.'] + s1 && s1 == q + ['.'] + s2 && s2 == r + ['.'] + t
    ensures s == p + "." + (q + "." + (r + "." + t))
  {
    assert ['.'] == ".";
  }

  lemma ReadIsShown(s: string)
    requires ParseAddress(s).Some?
    ensures s == ShowAddress(ParseAddress(s).value)
  {
    var (p, s1) := SplitOnce(s, '.').value;
    var (q, s2) := SplitOnce(s1, '.').value;
    var (r, t) := SplitOnce(s2, '.').value;
    SplitJoins(s, '.');
    SplitJoins(s1, '.');
    SplitJoins(s2, '.');
    Dotted(s, p, s1, q, s2, r, t);
    OctetIsShown(p);
    OctetIsShown(q);
    OctetIsShown(r);
    OctetIsShown(t);
    ShownByOctets(ParseOctet(p).value, ParseOctet(q).value, ParseOctet(r).value, ParseOctet(t).value, ParseAddress(s).value);
  }

  /** The only text that is read as an address is the one it is printed as. */
  lemma AddressIsShown(s: string, a: Address)
    ensures ParseAddress(s) == Some(a) <==> s == ShowAddress(a)
  {
    AddressRoundTrip(a);
    if ParseAddress(s) == Some(a) {
      ReadIsShown(s);
    }
  }

  /** A range with its length: accepted up to 32, and an address is in it if it agrees in so many first bits. */
  lemma LengthCounts(a: Address, len: nat, x: Address)
    requires len < 256
    ensures Cidr(ShowAddress(a) + "/" + Decimal(len)).Some? <==> len <= 32
    ensures len <= 32 ==> (Denotes(ShowAddress(a) + "/" + Decimal(len), x) <==> x / Pow2(32 - len) == a / Pow2(32 - len))
  {
    AddressRoundTrip(a);
    ShownClean(a);
    LengthShown(len);
    SlashSplits(ShowAddress(a), Decimal(len));
    if len <= 32 {
      PrefixIsQuotient(x, a, len);
    }
  }

  lemma PrefixIsQuotient(x: Address, a: Address, len: nat)
    requires len <= 32
    ensures InRange(x, a, 32, len) <==> x / Pow2(32 - len) == a / Pow2(32 - len)
  {
    AddressBits();
    MaskComparesPrefix(x, a, 32, len);
    if Mask(x, 32, len) == Mask(a, 32, len) {
      TimesInjective(Quotient(x, Pow2(32 - len)), Quotient(a, Pow2(32 - len)), Pow2(32 - len));
    }
  }

  lemma BareParses(a: Address)
    ensures ParseRange(ShowAddress(a)) == Some(Range(a, 32))
  {
    var text := ShowAddress(a);
    ShownClean(a);
    AddressRoundTrip(a);
    assert text != "" && text[0] in text && text[|text| - 1] in text;
    TrimSolid(text);
    FoundFirst(text, '/');
  }

  lemma AllBits(a: Address)
    ensures Mask(a, 32, 32) == a && Decimal(32) == "32"
  {
    assert Pow2(0) == 1 && Quotient(a, 1) == a && Times(a, 1) == a;
  }

  /** An address on its own is a range of one. */
  lemma BareIsOne(a: Address, x: Address)
    ensures Cidr(ShowAddress(a)) == Some(ShowAddress(a) + "/" + "32")
    ensures Denotes(ShowAddress(a), x) <==> x == a
  {
    BareParses(a);
    AllBits(a);
    AddressBits();
    if InRange(x, a, 32, 32) {
      SameBits(x, a, 32);
    }
  }

  // ---- `proxmox::in_network` ----

  type Address6 = n: nat | n < 0x1_0000_0000_0000_0000_0000_0000_0000_0000

  lemma Address6Bits()
    ensures Pow2(128) == 0x1_0000_0000_0000_0000_0000_0000_0000_0000
  {
    AddressBits();
    Pow2Add(32, 32);
    Pow2Add(64, 64);
  }

  datatype IpAddr = V4(v4: Address) | V6(v6: Address6)

  /** `to_ipv4_mapped`: the last four bytes of `::ffff:a.b.c.d`. */
  function Mapped(a: Address6): Option<Address>
  {
    if a / 0x1_0000_0000 == 0xFFFF then Some(a % 0x1_0000_0000) else None
  }

  /** Equal once everything after the first `prefix` bits is cleared; a prefix too long is the whole address. */
  predicate Agree(x: nat, y: nat, width: nat, prefix: nat)
  {
    var p := if prefix < width then prefix else width;
    Mask(x, width, p) == Mask(y, width, p)
  }

  lemma AgreeIsPrefix(x: nat, y: nat, width: nat, prefix: nat)
    requires x < Pow2(width) && y < Pow2(width)
    ensures Agree(x, y, width, prefix) <==> forall i :: width - prefix <= i < width && 0 <= i ==> Bit(x, i) == Bit(y, i)
  {
    MaskComparesPrefix(x, y, width, if prefix < width then prefix else width);
  }

  predicate InNetwork(ip: IpAddr, network: IpAddr, prefix: nat)
  {
    match (ip, network)
    case (V4(ip), V4(net)) => Agree(ip, net, 32, prefix)
    case (V6(ip), V6(net)) => Agree(ip, net, 128, prefix)
    case (V6(ip), V4(net)) =>
      (match Mapped(ip)
       case None => false
       case Some(v4) => Agree(v4, net, 32, prefix))
    case _ => false
  }

  /** The IPv4 test is equality of canonical forms. */
  lemma InNetworkIsCidr(ip: Address, net: Address, prefix: nat)
    requires prefix <= 32
    ensures InNetwork(V4(ip), V4(net), prefix)
       <==> Cidr(ShowRange(Range(ip, prefix))) == Cidr(ShowRange(Range(net, prefix)))
  {
    RangeRoundTrip(Range(ip, prefix));
    RangeRoundTrip(Range(net, prefix));
    MaskFits(ip, prefix);
    MaskFits(net, prefix);
    RangeRoundTrip(Range(Mask(ip, 32, prefix), prefix));
    RangeRoundTrip(Range(Mask(net, 32, prefix), prefix));
  }

  /** Membership is agreement on the prefix, in either family; an IPv4-mapped address counts as the IPv4 one. */
  lemma InNetworkIsPrefix(ip: IpAddr, network: IpAddr, prefix: nat)
    ensures InNetwork(ip, network, prefix) <==>
      (match (ip, network)
       case (V4(x), V4(net)) => forall i :: 32 - prefix <= i < 32 && 0 <= i ==> Bit(x, i) == Bit(net, i)
       case (V6(x), V6(net)) => forall i :: 128 - prefix <= i < 128 && 0 <= i ==> Bit(x, i) == Bit(net, i)
       case (V6(x), V4(net)) => x / 0x1_0000_0000 == 0xFFFF && InNetwork(V4(x % 0x1_0000_0000), V4(net), prefix)
       case (V4(_), V6(_)) => false)
  {
    match (ip, network)
    case (V4(x), V4(net)) => AddressBits(); AgreeIsPrefix(x, net, 32, prefix);
    case (V6(x), V6(net)) => Address6Bits(); AgreeIsPrefix(x, net, 128, prefix);
    case _ =>
  }
}
