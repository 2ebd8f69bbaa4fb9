/** The names of connections in `Mymuduo/TcpServer.cc` and the address text of
    `Mymuduo/InetAddress.cc`. */
module ServerNames {
  const DIGITS: string := "0123456789"
  const BUFFER_SIZE: nat := 64
  const INT_LIMIT: nat := 0x8000_0000

  /** `%d` of a non-negative number. */
  function Decimal(n: nat): (s: string)
    ensures s != [] && (|s| == 1 <==> n < 10)
  {
    if n < 10 then [DIGITS[n]] else Decimal(n / 10) + [DIGITS[n % 10]]
  }

  /** The number a string of digits denotes. */
  function Value(s: string): nat
    requires forall i :: 0 <= i < |s| ==> s[i] in DIGITS
  {
    if s == [] then 0 else 10 * Value(s[..|s| - 1]) + (s[|s| - 1] as nat - '0' as nat)
  }

  lemma DigitValue(d: nat)
    requires d < 10
    ensures DIGITS[d] in DIGITS && DIGITS[d] as nat == '0' as nat + d
  {}

  /** The text of a number is digits only, without a leading zero, and denotes the number. */
  lemma {:induction false} DecimalDenotes(n: nat)
    ensures forall i :: 0 <= i < |Decimal(n)| ==> Decimal(n)[i] in DIGITS
    ensures Value(Decimal(n)) == n
    ensures Decimal(n)[0] == '0' ==> n == 0
  {
    DigitValue(n % 10);
    if n >= 10 {
      DecimalDenotes(n / 10);
      assert Decimal(n)[..|Decimal(n)| - 1] == Decimal(n / 10);
    } else {
      assert [DIGITS[n]][..0] == [];
    }
  }

  lemma {:induction false} DecimalInjective(m: nat, n: nat)
    requires Decimal(m) == Decimal(n)
    ensures m == n
    decreases m
  {
    var s := Decimal(m);
    var last := |s| - 1;
    assert s[last] == DIGITS[m % 10] == DIGITS[n % 10];
    assert m % 10 == n % 10;
    if m >= 10 && n >= 10 {
      assert s[..last] == Decimal(m / 10) == Decimal(n / 10);
      DecimalInjective(m / 10, n / 10);
    }
  }

  function Pow10(k: nat): nat {
    if k == 0 then 1 else 10 * Pow10(k - 1)
  }

  lemma {:induction false} DecimalLength(n: nat, k: nat)
    requires k >= 1 && n < Pow10(k)
    ensures |Decimal(n)| <= k
  {
    if n >= 10 {
      DecimalLength(n / 10, k - 1);
    }
  }

  /** A dotted quad and a port. */
  datatype Address = Address(a: nat, b: nat, c: nat, d: nat, port: nat) {
    predicate Ok() {
      a < 256 && b < 256 && c < 256 && d < 256 && port < 65536
    }
  }

  /** `toIpPort`. */
  function IpPort(x: Address): string {
    Decimal(x.a) + "." + Decimal(x.b) + "." + Decimal(x.c) + "." + Decimal(x.d) + " : " + Decimal(x.port)
  }

  lemma IpPortLength(x: Address)
    requires x.Ok()
    ensures |IpPort(x)| <= 23
  {
    assert Pow10(3) == 1000 by { assert Pow10(1) == 10; assert Pow10(2) == 100; }
    assert Pow10(5) == 100000 by { assert Pow10(4) == 10000; }
    DecimalLength(x.a, 3);
    DecimalLength(x.b, 3);
    DecimalLength(x.c, 3);
    DecimalLength(x.d, 3);
    DecimalLength(x.port, 5);
  }

  /** `snprintf` into 64 bytes keeps 63 characters. */
  function Printed(s: string): (r: string)
    ensures r <= s && |r| == if |s| < 63 then |s| else 63
  {
    if |s| < BUFFER_SIZE then s else s[..BUFFER_SIZE - 1]
  }

  function ConnName(server: string, ipPort: string, id: nat): string {
    server + Printed("-" + ipPort + "#" + Decimal(id))
  }

  lemma SuffixFits(x: Address, id: nat)
    requires x.Ok() && id < INT_LIMIT
    ensures |"-" + IpPort(x) + "#" + Decimal(id)| < BUFFER_SIZE
  {
    IpPortLength(x);
    assert Pow10(10) == 10_000_000_000 by {
      assert Pow10(2) == 100; assert Pow10(4) == 10000; assert Pow10(6) == 1000000; assert Pow10(8) == 100000000;
    }
    DecimalLength(id, 10);
  }

  /** Unique names: no two connection numbers an `int` can hold give the same name. */
  lemma NamesDiffer(server: string, x: Address, i: nat, j: nat)
    requires x.Ok() && i < INT_LIMIT && j < INT_LIMIT
    ensures ConnName(server, IpPort(x), i) == ConnName(server, IpPort(x), j) <==> i == j
  {
    SuffixFits(x, i);
    SuffixFits(x, j);
    var q := "-" + IpPort(x) + "#";
    var a, b := ConnName(server, IpPort(x), i), ConnName(server, IpPort(x), j);
    if a == b {
      Cancel(server, q + Decimal(i), q + Decimal(j));
      Cancel(q, Decimal(i), Decimal(j));
      DecimalInjective(i, j);
    }
  }

  /** What a name reads, as long as the number is an `int`. */
  lemma NameReads(server: string, x: Address, id: nat)
    requires x.Ok() && id < 0x8000_0000
    ensures ConnName(server, IpPort(x), id) == server + "-" + IpPort(x) + "#" + Decimal(id)
    ensures |"-" + IpPort(x) + "#" + Decimal(id)| <= 63
  {
    SuffixFits(x, id);
    Reassociate(server, IpPort(x), Decimal(id));
  }

  lemma Reassociate(p: string, q: string, r: string)
    ensures p + ("-" + q + "#" + r) == p + "-" + q + "#" + r
  {}

  lemma SplitNotLater(a: string, b: string, s: string, t: string, sep: char)
    requires a + [sep] + s == b + [sep] + t && sep !in b
    ensures |b| <= |a|
  {
    var text := b + [sep] + t;
    assert forall i :: 0 <= i < |b| ==> text[i] == b[i];
    assert (a + [sep] + s)[|a|] == sep;
  }

  /** Where a separator that the first parts do not contain splits a text. */
  lemma SplitUnique(a: string, b: string, s: string, t: string, sep: char)
    requires a + [sep] + s == b + [sep] + t && sep !in a && sep !in b
    ensures a == b && s == t
  {
    SplitNotLater(a, b, s, t, sep);
    SplitNotLater(b, a, t, s, sep);
    assert a == (a + [sep] + s)[..|a|] && b == (b + [sep] + t)[..|b|];
    assert s == (a + [sep] + s)[|a| + 1..] && t == (b + [sep] + t)[|b| + 1..];
  }

  /** A number before a dot or a blank is determined by the text. */
  lemma PartUnique(m: nat, n: nat, s: string, t: string, sep: char)
    requires Decimal(m) + [sep] + s == Decimal(n) + [sep] + t && (sep == '.' || sep == ' ')
    ensures m == n && s == t
  {
    DecimalDenotes(m);
    DecimalDenotes(n);
    SplitUnique(Decimal(m), Decimal(n), s, t, sep);
    DecimalInjective(m, n);
  }

  /** The address text from its last number on, and from the second, third and fourth. */
  function PortText(x: Address): string {
    ": " + Decimal(x.port)
  }

  function TextFromD(x: Address): string {
    Decimal(x.d) + [' '] + PortText(x)
  }

  function TextFromC(x: Address): string {
    Decimal(x.c) + ['.'] + TextFromD(x)
  }

  function TextFromB(x: Address): string {
    Decimal(x.b) + ['.'] + TextFromC(x)
  }

  lemma IpPortParts(x: Address)
    ensures IpPort(x) == Decimal(x.a) + ['.'] + TextFromB(x)
  {
    var a, b, c, d, port := Decimal(x.a), Decimal(x.b), Decimal(x.c), Decimal(x.d), Decimal(x.port);
    assert IpPort(x) == a + "." + b + "." + c + "." + d + " : " + port;
    assert d + " : " + port == TextFromD(x);
    assert c + "." + (d + " : " + port) == TextFromC(x);
    assert b + "." + TextFromC(x) == TextFromB(x);
  }

  /** The address text determines the address. */
  lemma IpPortInjective(x: Address, y: Address)
    requires IpPort(x) == IpPort(y)
    ensures x == y
  {
    IpPortParts(x);
    IpPortParts(y);
    PartUnique(x.a, y.a, TextFromB(x), TextFromB(y), '.');
    PartUnique(x.b, y.b, TextFromC(x), TextFromC(y), '.');
    PartUnique(x.c, y.c, TextFromD(x), TextFromD(y), '.');
    PartUnique(x.d, y.d, PortText(x), PortText(y), ' ');
    Cancel(": ", Decimal(x.port), Decimal(y.port));
    DecimalInjective(x.port, y.port);
  }

  lemma Cancel(p: string, a: string, b: string)
    requires p + a == p + b
    ensures a == b
  {
    assert a == (p + a)[|p|..] && b == (p + b)[|p|..];
  }
}
