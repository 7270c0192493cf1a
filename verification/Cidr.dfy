/** IPv4 /24 blocks in their textual form. */
module Cidr {
  import opened Prelude
  import opened Text

  type Octet = x: int | 0 <= x < 256

  datatype Address = Address(a: Octet, b: Octet, c: Octet, d: Octet)

  predicate AllDigits(s: string) {
    forall i :: 0 <= i < |s| ==> '0' <= s[i] <= '9'
  }

  function ParseDec(s: string): nat
    requires AllDigits(s)
  {
    if s == "" then 0 else 10 * ParseDec(s[..|s| - 1]) + (s[|s| - 1] as int - '0' as int)
  }

  /** One to three digits, no leading zero, at most 255. */
  function ParseOctet(s: string): (r: Option<Octet>) {
    if 1 <= |s| <= 3 && AllDigits(s) && (|s| == 1 || s[0] != '0') && ParseDec(s) < 256 then Some(ParseDec(s)) else None
  }

  /** The text split at every dot. */
  function Fields(s: string): (r: seq<string>)
    ensures |r| > 0
    decreases s
  {
    var f := Before(s, {'.'});
    if |f| == |s| then [f] else [f] + Fields(s[|f| + 1..])
  }

  function ParseIPv4(s: string): Option<Address> {
    var fs := Fields(s);
    if |fs| != 4 then None
    else
      var a, b, c, d := ParseOctet(fs[0]), ParseOctet(fs[1]), ParseOctet(fs[2]), ParseOctet(fs[3]);
      if a.Some? && b.Some? && c.Some? && d.Some? then Some(Address(a.value, b.value, c.value, d.value)) else None
  }

  /** The address before the slash; None without a slash or with anything but an IPv4 address. */
  function HostPart(cidr: string): Option<Address> {
    var ip := Before(cidr, {'/'});
    if |ip| == |cidr| then None else ParseIPv4(ip)
  }

  function ThirdOctet(cidr: string): Option<Octet> {
    var h := HostPart(cidr);
    if h.Some? then Some(h.value.c) else None
  }

  /** Whether an address lies in a /24 block. */
  predicate InBlock(x: Address, cidr: string) {
    var h := HostPart(cidr);
    h.Some? && HasSuffix(cidr, "/24") && h.value.a == x.a && h.value.b == x.b && h.value.c == x.c
  }

  function DottedQuad(a: Octet, b: Octet, c: Octet): string {
    Digits(a) + ("." + (Digits(b) + ("." + (Digits(c) + ("." + "0")))))
  }

  function Slash24(a: Octet, b: Octet, c: Octet): string {
    DottedQuad(a, b, c) + "/24"
  }

  // ---- Round trip ---------------------------------------------------------------------

  lemma {:induction false} ParseDigits(n: nat)
    ensures ParseDec(Digits(n)) == n
  {
    if n >= 10 {
      ParseDigits(n / 10);
      var s := Digits(n);
      assert s[..|s| - 1] == Digits(n / 10);
    }
  }

  lemma {:induction false} OctetRoundTrip(n: Octet)
    ensures ParseOctet(Digits(n)) == Some(n)
  {
    ParseDigits(n);
    if n >= 100 {
      assert Digits(n) == Digits(n / 10) + [Digit(n % 10)] == ([Digit(n / 100)] + [Digit(n / 10 % 10)]) + [Digit(n % 10)];
    } else if n >= 10 {
      assert Digits(n) == [Digit(n / 10)] + [Digit(n % 10)];
    }
  }

  lemma {:induction false} BeforeStop(s: string, c: char, rest: string)
    requires c !in s
    ensures Before(s + ([c] + rest), {c}) == s
  {
    if s != "" {
      assert (s + ([c] + rest))[1..] == s[1..] + ([c] + rest);
      BeforeStop(s[1..], c, rest);
      assert s == [s[0]] + s[1..];
    }
  }

  lemma {:induction false} BeforeNone(s: string, c: char)
    requires c !in s
    ensures Before(s, {c}) == s
  {
    if s != "" {
      BeforeNone(s[1..], c);
      assert s == [s[0]] + s[1..];
    }
  }

  lemma {:induction false} FieldsStep(s: string, f: string, rest: string)
    requires '.' !in f && s == f + ("." + rest)
    ensures Fields(s) == [f] + Fields(rest)
  {
    assert Before(s, {'.'}) == f by {
      BeforeStop(f, '.', rest);
    }
    assert s[|f| + 1..] == rest;
  }

  lemma {:induction false} QuadFields(a: Octet, b: Octet, c: Octet)
    ensures Fields(DottedQuad(a, b, c)) == [Digits(a), Digits(b), Digits(c), "0"]
  {
    var r2 := Digits(c) + ("." + "0");
    var r1 := Digits(b) + ("." + r2);
    assert Fields("0") == ["0"] by {
      BeforeNone("0", '.');
    }
    FieldsStep(r2, Digits(c), "0");
    FieldsStep(r1, Digits(b), r2);
    FieldsStep(DottedQuad(a, b, c), Digits(a), r1);
  }

  lemma {:induction false} QuadParses(a: Octet, b: Octet, c: Octet)
    ensures ParseIPv4(DottedQuad(a, b, c)) == Some(Address(a, b, c, 0))
  {
    QuadFields(a, b, c);
    OctetRoundTrip(a);
    OctetRoundTrip(b);
    OctetRoundTrip(c);
    assert Digits(0) == "0";
    OctetRoundTrip(0);
  }

  /** Formatting a block and reading it back: the third octet survives, and exactly
      the block's own addresses are in it. */
  lemma BlockRoundTrip(a: Octet, b: Octet, c: Octet, x: Address)
    ensures ThirdOctet(Slash24(a, b, c)) == Some(c)
    ensures InBlock(x, Slash24(a, b, c)) <==> x.a == a && x.b == b && x.c == c
  {
    QuadParses(a, b, c);
    var q := DottedQuad(a, b, c);
    assert '/' !in q;
    assert Slash24(a, b, c) == q + (['/'] + "24");
    BeforeStop(q, '/', "24");
    assert HasSuffix(Slash24(a, b, c), "/24");
  }
}
