/** Health check targets: "ICMP", or a protocol, a colon and a port. */
module HealthTarget {
  import opened Base

  function Digit(d: nat): char
    requires d < 10
  {
    ('0' as int + d) as char
  }

  predicate IsDigit(c: char) {
    '0' <= c <= '9'
  }

  predicate AllDigits(s: string) {
    s != "" && forall i :: 0 <= i < |s| ==> IsDigit(s[i])
  }

  /** How a port is printed with %d. */
  function Decimal(n: nat): string {
    if n < 10 then [Digit(n)] else Decimal(n / 10) + [Digit(n % 10)]
  }

  function FromDecimal(s: string): int {
    if s == "" then 0 else 10 * FromDecimal(s[..|s| - 1]) + (s[|s| - 1] as int - '0' as int)
  }

  /** A printed port consists of digits and reads back as the same number. */
  lemma {:induction false} DecimalReadsBack(n: nat)
    ensures AllDigits(Decimal(n)) && FromDecimal(Decimal(n)) == n
  {
    if n >= 10 {
      DecimalReadsBack(n / 10);
      assert Decimal(n)[..|Decimal(n)| - 1] == Decimal(n / 10);
    } else {
      assert Decimal(n)[..0] == "";
    }
  }

  /** What follows a protocol and a colon, if that is all digits and not empty. */
  function PortAfter(protocol: string, target: string): Option<string> {
    var n := |protocol| + 1;
    if n < |target| && target[..n] == protocol + ":" && AllDigits(target[n..]) then Some(target[n..]) else None
  }

  /** The two groups of the match, or `None` where the match fails. */
  function Separate(target: string): Option<(string, string)> {
    if target == "ICMP" then Some(("ICMP", ""))
    else if PortAfter("TCP", target).Some? then Some(("TCP", PortAfter("TCP", target).value))
    else if PortAfter("HTTP", target).Some? then Some(("HTTP", PortAfter("HTTP", target).value))
    else if PortAfter("HTTPS", target).Some? then Some(("HTTPS", PortAfter("HTTPS", target).value))
    else None
  }

  function TcpTarget(nodePort: nat): string {
    "TCP:" + Decimal(nodePort)
  }

  lemma PortAfterIs(protocol: string, target: string, port: string)
    ensures PortAfter(protocol, target) == Some(port) <==> target == protocol + ":" + port && AllDigits(port)
  {
  }

  /** The separator accepts exactly the well-formed targets and returns their two parts. */
  lemma SeparateIs(target: string, protocol: string, port: string)
    ensures Separate(target) == Some((protocol, port)) <==>
            || (target == "ICMP" && protocol == "ICMP" && port == "")
            || (protocol in {"TCP", "HTTP", "HTTPS"} && AllDigits(port) && target == protocol + ":" + port)
  {
    PortAfterIs("TCP", target, port);
    PortAfterIs("HTTP", target, port);
    PortAfterIs("HTTPS", target, port);
    var t, h, s := PortAfter("TCP", target), PortAfter("HTTP", target), PortAfter("HTTPS", target);
    if t.Some? { PortAfterIs("TCP", target, t.value); assert target[0] == 'T' && target[3] == ':'; }
    if h.Some? { PortAfterIs("HTTP", target, h.value); assert target[0] == 'H' && target[4] == ':'; }
    if s.Some? { PortAfterIs("HTTPS", target, s.value); assert target[0] == 'H' && target[4] == 'S'; }
  }

  /** What the builders print reads back, and never makes the match fail. */
  lemma {:induction false} BuiltTargetReadsBack(nodePort: nat)
    ensures Separate(TcpTarget(nodePort)) == Some(("TCP", Decimal(nodePort)))
    ensures FromDecimal(Separate(TcpTarget(nodePort)).value.1) == nodePort
    ensures Separate("ICMP") == Some(("ICMP", ""))
  {
    DecimalReadsBack(nodePort);
    assert TcpTarget(nodePort) == "TCP" + ":" + Decimal(nodePort);
    SeparateIs(TcpTarget(nodePort), "TCP", Decimal(nodePort));
  }
}
