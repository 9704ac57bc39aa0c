/** "a.b.c.d:port" endpoints: the relay's reader against the shape it should accept. */
module RelayEndpoint {
  import opened Naming

  datatype Endpoint = Endpoint(ip: string, port: nat)

  // ---- Reader --------------------------------------------------------------------------

  function LastColon(s: string): Option<nat>
  {
    if s == "" then None
    else if s[|s| - 1] == ':' then Some(|s| - 1)
    else LastColon(s[..|s| - 1])
  }

  predicate AllDigits(s: string)
  {
    forall i | 0 <= i < |s| :: IsDigit(s[i])
  }

  /** Value of a decimal numeral. */
  function Value(s: string): nat
    requires AllDigits(s)
  {
    if s == "" then 0
    else
      assert IsDigit(s[|s| - 1]);
      Value(s[..|s| - 1]) * 10 + (s[|s| - 1] as nat - '0' as nat)
  }

  predicate OctetOk(s: string)
  {
    1 <= |s| <= 3 && AllDigits(s) && Value(s) <= 255
  }

  predicate PortOk(s: string)
  {
    1 <= |s| <= 5 && AllDigits(s) && 1 <= Value(s) <= 65535
  }

  /** The scan over the address: how many octets, if all are fine. */
  function Octets(ip: string, octet: string): Option<nat>
    decreases |ip|
  {
    if ip == "" then (if OctetOk(octet) then Some(1) else None)
    else if ip[0] == '.' then
      if !OctetOk(octet) then None
      else
        var rest := Octets(ip[1..], "");
        if rest.None? then None else Some(rest.value + 1)
    else Octets(ip[1..], octet + [ip[0]])
  }

  function ParseEndpoint(spec: string): Option<Endpoint>
  {
    var colon := LastColon(spec);
    if colon.None? || colon.value >= |spec| then None
    else
      var ip, port := spec[..colon.value], spec[colon.value + 1..];
      if PortOk(port) && Octets(ip, "") == Some(4) then Some(Endpoint(ip, Value(port))) else None
  }

  method ReadPort(text: string) returns (port: Option<nat>)
    ensures port == if PortOk(text) then Some(Value(text)) else None
  {
    if |text| == 0 || |text| > 5 {
      return None;
    }
    var value := 0;
    for i := 0 to |text|
      invariant AllDigits(text[..i]) && value == Value(text[..i]) && value <= 65535
    {
      if !IsDigit(text[i]) {
        assert !AllDigits(text);
        return None;
      }
      assert text[..i + 1][..i] == text[..i];
      value := value * 10 + (text[i] as nat - '0' as nat);
      if value > 65535 {
        PrefixSmaller(text, i + 1);
        return None;
      }
    }
    assert text[..|text|] == text;
    return if value == 0 then None else Some(value);
  }

  lemma {:induction false} PrefixSmaller(s: string, n: nat)
    requires n <= |s| && AllDigits(s[..n])
    ensures AllDigits(s) ==> Value(s[..n]) <= Value(s)
    decreases |s|
  {
    if n < |s| {
      var t := s[..|s| - 1];
      assert t[..n] == s[..n];
      PrefixSmaller(t, n);
      if AllDigits(s) { assert AllDigits(t); }
    } else {
      assert s[..n] == s;
    }
  }

  method ReadOctet(octet: string) returns (ok: bool)
    ensures ok == OctetOk(octet)
  {
    if |octet| == 0 || |octet| > 3 {
      return false;
    }
    var value := 0;
    for i := 0 to |octet|
      invariant AllDigits(octet[..i]) && value == Value(octet[..i])
    {
      if !IsDigit(octet[i]) {
        assert !AllDigits(octet);
        return false;
      }
      assert octet[..i + 1][..i] == octet[..i];
      value := value * 10 + (octet[i] as nat - '0' as nat);
    }
    assert octet[..|octet|] == octet;
    return value <= 255;
  }

  method ReadEndpoint(spec: string) returns (out: Option<Endpoint>)
    ensures out == ParseEndpoint(spec)
  {
    var colon := LastColon(spec);
    if colon.None? {
      return None;
    }
    ColonAt(spec);
    var ip := spec[..colon.value];
    var port := ReadPort(spec[colon.value + 1..]);
    if port.None? {
      return None;
    }
    var octet, parts := "", 0;
    ghost var goal := Octets(ip, "");
    assert ip[0..] == ip;
    for i := 0 to |ip|
      invariant goal == Plus(Octets(ip[i..], octet), parts)
    {
      assert ip[i..][1..] == ip[i + 1..] && ip[i..][0] == ip[i];
      if ip[i] == '.' {
        var ok := ReadOctet(octet);
        if !ok {
          return None;
        }
        parts := parts + 1;
        octet := "";
      } else {
        octet := octet + [ip[i]];
      }
    }
    var ok := ReadOctet(octet);
    if !ok || parts + 1 != 4 {
      return None;
    }
    return Some(Endpoint(ip, port.value));
  }

  function Plus(n: Option<nat>, k: nat): Option<nat>
  {
    if n.None? then None else Some(n.value + k)
  }

  lemma {:induction false} ColonAt(s: string)
    ensures var c := LastColon(s);
            && (c.Some? ==> c.value < |s| && s[c.value] == ':'
                            && forall i | c.value < i < |s| :: s[i] != ':')
            && (c.None? ==> forall i | 0 <= i < |s| :: s[i] != ':')
    decreases |s|
  {
    if s != "" && s[|s| - 1] != ':' {
      ColonAt(s[..|s| - 1]);
    }
  }

  // ---- The shape ---------------------------------------------------------------------------

  /** Four octets and a port. */
  ghost predicate IsEndpoint(spec: string, e: Endpoint)
  {
    exists a, b, c, d, p ::
      && OctetOk(a) && OctetOk(b) && OctetOk(c) && OctetOk(d) && PortOk(p)
      && e.ip == Dotted([a, b, c, d]) && spec == e.ip + ":" + p && e.port == Value(p)
  }

  function Dotted(parts: seq<string>): string
    requires parts != []
  {
    if |parts| == 1 then parts[0] else parts[0] + "." + Dotted(parts[1..])
  }

  predicate AllOctets(parts: seq<string>)
  {
    forall i | 0 <= i < |parts| :: OctetOk(parts[i])
  }

  lemma {:induction false} OctetsSplit(ip: string, octet: string) returns (parts: seq<string>)
    requires Octets(ip, octet).Some?
    ensures |parts| == Octets(ip, octet).value > 0 && AllOctets(parts)
    ensures Dotted(parts) == octet + ip
    decreases |ip|
  {
    if ip == "" {
      parts := [octet];
    } else if ip[0] == '.' {
      var rest := OctetsSplit(ip[1..], "");
      parts := [octet] + rest;
      assert parts[1..] == rest;
      assert "." + ip[1..] == ip;
    } else {
      parts := OctetsSplit(ip[1..], octet + [ip[0]]);
      assert octet + [ip[0]] + ip[1..] == octet + ip;
    }
  }

  /** An octet scanned to its end. */
  lemma {:induction false} ScanOctet(rest: string, octet: string, tail: string)
    requires AllDigits(rest) && (tail == "" || tail[0] == '.')
    ensures Octets(rest + tail, octet) == Octets(tail, octet + rest)
    decreases |rest|
  {
    if rest == "" {
      assert rest + tail == tail && octet + rest == octet;
    } else {
      assert IsDigit(rest[0]);
      assert (rest + tail)[1..] == rest[1..] + tail;
      assert AllDigits(rest[1..]) by { forall i | 0 <= i < |rest[1..]| ensures IsDigit(rest[1..][i]) { assert rest[1..][i] == rest[i + 1]; } }
      ScanOctet(rest[1..], octet + [rest[0]], tail);
      assert octet + [rest[0]] + rest[1..] == octet + rest;
    }
  }

  lemma {:induction false} OctetsJoin(parts: seq<string>)
    requires parts != [] && AllOctets(parts)
    ensures Octets(Dotted(parts), "") == Some(|parts|)
    decreases |parts|
  {
    hide Value;
    assert OctetOk(parts[0]);
    if |parts| == 1 {
      ScanOctet(parts[0], "", "");
      assert parts[0] + "" == parts[0] && "" + parts[0] == parts[0];
    } else {
      var tail := "." + Dotted(parts[1..]);
      assert Dotted(parts) == parts[0] + tail;
      ScanOctet(parts[0], "", tail);
      assert "" + parts[0] == parts[0] && tail[1..] == Dotted(parts[1..]);
      OctetsJoin(parts[1..]);
    }
  }

  /** The reader accepts exactly the endpoints. */
  lemma ParsesExactly(spec: string, e: Endpoint)
    ensures ParseEndpoint(spec) == Some(e) <==> IsEndpoint(spec, e)
  {
    hide ParseEndpoint, IsEndpoint;
    if ParseEndpoint(spec) == Some(e) { AcceptedIsEndpoint(spec, e); }
    if IsEndpoint(spec, e) { EndpointAccepted(spec, e); }
  }

  lemma AcceptedIsEndpoint(spec: string, e: Endpoint)
    requires ParseEndpoint(spec) == Some(e)
    ensures IsEndpoint(spec, e)
  {
    hide Octets, Dotted, OctetOk, LastColon, Value;
    ColonAt(spec);
    var colon := LastColon(spec).value;
    var parts := OctetsSplit(spec[..colon], "");
    assert "" + spec[..colon] == spec[..colon];
    assert parts == [parts[0], parts[1], parts[2], parts[3]];
    assert OctetOk(parts[0]) && OctetOk(parts[1]) && OctetOk(parts[2]) && OctetOk(parts[3]);
    assert spec == e.ip + ":" + spec[colon + 1..];
  }

  lemma EndpointAccepted(spec: string, e: Endpoint)
    requires IsEndpoint(spec, e)
    ensures ParseEndpoint(spec) == Some(e)
  {
    hide Octets, Dotted, OctetOk, LastColon, Value;
    var a, b, c, d, p :| OctetOk(a) && OctetOk(b) && OctetOk(c) && OctetOk(d) && PortOk(p)
      && e.ip == Dotted([a, b, c, d]) && spec == e.ip + ":" + p && e.port == Value(p);
    var parts := [a, b, c, d];
    assert AllOctets(parts);
    OctetsJoin(parts);
    ColonBetween(e.ip, p);
  }

  lemma ColonBetween(ip: string, p: string)
    requires AllDigits(p)
    ensures var spec := ip + ":" + p;
            LastColon(spec) == Some(|ip|) && spec[..|ip|] == ip && spec[|ip| + 1..] == p
  {
    var spec := ip + ":" + p;
    ColonAt(spec);
    assert spec[|ip|] == ':';
    forall i | |ip| < i < |spec| ensures spec[i] != ':' {
      assert spec[i] == p[i - |ip| - 1] && IsDigit(p[i - |ip| - 1]);
    }
  }

  // ---- Writing -------------------------------------------------------------------------------

  function Str(e: Endpoint): string
  {
    e.ip + ":" + Decimal(e.port)
  }

  lemma {:induction false} DecimalValue(n: nat)
    ensures AllDigits(Decimal(n)) && Value(Decimal(n)) == n
    decreases n
  {
    DecimalIsDigits(n);
    if n >= 10 {
      DecimalValue(n / 10);
      assert Decimal(n)[..|Decimal(n)| - 1] == Decimal(n / 10);
    } else {
      assert Decimal(n)[..0] == "";
    }
  }

  /** Below ten to the `d` a numeral has at most `d` digits. */
  lemma {:induction false} Digits(n: nat, bound: nat, d: nat)
    requires n < bound ==> d > 0
    requires bound == Tens(d)
    ensures n < bound ==> |Decimal(n)| <= d
    decreases d
  {
    if n < bound && n >= 10 {
      Digits(n / 10, Tens(d - 1), d - 1);
    }
  }

  function Tens(d: nat): nat
  {
    if d == 0 then 1 else 10 * Tens(d - 1)
  }

  /** What was parsed and written again is the same endpoint. */
  lemma WrittenReadsBack(spec: string, e: Endpoint)
    requires ParseEndpoint(spec) == Some(e)
    ensures ParseEndpoint(Str(e)) == Some(e)
  {
    ColonAt(spec);
    DecimalValue(e.port);
    assert Tens(5) == 100000;
    Digits(e.port, 100000, 5);
    DecimalIsDigits(e.port);
    ColonBetween(e.ip, Decimal(e.port));
  }
}
