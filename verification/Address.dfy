/** Host strings "ip:port": how `Run` of src/RPCServer.cc prints them and how `getAddr` of
    example/LoginRegisterService/RpcClientWithReconn.cc reads them back. */
module Address {
  const COLON: char := ':'
  const INT_MAX: int := 0x7fff_ffff

  function Digit(d: nat): char
    requires d < 10
  {
    "0123456789"[d]
  }

  /** `std::to_string` and `%d` of a non-negative number. */
  function Decimal(n: nat): (s: string)
    ensures |s| >= 1
  {
    if n < 10 then [Digit(n)] else Decimal(n / 10) + [Digit(n % 10)]
  }

  function ToString(n: int): string {
    if n < 0 then "-" + Decimal(-n) else Decimal(n)
  }

  function HostString(ip: string, port: int): string { ip + ":" + ToString(port) }

  // ---------------------------------------------------------------- reading

  predicate IsDigit(c: char) { '0' <= c <= '9' }
  predicate IsSpace(c: char) { c in " \t\n\r" || c as int == 11 || c as int == 12 }

  function ValueOf(c: char): nat
    requires IsDigit(c)
  {
    c as int - '0' as int
  }

  /** The number made of the leading digits, after `sofar`, and whether there was one. */
  function Digits(s: string, sofar: nat, any: bool): (nat, bool)
    decreases |s|
  {
    if s == "" || !IsDigit(s[0]) then (sofar, any)
    else Digits(s[1..], 10 * sofar + ValueOf(s[0]), true)
  }

  datatype Parsed = Number(n: int) | Throws

  /** `std::stoi`: leading white space, a sign, digits; anything may follow. Throws when there is no
      digit or the number is no int. */
  function Stoi(s: string): Parsed
    decreases |s|
  {
    if s != "" && IsSpace(s[0]) then Stoi(s[1..])
    else
      var negative := s != "" && s[0] == '-';
      var rest := if s != "" && (s[0] == '-' || s[0] == '+') then s[1..] else s;
      var (digits, any) := Digits(rest, 0, false);
      var v: int := digits;
      var n := if negative then -v else v;
      if !any || n > INT_MAX || n < -INT_MAX - 1 then Throws else Number(n)
  }

  /** The position of the first colon, or the length when there is none. */
  function FindColon(s: string): (p: nat)
    ensures p <= |s| && (p < |s| ==> s[p] == COLON) && COLON !in s[..p]
  {
    if s == "" || s[0] == COLON then 0
    else
      var p := FindColon(s[1..]);
      assert s[..p + 1] == [s[0]] + s[1..][..p];
      p + 1
  }

  datatype Addr = Addr(ip: string, port: int) | Thrown

  const FALLBACK := Addr("0.0.0.0", 123)

  /** `getAddr` on a host string: the port is cut to 16 bits; without a colon, a fixed address. */
  function GetAddr(host: string): Addr {
    var pos := FindColon(host);
    if pos == |host| then FALLBACK
    else
      match Stoi(host[pos + 1..])
      case Throws => Thrown
      case Number(n) => Addr(host[..pos], n % 0x1_0000)
  }

  // ---------------------------------------------------------------- round trip

  lemma {:induction false} DigitsSnoc(s: string, c: char, sofar: nat, any: bool)
    requires (forall d :: d in s ==> IsDigit(d)) && IsDigit(c)
    ensures Digits(s + [c], sofar, any) == (10 * Digits(s, sofar, any).0 + ValueOf(c), true)
    decreases |s|
  {
    if s == "" {
      assert [c][1..] == "" && s + [c] == [c];
    } else {
      assert (s + [c])[1..] == s[1..] + [c];
      DigitsSnoc(s[1..], c, 10 * sofar + ValueOf(s[0]), true);
    }
  }

  lemma {:induction false} DecimalRead(n: nat)
    ensures forall d :: d in Decimal(n) ==> IsDigit(d)
    ensures Digits(Decimal(n), 0, false) == (n, true)
  {
    if n < 10 {
      var c := Digit(n);
      assert IsDigit(c) && ValueOf(c) == n;
      assert [c][1..] == "";
      assert Digits([c], 0, false) == Digits("", 10 * 0 + ValueOf(c), true);
    } else {
      DecimalRead(n / 10);
      assert IsDigit(Digit(n % 10)) && ValueOf(Digit(n % 10)) == n % 10;
      DigitsSnoc(Decimal(n / 10), Digit(n % 10), 0, false);
    }
  }

  lemma {:induction false} DigitsStop(s: string, rest: string, sofar: nat, any: bool)
    requires (forall d :: d in s ==> IsDigit(d)) && (rest == "" || !IsDigit(rest[0]))
    ensures Digits(s + rest, sofar, any) == Digits(s, sofar, any)
    decreases |s|
  {
    if s == "" {
      assert s + rest == rest;
    } else {
      assert (s + rest)[1..] == s[1..] + rest;
      DigitsStop(s[1..], rest, 10 * sofar + ValueOf(s[0]), true);
    }
  }

  lemma {:induction false} SkipsSpace(spaces: string, s: string)
    requires forall c :: c in spaces ==> IsSpace(c)
    ensures Stoi(spaces + s) == Stoi(s)
    decreases |spaces|
  {
    hide Digits, IsSpace;
    if spaces == "" {
      assert spaces + s == s;
    } else {
      assert spaces[0] in spaces && (spaces + s)[1..] == spaces[1..] + s;
      SkipsSpace(spaces[1..], s);
    }
  }

  /** `std::stoi` in general: white space, an optional sign, a number, and then whatever does not go on
      with a digit; it throws exactly when the number is no 32-bit int. */
  lemma StoiForms(spaces: string, sign: string, n: int, rest: string)
    requires n >= 0 && (forall c :: c in spaces ==> IsSpace(c)) && sign in {"", "+", "-"}
             && (rest == "" || !IsDigit(rest[0]))
    ensures var v := if sign == "-" then -n else n;
            var read := Stoi(spaces + (sign + (Decimal(n) + rest)));
            read == if -2147483648 <= v <= 2147483647 then Number(v) else Throws
  {
    hide Digits, Decimal;
    var s := sign + (Decimal(n) + rest);
    SkipsSpace(spaces, s);
    DecimalRead(n);
    DigitsStop(Decimal(n), rest, 0, false);
    var c := Decimal(n)[0];
    assert c in Decimal(n) && IsDigit(c);
    if sign == "" {
      assert s == Decimal(n) + rest && s[0] == c;
    } else {
      assert s[0] == sign[0] && s[1..] == Decimal(n) + rest;
    }
  }

  /** Printing and reading back an int. */
  lemma StoiToString(n: int)
    requires -INT_MAX - 1 <= n <= INT_MAX
    ensures Stoi(ToString(n)) == Number(n)
  {
    hide Stoi, Decimal, IsSpace, IsDigit;
    var sign, m := if n < 0 then "-" else "", if n < 0 then -n else n;
    StoiForms("", sign, m, "");
    assert Decimal(m) + "" == Decimal(m);
    assert "" + (sign + Decimal(m)) == sign + Decimal(m);
    assert "" + Decimal(m) == Decimal(m);
  }

  lemma {:induction false} FindColonFirst(ip: string, rest: string)
    requires COLON !in ip
    ensures FindColon(ip + ":" + rest) == |ip|
  {
    if ip != "" {
      assert (ip + ":" + rest)[1..] == ip[1..] + ":" + rest;
      FindColonFirst(ip[1..], rest);
    }
  }

  lemma Reaches(ip: string, port: int)
    requires -INT_MAX - 1 <= port <= INT_MAX && COLON !in ip
    ensures GetAddr(HostString(ip, port)) == Addr(ip, port % 0x1_0000)
  {
    hide Stoi, ToString;
    var host := HostString(ip, port);
    FindColonFirst(ip, ToString(port));
    assert host[..|ip|] == ip && host[|ip| + 1..] == ToString(port);
    StoiToString(port);
  }

  lemma {:induction false} FindColonEarly(ip: string, rest: string)
    requires COLON in ip
    ensures FindColon(ip + rest) < |ip|
  {
    if ip[0] != COLON {
      assert (ip + rest)[1..] == ip[1..] + rest;
      FindColonEarly(ip[1..], rest);
    }
  }

  /** Exactly when does a client reach the address a server published? When the ip has no colon and
      the port is a 16-bit number. */
  lemma GetAddrInverse(ip: string, port: int)
    requires -INT_MAX - 1 <= port <= INT_MAX
    ensures GetAddr(HostString(ip, port)) == Addr(ip, port) <==> COLON !in ip && 0 <= port < 0x1_0000
  {
    hide Stoi, ToString, FindColon;
    if COLON !in ip {
      Reaches(ip, port);
    } else {
      var rest := ":" + ToString(port);
      assert HostString(ip, port) == ip + rest;
      FindColonEarly(ip, rest);
    }
  }

  lemma OneDigitMore(n: nat, s: string, d: nat)
    requires n > 0 && Decimal(n) == s && d < 10
    ensures Decimal(10 * n + d) == s + ["0123456789"[d]]
  {
    assert (10 * n + d) / 10 == n && (10 * n + d) % 10 == d;
  }

  /** Numbers are printed in decimal, and an address is its ip, a colon and its port. */
  lemma AddressAsPrinted()
    ensures Decimal(0) == "0" && ToString(-105) == "-105" && Decimal(23456) == "23456" && Decimal(789) == "789"
    ensures HostString("127.0.0.1", 8000) == "127.0.0.1:8000"
  {
    OneDigitMore(1, "1", 0);
    OneDigitMore(10, "10", 5);
    OneDigitMore(2, "2", 3);
    OneDigitMore(23, "23", 4);
    OneDigitMore(234, "234", 5);
    OneDigitMore(2345, "2345", 6);
    OneDigitMore(7, "7", 8);
    OneDigitMore(78, "78", 9);
    OneDigitMore(8, "8", 0);
    OneDigitMore(80, "80", 0);
    OneDigitMore(800, "800", 0);
    hide Decimal;
    assert "127.0.0.1" + ":" + "8000" == "127.0.0.1:8000";
  }

  /** Without a colon `getAddr` answers a fixed address; with one, the part before the first colon and the
      number behind it, cut to 16 bits. */
  lemma GetAddrElse(host: string) returns (ip: string, rest: string)
    ensures COLON !in host ==> GetAddr(host) == Addr("0.0.0.0", 123)
    ensures COLON in host ==>
              && host == ip + ":" + rest && COLON !in ip
              && GetAddr(host) == (if Stoi(rest).Throws? then Thrown else Addr(ip, Stoi(rest).n % 65536))
  {
    hide Stoi, FindColon;
    var pos := FindColon(host);
    ip, rest := "", "";
    if COLON in host {
      assert host == host[..pos] + host[pos..];
      ip, rest := host[..pos], host[pos + 1..];
      assert host == ip + [COLON] + rest;
    } else {
      assert host == host[..pos] + host[pos..];
    }
  }
}
