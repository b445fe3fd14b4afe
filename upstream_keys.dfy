/**
 * The string keys under which upstream state is looked up after a failed
 * connection: the group key is the configured `host:port` with every `:`
 * replaced by `_`, and the server key is the resolved IP address, `_` and the
 * decimal port.
 */
module UpstreamKeys {

  /** `s.replace(":", "_")`: every colon becomes an underscore. */
  function ReplaceColons(s: string): (r: string)
    ensures |r| == |s|
    ensures ':' !in r
    ensures forall i :: 0 <= i < |s| && s[i] != ':' ==> r[i] == s[i]
    ensures forall i :: 0 <= i < |s| && s[i] == ':' ==> r[i] == '_'
  {
    if s == [] then []
    else [if s[0] == ':' then '_' else s[0]] + ReplaceColons(s[1..])
  }

  /**
   * The group key of the upstream a connection was made for: the key of the
   * upstream configuration map. It is `ReplaceColons` applied to the engine's
   * `host:port`, named apart because the lemmas below relate it to
   * `ServerKey`.
   */
  function GroupKey(serverHostAndPort: string): (key: string)
    ensures |key| == |serverHostAndPort| && ':' !in key
    ensures forall i :: 0 <= i < |key| ==> key[i] == if serverHostAndPort[i] == ':' then '_' else serverHostAndPort[i]
  {
    ReplaceColons(serverHostAndPort)
  }

  predicate IsDigit(c: char) {
    '0' <= c <= '9'
  }

  predicate AllDigits(s: string) {
    forall i :: 0 <= i < |s| ==> IsDigit(s[i])
  }

  function DigitChar(d: nat): char
    requires d < 10
  {
    ('0' as int + d) as char
  }

  /** The decimal text of a port number, as string concatenation of an `int` gives it. */
  function DecimalString(n: nat): (s: string)
    ensures |s| >= 1
    ensures AllDigits(s)
    ensures (s[0] == '0') <==> n == 0
  {
    if n < 10 then [DigitChar(n)]
    else DecimalString(n / 10) + [DigitChar(n % 10)]
  }

  /** The number a string of decimal digits denotes. */
  function DecimalValue(s: string): nat
    requires AllDigits(s)
  {
    if s == [] then 0
    else DecimalValue(s[..|s| - 1]) * 10 + (s[|s| - 1] as int - '0' as int)
  }

  lemma {:induction false} DecimalRoundTrip(n: nat)
    ensures DecimalValue(DecimalString(n)) == n
  {
    var s := DecimalString(n);
    if n >= 10 {
      DecimalRoundTrip(n / 10);
      assert s[..|s| - 1] == DecimalString(n / 10);
    }
  }

  /**
   * The key of one server within its group: `ip + "_" + port`. It splits back
   * into the address, an underscore, and the digits of the port.
   */
  function ServerKey(hostAddress: string, port: nat): (key: string)
    ensures |key| > |hostAddress| + 1
    ensures key[..|hostAddress|] == hostAddress && key[|hostAddress|] == '_'
    ensures AllDigits(key[|hostAddress| + 1..]) && DecimalValue(key[|hostAddress| + 1..]) == port
  {
    DecimalRoundTrip(port);
    var key := hostAddress + "_" + DecimalString(port);
    assert key[|hostAddress| + 1..] == DecimalString(port);
    key
  }

  /**
   * Distinct servers get distinct keys, as long as the address itself holds no
   * underscore (no IPv4 or IPv6 textual address does).
   */
  lemma ServerKeyInjective(h1: string, p1: nat, h2: string, p2: nat)
    requires '_' !in h1 && '_' !in h2
    requires ServerKey(h1, p1) == ServerKey(h2, p2)
    ensures h1 == h2 && p1 == p2
  {
  }

  lemma {:induction false} ReplaceColonsConcat(a: string, b: string)
    ensures ReplaceColons(a + b) == ReplaceColons(a) + ReplaceColons(b)
  {
    if a != [] {
      assert (a + b)[1..] == a[1..] + b;
      ReplaceColonsConcat(a[1..], b);
    }
  }

  lemma {:induction false} ReplaceColonsNoColon(s: string)
    requires ':' !in s
    ensures ReplaceColons(s) == s
  {
    if s != [] {
      ReplaceColonsNoColon(s[1..]);
    }
  }

  /**
   * For an upstream configured directly by an IPv4 address (one without a
   * colon), the group key of `ip:port` is the same string as the server key
   * of that address and port. An IPv6 address keeps its colons in the server
   * key but loses them in the group key, so the two differ.
   */
  lemma GroupKeyOfAddress(hostAddress: string, port: nat)
    requires ':' !in hostAddress
    ensures GroupKey(hostAddress + ":" + DecimalString(port)) == ServerKey(hostAddress, port)
  {
    var d := DecimalString(port);
    assert ':' !in d by {
      assert forall i :: 0 <= i < |d| ==> IsDigit(d[i]);
    }
    ReplaceColonsConcat(hostAddress + ":", d);
    ReplaceColonsConcat(hostAddress, ":");
    ReplaceColonsNoColon(hostAddress);
    ReplaceColonsNoColon(d);
  }
}
