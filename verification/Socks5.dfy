/** The SOCKS5 side of the proxy: handshake parser, replies, and what a client gets to see (grid/proxy.rs). */
module Socks5 {
  import opened Prelude
  import opened Decimal
  import opened Io

  const VERSION: Byte := 5
  const AUTH_NONE: Byte := 0
  const CMD_CONNECT: Byte := 1
  const ATYP_IPV4: Byte := 1
  const ATYP_DOMAIN: Byte := 3
  const ATYP_IPV6: Byte := 4
  const REP_SUCCESS: Byte := 0
  const REP_FAILURE: Byte := 1
  const REP_NOT_ALLOWED: Byte := 2
  const REP_NETWORK_UNREACHABLE: Byte := 3
  const REP_HOST_UNREACHABLE: Byte := 4
  const REP_CONNECTION_REFUSED: Byte := 5

  const METHOD_CHOSEN: Bytes := [VERSION, AUTH_NONE]

  /** Section 6 of RFC 1928: version, reply, reserved, address type, bound address and port; here always 0.0.0.0:0. */
  function Reply(code: Byte): (r: Bytes)
    ensures |r| == 10 && r[0] == VERSION && r[1] == code && r[2] == 0 && r[3] == ATYP_IPV4
    ensures forall i :: 4 <= i < 10 ==> r[i] == 0
  {
    [VERSION, code, 0, ATYP_IPV4, 0, 0, 0, 0, 0, 0]
  }

  datatype Target = Target(host: string, port: nat)

  // ----- addresses as text -----

  function Ipv4Text(b: Bytes): string
    requires |b| == 4
  {
    Print(b[0]) + ("." + (Print(b[1]) + ("." + (Print(b[2]) + ("." + Print(b[3]))))))
  }

  function HexDigit(d: nat): char
    requires d < 16
  {
    if d < 10 then ('0' as int + d) as char else ('a' as int + (d - 10)) as char
  }

  function Hex2(b: Byte): string { [HexDigit(b / 16), HexDigit(b % 16)] }

  /** Groups of two bytes in lower-case hexadecimal, separated by colons. */
  function Ipv6Text(b: Bytes): string
    requires |b| >= 2 && |b| % 2 == 0
  {
    Hex2(b[0]) + Hex2(b[1]) + (if |b| == 2 then "" else ":" + Ipv6Text(b[2..]))
  }

  predicate Ascii(b: Bytes) { forall i :: 0 <= i < |b| ==> b[i] < 128 }

  function AsciiText(b: Bytes): string
    requires Ascii(b)
  {
    seq(|b|, i requires 0 <= i < |b| => b[i] as char)
  }

  /** Lossy decoding is a parameter of which only the behaviour on ASCII is used. */
  ghost predicate DecodesAscii(lossy: Bytes -> string) {
    forall b: Bytes :: Ascii(b) ==> lossy(b) == AsciiText(b)
  }

  function Port(hi: Byte, lo: Byte): nat { hi as int * 256 + lo as int }

  // ----- the parser -----

  datatype Error = ConnectionClosed | UnsupportedVersion | UnsupportedCommand | UnsupportedAddressType

  /** The target or the error, what has been written to the client, and what is still unread. */
  datatype Handshake = Handshake(result: Result<Target, Error>, written: Bytes, unread: Bytes)

  function ParseAddress(atyp: Byte, input: Bytes, lossy: Bytes -> string): Handshake {
    if atyp == ATYP_IPV4 then
      if |input| < 6 then Handshake(Err(ConnectionClosed), METHOD_CHOSEN, [])
      else Handshake(Ok(Target(Ipv4Text(input[..4]), Port(input[4], input[5]))), METHOD_CHOSEN, input[6..])
    else if atyp == ATYP_DOMAIN then
      if |input| < 1 || |input| < 1 + input[0] as int + 2 then Handshake(Err(ConnectionClosed), METHOD_CHOSEN, [])
      else
        var n := input[0] as int;
        Handshake(Ok(Target(lossy(input[1..1 + n]), Port(input[1 + n], input[2 + n]))), METHOD_CHOSEN, input[3 + n..])
    else if atyp == ATYP_IPV6 then
      if |input| < 18 then Handshake(Err(ConnectionClosed), METHOD_CHOSEN, [])
      else Handshake(Ok(Target(Ipv6Text(input[..16]), Port(input[16], input[17]))), METHOD_CHOSEN, input[18..])
    else Handshake(Err(UnsupportedAddressType), METHOD_CHOSEN + Reply(REP_FAILURE), input)
  }

  function ParseRequest(input: Bytes, lossy: Bytes -> string): Handshake {
    if |input| < 4 then Handshake(Err(ConnectionClosed), METHOD_CHOSEN, [])
    else if input[0] != VERSION then Handshake(Err(UnsupportedVersion), METHOD_CHOSEN, input[4..])
    else if input[1] != CMD_CONNECT then
      Handshake(Err(UnsupportedCommand), METHOD_CHOSEN + Reply(REP_NOT_ALLOWED), input[4..])
    else ParseAddress(input[3], input[4..], lossy)
  }

  /** `first` is how many bytes the first read returns: that read is not repeated when it comes up short. */
  function Parse(input: Bytes, first: nat, lossy: Bytes -> string): Handshake
    requires first <= 2 && first <= |input|
  {
    if first < 2 then Handshake(Err(ConnectionClosed), [], input[first..])
    else if input[0] != VERSION then Handshake(Err(UnsupportedVersion), [], input[2..])
    else if |input| < 2 + input[1] as int then Handshake(Err(ConnectionClosed), [], [])
    else ParseRequest(input[2 + input[1] as int..], lossy)
  }

  // ----- requests as RFC 1928 lays them out -----

  datatype Address = V4(bytes: Bytes) | Domain(name: Bytes) | V6(bytes: Bytes)

  /** The lengths the layout allows. */
  predicate Sized(a: Address) {
    match a
    case V4(b) => |b| == 4
    case Domain(name) => |name| < 256
    case V6(b) => |b| == 16
  }

  predicate ValidAddress(a: Address) { Sized(a) && (a.Domain? ==> Ascii(a.name)) }

  function Host(a: Address): string
    requires ValidAddress(a)
  {
    match a
    case V4(b) => Ipv4Text(b)
    case Domain(name) => AsciiText(name)
    case V6(b) => Ipv6Text(b)
  }

  /** Section 3 of RFC 1928: version, number of methods, methods. */
  function Greeting(methods: Bytes): Bytes
    requires |methods| < 256
  {
    [VERSION, |methods|] + methods
  }

  function AddressBytes(a: Address): Bytes
    requires Sized(a)
  {
    match a
    case V4(b) => b
    case Domain(name) => [|name|] + name
    case V6(b) => b
  }

  /** Section 4 of RFC 1928: version, CONNECT, reserved, address type, address, port. */
  function ConnectRequest(reserved: Byte, a: Address, port: nat): Bytes
    requires Sized(a) && port < 65536
  {
    [VERSION, CMD_CONNECT, reserved, if a.V4? then ATYP_IPV4 else if a.Domain? then ATYP_DOMAIN else ATYP_IPV6]
    + (AddressBytes(a) + [port / 256, port % 256])
  }

  lemma AddressParses(a: Address, port: nat, rest: Bytes, lossy: Bytes -> string)
    requires ValidAddress(a) && port < 65536 && DecodesAscii(lossy)
    ensures ParseAddress(if a.V4? then ATYP_IPV4 else if a.Domain? then ATYP_DOMAIN else ATYP_IPV6,
                         AddressBytes(a) + [port / 256, port % 256] + rest, lossy)
         == Handshake(Ok(Target(Host(a), port)), METHOD_CHOSEN, rest)
  {
    var bytes := AddressBytes(a);
    var input := bytes + [port / 256, port % 256] + rest;
    AddressSlices(bytes, port / 256, port % 256, rest);
    if a.Domain? {
      assert input[1..1 + |a.name|] == bytes[1..] == a.name;
    }
  }

  lemma AddressSlices(bytes: Bytes, hi: Byte, lo: Byte, rest: Bytes)
    ensures var input := bytes + [hi, lo] + rest;
      && |input| == |bytes| + 2 + |rest|
      && input[..|bytes|] == bytes && input[|bytes|] == hi && input[|bytes| + 1] == lo
      && input[|bytes| + 2..] == rest
  {
  }

  lemma GreetingParts(methods: Bytes, request: Bytes)
    requires |methods| < 256
    ensures var input := Greeting(methods) + request;
      && |input| == 2 + |methods| + |request| && input[0] == VERSION && input[1] == |methods|
      && input[2 + |methods|..] == request
  {
  }

  lemma RequestParts(reserved: Byte, a: Address, port: nat, rest: Bytes)
    requires ValidAddress(a) && port < 65536
    ensures var request := ConnectRequest(reserved, a, port) + rest;
      && |request| >= 4 && request[0] == VERSION && request[1] == CMD_CONNECT
      && request[3] == (if a.V4? then ATYP_IPV4 else if a.Domain? then ATYP_DOMAIN else ATYP_IPV6)
      && request[4..] == AddressBytes(a) + [port / 256, port % 256] + rest
  {
  }

  /** A well-formed no-auth CONNECT yields exactly its host and port, consumes exactly greeting and request, and has
      answered only the greeting; and this holds exactly if the first read returned both of its bytes. */
  lemma WellFormedParsesIff(methods: Bytes, reserved: Byte, a: Address, port: nat, rest: Bytes, first: nat,
                            lossy: Bytes -> string)
    requires |methods| < 256 && ValidAddress(a) && port < 65536 && first <= 2 && DecodesAscii(lossy)
    ensures Parse(Greeting(methods) + (ConnectRequest(reserved, a, port) + rest), first, lossy)
            == Handshake(Ok(Target(Host(a), port)), METHOD_CHOSEN, rest)
       <==> first == 2
  {
    var request := ConnectRequest(reserved, a, port) + rest;
    GreetingParts(methods, request);
    RequestParts(reserved, a, port, rest);
    AddressParses(a, port, rest, lossy);
  }

  /** The host as the decoder prints it. */
  function DecodedHost(a: Address, lossy: Bytes -> string): string
    requires Sized(a)
  {
    match a
    case V4(b) => Ipv4Text(b)
    case Domain(name) => lossy(name)
    case V6(b) => Ipv6Text(b)
  }

  lemma PortBytes(hi: Byte, lo: Byte)
    ensures Port(hi, lo) < 65536 && Port(hi, lo) / 256 == hi && Port(hi, lo) % 256 == lo
  {
  }

  lemma AcceptedAddress(atyp: Byte, input: Bytes, lossy: Bytes -> string) returns (a: Address, port: nat)
    requires ParseAddress(atyp, input, lossy).result.Ok?
    ensures Sized(a) && port < 65536 && atyp == (if a.V4? then 1 else if a.Domain? then 3 else 4)
    ensures var h := ParseAddress(atyp, input, lossy);
      && input == AddressBytes(a) + [port / 256, port % 256] + h.unread
      && h.result == Ok(Target(DecodedHost(a, lossy), port))
  {
    var n := if atyp == ATYP_IPV4 then 4 else if atyp == ATYP_DOMAIN then input[0] as int + 1 else 16;
    var bytes, hi, lo := input[..n], input[n], input[n + 1];
    PortBytes(hi, lo);
    port := Port(hi, lo);
    a := if atyp == ATYP_IPV4 then V4(bytes) else if atyp == ATYP_DOMAIN then Domain(bytes[1..]) else V6(bytes);
    assert AddressBytes(a) == bytes && input == bytes + [hi, lo] + input[n + 2..];
    assert a.Domain? ==> bytes[1..] == input[1..n];
  }

  lemma AcceptedRequest(request: Bytes, lossy: Bytes -> string) returns (reserved: Byte, a: Address, port: nat)
    requires ParseRequest(request, lossy).result.Ok?
    ensures Sized(a) && port < 65536
    ensures var h := ParseRequest(request, lossy);
      && request == ConnectRequest(reserved, a, port) + h.unread
      && h.result == Ok(Target(DecodedHost(a, lossy), port))
  {
    reserved := request[2];
    a, port := AcceptedAddress(request[3], request[4..], lossy);
    assert request == [5, 1, reserved, request[3]] + request[4..];
  }

  /** Nothing else is accepted: whatever yields a target is a greeting and a CONNECT request of section 4 of RFC 1928
      for this target, followed by what is left unread. */
  lemma AcceptedIsWellFormed(input: Bytes, first: nat, lossy: Bytes -> string)
    returns (methods: Bytes, reserved: Byte, a: Address, port: nat)
    requires first <= 2 && first <= |input| && Parse(input, first, lossy).result.Ok?
    ensures |methods| < 256 && Sized(a) && port < 65536
    ensures var h := Parse(input, first, lossy);
      && input == Greeting(methods) + (ConnectRequest(reserved, a, port) + h.unread)
      && h.result == Ok(Target(DecodedHost(a, lossy), port))
  {
    var n := input[1] as int;
    methods := input[2..2 + n];
    reserved, a, port := AcceptedRequest(input[2 + n..], lossy);
    GreetingSplits(input, n);
  }

  lemma GreetingSplits(input: Bytes, n: nat)
    requires n < 256 && |input| >= 2 + n && input[0] == VERSION && input[1] == n
    ensures input == Greeting(input[2..2 + n]) + input[2 + n..]
  {
  }

  /** Which request after a complete greeting is turned down for what: in numbers, version 5, command 1, and the address
      types 1, 3 and 4 are supported. */
  lemma RequestRefusedIff(methods: Bytes, request: Bytes, lossy: Bytes -> string)
    requires |methods| < 256
    ensures var r := Parse(Greeting(methods) + request, 2, lossy).result;
      && (r == Err(UnsupportedVersion) <==> |request| >= 4 && request[0] != 5)
      && (r == Err(UnsupportedCommand) <==> |request| >= 4 && request[0] == 5 && request[1] != 1)
      && (r == Err(UnsupportedAddressType) <==>
            |request| >= 4 && request[0] == 5 && request[1] == 1 && request[3] !in {1, 3, 4})
  {
    GreetingParts(methods, request);
  }

  const NO_ACCEPTABLE_METHODS: Byte := 0xff

  /** Section 3 of RFC 1928, for a server that knows only the method without authentication. */
  function RequiredChoice(methods: Bytes): Byte {
    if AUTH_NONE in methods then AUTH_NONE else NO_ACCEPTABLE_METHODS
  }

  /** The method choice written in answer to a greeting is the one required if and only if the method without
      authentication was offered. */
  lemma MethodChoiceIff(methods: Bytes, rest: Bytes, lossy: Bytes -> string)
    requires |methods| < 256
    ensures var written := Parse(Greeting(methods) + rest, 2, lossy).written;
      |written| >= 2 && (written[..2] == [VERSION, RequiredChoice(methods)] <==> AUTH_NONE in methods)
  {
    GreetingParts(methods, rest);
    var written := Parse(Greeting(methods) + rest, 2, lossy).written;
    assert written == ParseRequest(rest, lossy).written && METHOD_CHOSEN <= written;
    assert written[..2] == [VERSION, AUTH_NONE];
    assert [VERSION, AUTH_NONE][1] != [VERSION, NO_ACCEPTABLE_METHODS][1];
  }

  /** A client that offers only user name and password (method 2) is told that no authentication was chosen. */
  lemma PasswordOnlyIsAnsweredWithNone(rest: Bytes, lossy: Bytes -> string)
    ensures var written := Parse(Greeting([2]) + rest, 2, lossy).written;
      |written| >= 2 && written[..2] != [VERSION, RequiredChoice([2])]
  {
    MethodChoiceIff([2], rest, lossy);
  }

  // ----- the text of an address determines it -----

  predicate NoDot(s: string) { forall i :: 0 <= i < |s| ==> s[i] != '.' }

  lemma SplitAtDot(x: string, u: string, y: string, v: string)
    requires x + ("." + u) == y + ("." + v) && NoDot(x) && NoDot(y)
    ensures x == y && u == v
  {
    var s, t := x + ("." + u), y + ("." + v);
    assert s[|x|] == '.' && t[|y|] == '.';
    assert forall i :: 0 <= i < |x| ==> s[i] != '.';
    assert forall i :: 0 <= i < |y| ==> t[i] != '.';
    assert |x| == |y|;
    assert x == s[..|x|] && y == t[..|x|];
    assert u == s[|x| + 1..] && v == t[|x| + 1..];
  }

  lemma Ipv4TextInjective(a: Bytes, b: Bytes)
    requires |a| == 4 && |b| == 4 && Ipv4Text(a) == Ipv4Text(b)
    ensures a == b
  {
    var a2, b2 := Print(a[2]) + ("." + Print(a[3])), Print(b[2]) + ("." + Print(b[3]));
    SplitAtDot(Print(a[0]), Print(a[1]) + ("." + a2), Print(b[0]), Print(b[1]) + ("." + b2));
    SplitAtDot(Print(a[1]), a2, Print(b[1]), b2);
    SplitAtDot(Print(a[2]), Print(a[3]), Print(b[2]), Print(b[3]));
    forall i | 0 <= i < 4 ensures a[i] == b[i] {
      PrintInjective(a[0], b[0]);
      PrintInjective(a[1], b[1]);
      PrintInjective(a[2], b[2]);
      PrintInjective(a[3], b[3]);
    }
  }

  lemma HexInjective(a: Byte, b: Byte)
    requires Hex2(a) == Hex2(b)
    ensures a == b
  {
  }

  lemma Ipv6TextParts(b: Bytes)
    requires |b| >= 2 && |b| % 2 == 0
    ensures var s := Ipv6Text(b);
      && |s| >= 4 && s[..2] == Hex2(b[0]) && s[2..4] == Hex2(b[1])
      && (|b| > 2 ==> |s| >= 5 && s[5..] == Ipv6Text(b[2..]))
  {
    var first, second := Hex2(b[0]), Hex2(b[1]);
    var tail := if |b| == 2 then "" else ":" + Ipv6Text(b[2..]);
    assert Ipv6Text(b) == first + second + tail;
    assert (first + second + tail)[4..] == tail;
  }

  lemma {:induction false} Ipv6TextInjective(a: Bytes, b: Bytes)
    requires |a| == |b| >= 2 && |a| % 2 == 0 && Ipv6Text(a) == Ipv6Text(b)
    ensures a == b
  {
    Ipv6TextParts(a);
    Ipv6TextParts(b);
    HexInjective(a[0], b[0]);
    HexInjective(a[1], b[1]);
    if |a| == 2 {
    } else {
      Ipv6TextInjective(a[2..], b[2..]);
    }
    SameFromParts(a, b);
  }

  lemma SameFromParts(a: Bytes, b: Bytes)
    requires |a| == |b| >= 2 && a[0] == b[0] && a[1] == b[1] && (|a| > 2 ==> a[2..] == b[2..])
    ensures a == b
  {
  }

  /** Two addresses of one kind have the same host text only if they are the same. */
  lemma HostInjective(a: Address, b: Address)
    requires ValidAddress(a) && ValidAddress(b)
    requires (a.V4? && b.V4?) || (a.Domain? && b.Domain?) || (a.V6? && b.V6?)
    requires Host(a) == Host(b)
    ensures a == b
  {
    match a
    case V4(x) => Ipv4TextInjective(x, b.bytes);
    case V6(x) => Ipv6TextInjective(x, b.bytes);
    case Domain(x) =>
      var y := b.name;
      assert |AsciiText(x)| == |x| && |AsciiText(y)| == |y|;
      forall i | 0 <= i < |x| ensures x[i] == y[i] {
        assert AsciiText(x)[i] == x[i] as char && AsciiText(y)[i] == y[i] as char;
      }
  }

  // ----- a whole connection -----

  datatype Ready = Established(returned: seq<Bytes>) | Refused | ChannelClosed | TimedOut

  datatype Direct = Reached(returned: seq<Bytes>) | ConnectionRefused | NetworkUnreachable | OtherFailure

  /** Everything outside the handler: configuration, the tunnel's fate, and what the far side sends back. */
  datatype World = World(
    routeThroughPeers: bool, hasExitPeer: bool, hasManager: bool, tunnelCreated: bool, ready: Ready, direct: Direct)

  /** What is written to the client once the target is known. */
  function AfterHandshake(w: World): Bytes {
    if w.routeThroughPeers && w.hasExitPeer && w.hasManager && w.tunnelCreated then
      match w.ready
      case Established(returned) => Reply(REP_SUCCESS) + Concat(returned)
      case Refused => Reply(REP_HOST_UNREACHABLE)
      case ChannelClosed => Reply(REP_FAILURE)
      case TimedOut => Reply(REP_FAILURE)
    else
      match w.direct
      case Reached(returned) => Reply(REP_SUCCESS) + Concat(returned)
      case ConnectionRefused => Reply(REP_CONNECTION_REFUSED)
      case NetworkUnreachable => Reply(REP_NETWORK_UNREACHABLE)
      case OtherFailure => Reply(REP_HOST_UNREACHABLE)
  }

  /** What the client sees if no write fails. */
  function Transcript(input: Bytes, first: nat, w: World, lossy: Bytes -> string): Bytes
    requires first <= 2 && first <= |input|
  {
    var h := Parse(input, first, lossy);
    if h.result.Ok? then h.written + AfterHandshake(w) else h.written
  }

  /** On every path: nothing, or the method choice followed by at most one ten-byte reply; and relayed bytes only
      after a success reply. */
  lemma OneReplyBeforeRelay(input: Bytes, first: nat, w: World, lossy: Bytes -> string)
    requires first <= 2 && first <= |input|
    ensures var out := Transcript(input, first, w, lossy);
      || out == []
      || out == METHOD_CHOSEN
      || (exists code: Byte :: code != REP_SUCCESS && out == METHOD_CHOSEN + Reply(code))
      || (exists relayed: Bytes :: out == METHOD_CHOSEN + Reply(REP_SUCCESS) + relayed)
  {
    var h := Parse(input, first, lossy);
    if h.result.Ok? {
      assert h.written == METHOD_CHOSEN;
      var tail := AfterHandshake(w);
      if tail[1] == REP_SUCCESS {
        assert tail == Reply(REP_SUCCESS) + tail[10..];
        assert METHOD_CHOSEN + tail == METHOD_CHOSEN + Reply(REP_SUCCESS) + tail[10..];
      } else {
        assert tail == Reply(tail[1]);
      }
    }
  }

  /** Right after the method choice, a reply with this code, laid out as in section 6 of RFC 1928. */
  predicate Replied(out: Bytes, code: Byte) {
    |out| >= 12 && out[..12] == [5, 0] + [5, code, 0, 1, 0, 0, 0, 0, 0, 0]
  }

  /** Which reply follows what, in the numbers of section 6 of RFC 1928: success (0) exactly if the handshake succeeded
      and the tunnel or, without one, the direct connection came about, and then the bytes that came back; otherwise
      general failure (1), not allowed (2), network unreachable (3), host unreachable (4) or connection refused (5),
      each exactly for its reasons; and no reply if the client is gone or speaks another version. */
  ghost predicate RepliesFit(out: Bytes, result: Result<Target, Error>, w: World) {
    var tunnelled := w.routeThroughPeers && w.hasExitPeer && w.hasManager && w.tunnelCreated;
    && (Replied(out, 0) <==> result.Ok? && if tunnelled then w.ready.Established? else w.direct.Reached?)
    && (Replied(out, 0) ==> out[12..] == Concat(if tunnelled then w.ready.returned else w.direct.returned))
    && (Replied(out, 1) <==>
          || result == Err(UnsupportedAddressType)
          || (result.Ok? && tunnelled && (w.ready.ChannelClosed? || w.ready.TimedOut?)))
    && (Replied(out, 2) <==> result == Err(UnsupportedCommand))
    && (Replied(out, 3) <==> result.Ok? && !tunnelled && w.direct.NetworkUnreachable?)
    && (Replied(out, 4) <==> result.Ok? && if tunnelled then w.ready.Refused? else w.direct.OtherFailure?)
    && (Replied(out, 5) <==> result.Ok? && !tunnelled && w.direct.ConnectionRefused?)
    && (forall code: Byte :: Replied(out, code) && code != 0 ==> code <= 5 && |out| == 12)
    && (|out| <= 2 <==> result == Err(ConnectionClosed) || result == Err(UnsupportedVersion))
  }

  lemma ReplyShows(code: Byte, relayed: Bytes)
    ensures var out := METHOD_CHOSEN + (Reply(code) + relayed);
      && (forall c: Byte :: Replied(out, c) <==> c == code)
      && out[12..] == relayed && |out| == 12 + |relayed|
  {
    var out := METHOD_CHOSEN + (Reply(code) + relayed);
    assert out[..12] == METHOD_CHOSEN + Reply(code);
    assert Reply(code) == [5, code, 0, 1, 0, 0, 0, 0, 0, 0];
    assert (METHOD_CHOSEN + Reply(code))[3] == code;
    forall c: Byte ensures Replied(out, c) <==> c == code {
      assert ([5, 0] + [5, c, 0, 1, 0, 0, 0, 0, 0, 0])[3] == c;
    }
  }

  /** The code of the reply after a handshake, and what follows it. */
  lemma RepliesAfterHandshake(t: Target, w: World)
    ensures RepliesFit(METHOD_CHOSEN + AfterHandshake(w), Ok(t), w)
  {
    var after := AfterHandshake(w);
    assert after == Reply(after[1]) + after[10..];
    ReplyShows(after[1], after[10..]);
    if w.routeThroughPeers && w.hasExitPeer && w.hasManager && w.tunnelCreated {
      if w.ready.Established? {
        assert after[10..] == Concat(w.ready.returned);
      }
    } else if w.direct.Reached? {
      assert after[10..] == Concat(w.direct.returned);
    }
  }

  lemma TranscriptRepliesFit(input: Bytes, first: nat, w: World, lossy: Bytes -> string)
    requires first <= 2 && first <= |input|
    ensures RepliesFit(Transcript(input, first, w, lossy), Parse(input, first, lossy).result, w)
  {
    var h := Parse(input, first, lossy);
    if h.result.Ok? {
      RepliesAfterHandshake(h.result.value, w);
    } else if h.result.error.UnsupportedCommand? {
      ReplyShows(2, []);
      assert Reply(2) + [] == Reply(2);
    } else if h.result.error.UnsupportedAddressType? {
      ReplyShows(1, []);
      assert Reply(1) + [] == Reply(1);
    }
  }

  /** The code that section 6 of RFC 1928 has for the case, with 7 for a command and 8 for an address type that is not
      supported. */
  function RequiredCode(result: Result<Target, Error>, w: World): Byte
    requires result.Ok? || result.error.UnsupportedCommand? || result.error.UnsupportedAddressType?
  {
    if result.Err? then (if result.error.UnsupportedCommand? then 7 else 8)
    else if w.routeThroughPeers && w.hasExitPeer && w.hasManager && w.tunnelCreated then
      match w.ready
      case Established(_) => 0
      case Refused => 4
      case _ => 1
    else
      match w.direct
      case Reached(_) => 0
      case ConnectionRefused => 5
      case NetworkUnreachable => 3
      case OtherFailure => 4
  }

  /** The reply is the one required if and only if command and address type are supported; if not, it is "not allowed"
      in place of 7 or "general failure" in place of 8. */
  lemma RequiredReplyIff(input: Bytes, first: nat, w: World, lossy: Bytes -> string)
    requires first <= 2 && first <= |input|
    ensures var result, out := Parse(input, first, lossy).result, Transcript(input, first, w, lossy);
      result.Ok? || result.error.UnsupportedCommand? || result.error.UnsupportedAddressType? ==>
        (Replied(out, RequiredCode(result, w)) <==> result.Ok?)
  {
    TranscriptRepliesFit(input, first, w, lossy);
  }

  /** The client's socket: a stream to read from, and what it has accepted so far of at most `capacity` bytes. */
  class Client {
    const input: Stream
    var out: Bytes
    const capacity: Option<nat>

    ghost predicate Valid()
      reads this, input
    {
      input.Valid() && (capacity.Some? ==> |out| <= capacity.value)
    }

    constructor (input: Stream, capacity: Option<nat>)
      requires input.Valid()
      ensures Valid() && out == [] && this.input == input && this.capacity == capacity
    {
      this.input, this.out, this.capacity := input, [], capacity;
    }

    method WriteAll(bytes: Bytes) returns (ok: bool)
      requires Valid()
      modifies this`out
      ensures Valid()
      ensures ok <==> capacity.None? || |old(out)| + |bytes| <= capacity.value
      ensures ok ==> out == old(out) + bytes
      ensures !ok ==> |out| == capacity.value && out == old(out) + bytes[..|out| - |old(out)|]
    {
      if capacity.None? || |out| + |bytes| <= capacity.value {
        out := out + bytes;
        return true;
      }
      out := out + bytes[..capacity.value - |out|];
      return false;
    }
  }

  /** As much of a transcript as the socket takes. */
  function Accepted(transcript: Bytes, capacity: Option<nat>): Bytes {
    if capacity.Some? && capacity.value < |transcript| then transcript[..capacity.value] else transcript
  }

  predicate Takes(capacity: Option<nat>, bytes: Bytes) {
    capacity.None? || |bytes| <= capacity.value
  }

  lemma RefusedEarly(prefix: Bytes, whole: Bytes, capacity: Option<nat>)
    requires prefix <= whole && !Takes(capacity, prefix)
    ensures Accepted(whole, capacity) == Accepted(prefix, capacity) && !Takes(capacity, whole)
  {
  }

  /** Write `bytes` after what has been written so far. */
  method Put(c: Client, ghost written: Bytes, bytes: Bytes) returns (ok: bool)
    requires c.Valid() && c.out == written && Takes(c.capacity, written)
    modifies c`out
    ensures c.Valid() && c.out == Accepted(written + bytes, c.capacity) && (ok <==> Takes(c.capacity, written + bytes))
  {
    ok := c.WriteAll(bytes);
  }

  method ReadIpv4(c: Client, ghost lossy: Bytes -> string) returns (target: Result<Target, Error>)
    requires c.Valid()
    modifies c.input`position
    ensures c.Valid()
    ensures var h := ParseAddress(ATYP_IPV4, old(c.input.Unread()), lossy);
      target == h.result && c.input.Unread() == h.unread
  {
    ghost var input := c.input.Unread();
    var buffer := new Byte[6](_ => 0);
    var ok := c.input.ReadExact(buffer, 6);
    if !ok {
      return Err(ConnectionClosed);
    }
    var read := buffer[..6];
    assert read == input[..6] && read[..4] == input[..4];
    return Ok(Target(Ipv4Text(read[..4]), Port(read[4], read[5])));
  }

  method ReadIpv6(c: Client, ghost lossy: Bytes -> string) returns (target: Result<Target, Error>)
    requires c.Valid()
    modifies c.input`position
    ensures c.Valid()
    ensures var h := ParseAddress(ATYP_IPV6, old(c.input.Unread()), lossy);
      target == h.result && c.input.Unread() == h.unread
  {
    ghost var input := c.input.Unread();
    var buffer := new Byte[18](_ => 0);
    var ok := c.input.ReadExact(buffer, 18);
    if !ok {
      return Err(ConnectionClosed);
    }
    var read := buffer[..18];
    assert read == input[..18] && read[..16] == input[..16];
    return Ok(Target(Ipv6Text(read[..16]), Port(read[16], read[17])));
  }

  lemma DomainSlices(input: Bytes, n: nat)
    requires |input| >= n + 3
    ensures input[1..][..n + 2][..n] == input[1..1 + n]
    ensures input[1..][..n + 2][n] == input[1 + n] && input[1..][..n + 2][n + 1] == input[2 + n]
    ensures input[1..][n + 2..] == input[3 + n..]
  {
  }

  method ReadDomain(c: Client, lossy: Bytes -> string) returns (target: Result<Target, Error>)
    requires c.Valid()
    modifies c.input`position
    ensures c.Valid()
    ensures var h := ParseAddress(ATYP_DOMAIN, old(c.input.Unread()), lossy);
      target == h.result && c.input.Unread() == h.unread
  {
    ghost var input := c.input.Unread();
    var lengthBuffer := new Byte[1](_ => 0);
    var ok := c.input.ReadExact(lengthBuffer, 1);
    if !ok {
      return Err(ConnectionClosed);
    }
    var n := lengthBuffer[..1][0] as int;
    var buffer := new Byte[n + 2](_ => 0);
    ok := c.input.ReadExact(buffer, n + 2);
    if !ok {
      return Err(ConnectionClosed);
    }
    var read := buffer[..n + 2];
    DomainSlices(input, n);
    return Ok(Target(lossy(read[..n]), Port(read[n], read[n + 1])));
  }

  method ReadAddress(c: Client, atyp: Byte, lossy: Bytes -> string) returns (target: Result<Target, Error>, alive: bool)
    requires c.Valid() && c.out == METHOD_CHOSEN
    modifies c`out, c.input`position
    ensures c.Valid()
    ensures var h := ParseAddress(atyp, old(c.input.Unread()), lossy);
      && c.out == Accepted(h.written, c.capacity) && (alive <==> Takes(c.capacity, h.written))
      && (alive ==> target == h.result && c.input.Unread() == h.unread)
  {
    alive := true;
    if atyp == ATYP_IPV4 {
      target := ReadIpv4(c, lossy);
    } else if atyp == ATYP_DOMAIN {
      target := ReadDomain(c, lossy);
    } else if atyp == ATYP_IPV6 {
      target := ReadIpv6(c, lossy);
    } else {
      alive := Put(c, METHOD_CHOSEN, Reply(REP_FAILURE));
      target := Err(UnsupportedAddressType);
    }
  }

  method ReadRequest(c: Client, buf: array<Byte>, lossy: Bytes -> string)
    returns (target: Result<Target, Error>, alive: bool)
    requires c.Valid() && c.out == METHOD_CHOSEN && buf.Length == 258
    modifies c`out, c.input`position, buf
    ensures c.Valid()
    ensures var h := ParseRequest(old(c.input.Unread()), lossy);
      && c.out == Accepted(h.written, c.capacity) && (alive <==> Takes(c.capacity, h.written))
      && (alive ==> target == h.result && c.input.Unread() == h.unread)
  {
    alive := true;
    ghost var input := c.input.Unread();
    var ok := c.input.ReadExact(buf, 4);
    if !ok {
      return Err(ConnectionClosed), true;
    }
    var version, cmd, atyp := buf[..4][0], buf[..4][1], buf[..4][3];
    if version != VERSION {
      return Err(UnsupportedVersion), true;
    }
    if cmd != CMD_CONNECT {
      alive := Put(c, METHOD_CHOSEN, Reply(REP_NOT_ALLOWED));
      return Err(UnsupportedCommand), alive;
    }
    target, alive := ReadAddress(c, atyp, lossy);
  }

  lemma MethodChosenFirst(input: Bytes, lossy: Bytes -> string)
    ensures METHOD_CHOSEN <= ParseRequest(input, lossy).written
  {
  }

  /** Version and methods; the first read is a single one. */
  method ReadGreeting(c: Client, first: nat, buf: array<Byte>, ghost lossy: Bytes -> string)
    returns (error: Option<Error>)
    requires c.Valid() && buf.Length == 258 && first <= 2 && first <= |c.input.Unread()|
    modifies c.input`position, buf
    ensures c.Valid()
    ensures var input := old(c.input.Unread());
      && (error.None? <==> first == 2 && input[0] == VERSION && 2 + input[1] as int <= |input|)
      && (error.None? ==> c.input.Unread() == input[2 + input[1] as int..])
      && (error.Some? ==> Parse(input, first, lossy) == Handshake(Err(error.value), [], c.input.Unread()))
  {
    var read := c.input.ReadExact(buf, first);
    if first < 2 {
      return Some(ConnectionClosed);
    }
    var version := buf[..2][0];
    var nmethods := buf[..2][1] as int;
    if version != VERSION {
      return Some(UnsupportedVersion);
    }
    var ok := c.input.ReadExact(buf, nmethods);
    return if ok then None else Some(ConnectionClosed);
  }

  /** The handshake on the socket: `alive` is false if a write failed, and then nothing more is written. */
  method ReadHandshake(c: Client, first: nat, lossy: Bytes -> string)
    returns (target: Result<Target, Error>, alive: bool)
    requires c.Valid() && c.out == [] && first <= 2 && first <= |c.input.Unread()|
    modifies c`out, c.input`position
    ensures c.Valid()
    ensures var h := Parse(old(c.input.Unread()), first, lossy);
      && c.out == Accepted(h.written, c.capacity) && (alive <==> Takes(c.capacity, h.written))
      && (alive ==> target == h.result && c.input.Unread() == h.unread)
  {
    var buf := new Byte[258](_ => 0);
    var error := ReadGreeting(c, first, buf, lossy);
    if error.Some? {
      return Err(error.value), true;
    }
    ghost var h := ParseRequest(c.input.Unread(), lossy);
    MethodChosenFirst(c.input.Unread(), lossy);
    assert h == Parse(old(c.input.Unread()), first, lossy);
    assert [] + METHOD_CHOSEN == METHOD_CHOSEN;
    var ok := Put(c, [], METHOD_CHOSEN);
    if !ok {
      RefusedEarly(METHOD_CHOSEN, h.written, c.capacity);
      return Err(ConnectionClosed), false;
    }
    target, alive := ReadRequest(c, buf, lossy);
  }

  /** One chunk more. */
  lemma NextChunk(chunks: seq<Bytes>, i: nat)
    requires i < |chunks|
    ensures Concat(chunks[..i + 1]) == Concat(chunks[..i]) + chunks[i] && Concat(chunks[..i + 1]) <= Concat(chunks)
    ensures TotalLen(chunks[..i + 1]) == TotalLen(chunks[..i]) + |chunks[i]|
  {
    assert chunks == chunks[..i + 1] + chunks[i + 1..];
    ConcatAppend(chunks[..i + 1], chunks[i + 1..]);
    assert chunks[..i + 1] == chunks[..i] + [chunks[i]];
    ConcatAppend(chunks[..i], [chunks[i]]);
    TotalLenAppend(chunks[..i], [chunks[i]]);
    assert Concat([chunks[i]]) == chunks[i];
  }

  /** Forward chunks to the client until one cannot be written. */
  method Relay(c: Client, ghost written: Bytes, returned: seq<Bytes>) returns (total: nat)
    requires c.Valid() && c.out == written && Takes(c.capacity, written)
    modifies c`out
    ensures c.Valid() && c.out == Accepted(written + Concat(returned), c.capacity)
    ensures Takes(c.capacity, written + Concat(returned)) ==> total == TotalLen(returned)
  {
    total := 0;
    assert written + Concat([]) == written;
    for i := 0 to |returned|
      invariant c.Valid() && c.out == written + Concat(returned[..i]) && Takes(c.capacity, c.out)
      invariant total == TotalLen(returned[..i])
    {
      NextChunk(returned, i);
      ghost var after := written + Concat(returned[..i + 1]);
      assert c.out + returned[i] == after <= written + Concat(returned);
      var ok := Put(c, c.out, returned[i]);
      if !ok {
        RefusedEarly(after, written + Concat(returned), c.capacity);
        return;
      }
      total := total + |returned[i]|;
    }
    assert returned[..|returned|] == returned;
  }

  /** Reply and relay, or reply with the failure. */
  method Serve(c: Client, w: World)
    requires c.Valid() && c.out == METHOD_CHOSEN
    modifies c`out
    ensures c.Valid() && c.out == Accepted(METHOD_CHOSEN + AfterHandshake(w), c.capacity)
  {
    var ok;
    var total;
    var established := METHOD_CHOSEN + Reply(REP_SUCCESS);
    if w.routeThroughPeers && w.hasExitPeer && w.hasManager && w.tunnelCreated {
      match w.ready {
        case Established(returned) =>
          ok := Put(c, METHOD_CHOSEN, Reply(REP_SUCCESS));
          assert METHOD_CHOSEN + (Reply(REP_SUCCESS) + Concat(returned)) == established + Concat(returned);
          if !ok {
            RefusedEarly(established, established + Concat(returned), c.capacity);
            return;
          }
          total := Relay(c, established, returned);
        case Refused => ok := Put(c, METHOD_CHOSEN, Reply(REP_HOST_UNREACHABLE));
        case ChannelClosed => ok := Put(c, METHOD_CHOSEN, Reply(REP_FAILURE));
        case TimedOut => ok := Put(c, METHOD_CHOSEN, Reply(REP_FAILURE));
      }
      return;
    }
    match w.direct {
      case Reached(returned) =>
        ok := Put(c, METHOD_CHOSEN, Reply(REP_SUCCESS));
        assert METHOD_CHOSEN + (Reply(REP_SUCCESS) + Concat(returned)) == established + Concat(returned);
        if !ok {
          RefusedEarly(established, established + Concat(returned), c.capacity);
          return;
        }
        total := Relay(c, established, returned);
      case ConnectionRefused => ok := Put(c, METHOD_CHOSEN, Reply(REP_CONNECTION_REFUSED));
      case NetworkUnreachable => ok := Put(c, METHOD_CHOSEN, Reply(REP_NETWORK_UNREACHABLE));
      case OtherFailure => ok := Put(c, METHOD_CHOSEN, Reply(REP_HOST_UNREACHABLE));
    }
  }

  /** One SOCKS connection: whatever the client sends, whatever the world does and wherever the socket fails, the client
      sees the transcript as far as its socket takes it; and if it takes everything, the replies fit what happened. */
  method HandleConnection(c: Client, first: nat, w: World, lossy: Bytes -> string)
    requires c.Valid() && c.out == [] && first <= 2 && first <= |c.input.Unread()|
    modifies c`out, c.input`position
    ensures c.Valid() && c.out == Accepted(Transcript(old(c.input.Unread()), first, w, lossy), c.capacity)
    ensures c.capacity.None? ==> RepliesFit(c.out, Parse(old(c.input.Unread()), first, lossy).result, w)
  {
    ghost var input, h := c.input.Unread(), Parse(c.input.Unread(), first, lossy);
    var target, alive := ReadHandshake(c, first, lossy);
    if !alive {
      RefusedEarly(h.written, h.written + AfterHandshake(w), c.capacity);
      return;
    }
    if target.Ok? {
      Serve(c, w);
    }
    TranscriptRepliesFit(input, first, w, lossy);
  }
}
