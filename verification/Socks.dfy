/** SOCKS5 and DNS framing, byte by byte (internal/gateway/gateway.go,
    socks5Connect, and internal/dns/socksproxy.go, forwardViaSocks), against the
    message formats of RFC 1928, sections 4 to 6, and RFC 1035, section 4.2.2. */
module Socks {
  import opened Text

  type Byte = x: int | 0 <= x < 256

  type Bytes = seq<Byte>

  /** byte(x) for any integer: its lowest eight bits. */
  function Low(x: int): Byte {
    x % 256
  }

  /** byte(x >> 8). */
  function High(x: int): Byte {
    x / 256 % 256
  }

  function BigEndian(x: int): Bytes {
    [High(x), Low(x)]
  }

  /** The two bytes that say a port, the higher one first. */
  ghost function PortOf(port: int): Bytes {
    [port / 256 % 256, port % 256]
  }

  // ----- messages -----

  /** An address: four bytes, a name, or sixteen bytes. */
  datatype Address = IPv4(b: Bytes) | Domain(name: Bytes) | IPv6(b: Bytes)

  predicate WellSized(a: Address) {
    match a
    case IPv4(b) => |b| == 4
    case Domain(name) => true
    case IPv6(b) => |b| == 16
  }

  /** The type of an address; a name also has its length here. */
  function Kind(a: Address): Bytes {
    match a
    case IPv4(_) => [1]
    case Domain(name) => [3, Low(|name|)]
    case IPv6(_) => [4]
  }

  function Content(a: Address): Bytes {
    match a
    case IPv4(b) => b
    case Domain(name) => name
    case IPv6(b) => b
  }

  function AddressBytes(a: Address): Bytes {
    Kind(a) + Content(a)
  }

  /** A request when the code is a command, a reply when it is a result. */
  function Message(code: Byte, a: Address, port: int): Bytes {
    [5, code, 0] + AddressBytes(a) + BigEndian(port)
  }

  datatype Decoded = Decoded(code: Byte, address: Address, port: nat, rest: Bytes)

  function DecodePort(code: Byte, a: Address, s: Bytes): Option<Decoded> {
    if |s| < 2 then None else Some(Decoded(code, a, s[0] as int * 256 + s[1] as int, s[2..]))
  }

  /** Reading one message off the front, as sections 4 and 6 of RFC 1928 lay it out. */
  function Decode(s: Bytes): Option<Decoded> {
    if |s| < 5 || s[0] != 5 || s[2] != 0 then None
    else if s[3] == 1 && |s| >= 8 then DecodePort(s[1], IPv4(s[4..8]), s[8..])
    else if s[3] == 3 && |s| >= 5 + s[4] as int then
      DecodePort(s[1], Domain(s[5..5 + s[4] as int]), s[5 + s[4] as int..])
    else if s[3] == 4 && |s| >= 20 then DecodePort(s[1], IPv6(s[4..20]), s[20..])
    else None
  }

  lemma PortBytes(port: int)
    ensures High(port) as int * 256 + Low(port) as int == port % 65536
  {
  }

  lemma DecodePortBytes(code: Byte, a: Address, port: int, rest: Bytes)
    ensures DecodePort(code, a, BigEndian(port) + rest) == Some(Decoded(code, a, port % 65536, rest))
  {
    PortBytes(port);
  }

  lemma DecodeParts(code: Byte, a: Address, tail: Bytes)
    requires WellSized(a) && (a.Domain? ==> |a.name| < 256)
    ensures Decode([5, code, 0] + Kind(a) + Content(a) + tail) == DecodePort(code, a, tail)
  {
    var s, from := [5, code, 0] + Kind(a) + Content(a) + tail, 3 + |Kind(a)|;
    assert s[3] == Kind(a)[0] && (a.Domain? ==> s[4] == |a.name|);
    assert s[from..from + |Content(a)|] == Content(a) && s[from + |Content(a)|..] == tail;
  }

  /** The same bytes, cut where the reader cuts them. */
  lemma Layout(start: Bytes, kind: Bytes, content: Bytes, port: Bytes, rest: Bytes)
    ensures start + (kind + content) + port + rest == start + kind + content + (port + rest)
  {
  }

  lemma DecodeMessage(code: Byte, a: Address, port: int, rest: Bytes)
    requires WellSized(a) && (a.Domain? ==> |a.name| < 256)
    ensures Decode(Message(code, a, port) + rest) == Some(Decoded(code, a, port % 65536, rest))
  {
    Layout([5, code, 0], Kind(a), Content(a), BigEndian(port), rest);
    DecodeParts(code, a, BigEndian(port) + rest);
    DecodePortBytes(code, a, port, rest);
  }

  lemma LongNameIsCut(code: Byte, a: Address, port: int)
    requires a.Domain? && |a.name| >= 256
    ensures Decode(Message(code, a, port)).Some? ==> Decode(Message(code, a, port)).value.address != a
  {
  }

  predicate DecodesTo(s: Bytes, code: Byte, a: Address, port: int) {
    var d := Decode(s);
    d.Some? && d.value.code == code && d.value.address == a && d.value.port == port && d.value.rest == []
  }

  /** A CONNECT request decodes to the same address and port, with nothing left
      over, exactly when the name is at most 255 bytes long and the port is one. */
  lemma RequestRoundTripIff(a: Address, port: int)
    requires WellSized(a)
    ensures DecodesTo(Message(1, a, port), 1, a, port) <==> 0 <= port < 65536 && (a.Domain? ==> |a.name| < 256)
  {
    if a.Domain? && |a.name| >= 256 {
      LongNameIsCut(1, a, port);
    } else {
      assert Message(1, a, port) + [] == Message(1, a, port);
      DecodeMessage(1, a, port, []);
    }
  }

  // ----- the connection -----

  /** One end of a TCP connection: what the other side will send, how much of it
      was read, what was written, and whether a write has failed. */
  class Conn {
    const input: Bytes
    var pos: nat
    var output: Bytes
    ghost var broken: bool

    constructor (input: Bytes)
      ensures this.input == input && pos == 0 && output == [] && !broken
    {
      this.input, pos, output, broken := input, 0, [], false;
    }

    ghost predicate Valid()
      reads `pos
    {
      pos <= |input|
    }

    ghost function Rest(): Bytes
      requires Valid()
      reads `pos
    {
      input[pos..]
    }

    /** io.ReadFull: n bytes, or an error once the other side has no more. */
    method ReadFull(n: nat) returns (r: Option<Bytes>)
      requires Valid()
      modifies `pos
      ensures Valid()
      ensures r.Some? <==> n <= |old(Rest())|
      ensures r.Some? ==> r.value == old(Rest())[..n] && Rest() == old(Rest())[n..]
      ensures r.None? ==> Rest() == []
    {
      if pos + n <= |input| {
        r := Some(input[pos..pos + n]);
        pos := pos + n;
      } else {
        r := None;
        pos := |input|;
      }
    }

    /** A write that may fail, which is the only thing that breaks a connection. */
    method Write(b: Bytes) returns (ok: bool)
      modifies `output, `broken
      ensures ok ==> output == old(output) + b && broken == old(broken)
      ensures !ok ==> broken
    {
      ok := *;
      if ok {
        output := output + b;
      } else {
        broken := true;
      }
    }
  }

  // ----- socks5Connect -----

  function Skip(s: Bytes, n: nat): Bytes {
    if n <= |s| then s[n..] else []
  }

  /** Past the rest of a reply whose first four bytes were read; an unknown
      address type has nothing skipped. */
  function PastAddress(atyp: Byte, s: Bytes): Bytes {
    if atyp == 1 then Skip(s, 6)
    else if atyp == 3 then (if s == [] then [] else Skip(s[1..], s[0] as int + 2))
    else if atyp == 4 then Skip(s, 18)
    else s
  }

  /** What is left to read after a successful connect, or None. */
  function Connected(s: Bytes): Option<Bytes> {
    if |s| < 6 || s[1] != 0 || s[3] != 0 then None else Some(PastAddress(s[5], s[6..]))
  }

  /** socks5Connect, the target already split into host and port. Unless a write
      fails, it succeeds exactly when the replies allow it. */
  method Socks5Connect(conn: Conn, host: Bytes, port: int) returns (ok: bool)
    requires conn.Valid()
    modifies conn
    ensures conn.Valid() && (old(conn.broken) ==> conn.broken)
    ensures ok ==> Connected(old(conn.Rest())).Some? && conn.broken == old(conn.broken)
    ensures !ok ==> Connected(old(conn.Rest())).None? || conn.broken
    ensures ok ==> conn.output == old(conn.output) + [5, 1, 0] + Message(1, Domain(host), port)
    ensures ok ==> Connected(old(conn.Rest())) == Some(conn.Rest())
    ensures ok ==> conn.output == old(conn.output) + [5, 1, 0] + ([5, 1, 0, 3, |host| % 256] + host + PortOf(port))
    ensures var s := old(conn.Rest());
            if |s| >= 6 && s[1] == 0 && s[3] == 0 then ok || conn.broken else !ok
  {
    var written := conn.Write([5, 1, 0]);
    if !written {
      return false;
    }
    var buf := conn.ReadFull(2);
    if buf.None? || buf.value[1] != 0 {
      return false;
    }
    var req: Bytes := [5, 1, 0, 3, Low(|host|)];
    req := req + host;
    req := req + [High(port), Low(port)];
    assert req == Message(1, Domain(host), port) && req == [5, 1, 0, 3, |host| % 256] + host + PortOf(port);
    written := conn.Write(req);
    if !written {
      return false;
    }
    var head := conn.ReadFull(4);
    if head.None? || head.value[1] != 0 {
      return false;
    }
    SkipAddress(conn, head.value[3]);
    return true;
  }

  /** The end of socks5Connect: reading past the bound address, errors ignored. */
  method SkipAddress(conn: Conn, atyp: Byte)
    requires conn.Valid()
    modifies conn`pos
    ensures conn.Valid() && conn.Rest() == PastAddress(atyp, old(conn.Rest()))
  {
    if atyp == 1 {
      var _ := conn.ReadFull(6);
    } else if atyp == 3 {
      var n := conn.ReadFull(1);
      var length: int := if n.Some? then n.value[0] as int else 0;
      var _ := conn.ReadFull(length + 2);
    } else if atyp == 4 {
      var _ := conn.ReadFull(18);
    }
  }

  /** For every well-formed reply, of all three address types, socks5Connect
      consumes the greeting and exactly that reply, so that the next byte read is
      the first one of the payload; it succeeds exactly when no authentication is
      asked for and the request was granted. */
  lemma OneReplyConsumed(version: Byte, chosen: Byte, reply: Byte, a: Address, port: int, payload: Bytes)
    requires WellSized(a) && (a.Domain? ==> |a.name| < 256)
    ensures Connected([version, chosen] + Message(reply, a, port) + payload)
         == if chosen == 0 && reply == 0 then Some(payload) else None
  {
  }

  // ----- DNS over TCP -----

  function Framed(query: Bytes): Bytes {
    BigEndian(|query|) + query
  }

  /** Reading one length-prefixed message off the front. */
  function Unframe(s: Bytes): Option<(Bytes, Bytes)> {
    if |s| < 2 then None
    else
      var n := s[0] as int * 256 + s[1] as int;
      if |s| < 2 + n then None else Some((s[2..2 + n], s[2 + n..]))
  }

  /** The two-byte length survives exactly for messages that it can express. */
  lemma FramingRoundTripIff(query: Bytes, rest: Bytes)
    ensures Unframe(Framed(query) + rest) == Some((query, rest)) <==> |query| < 65536
  {
  }

  /** The buffer that forwardViaSocks writes: a length prefix and a copy. */
  method FrameQuery(query: Bytes) returns (dnsReq: array<Byte>)
    ensures fresh(dnsReq) && dnsReq[..] == Framed(query)
  {
    dnsReq := new Byte[2 + |query|](_ => 0);
    dnsReq[0] := High(|query|);
    dnsReq[1] := Low(|query|);
    for i := 0 to |query|
      invariant dnsReq[0] == High(|query|) && dnsReq[1] == Low(|query|)
      invariant forall k :: 0 <= k < i ==> dnsReq[2 + k] == query[k]
    {
      dnsReq[2 + i] := query[i];
    }
  }

  // ----- forwardViaSocks -----

  const MAX_RESPONSE: nat := 4096

  /** The DNS response at the front of what is left to read. */
  function ResponseOf(s: Bytes): Option<Bytes> {
    match Unframe(s)
    case None => None
    case Some((response, _)) => if |response| > MAX_RESPONSE then None else Some(response)
  }

  /** forwardViaSocks always takes ten bytes for the reply. */
  function AfterTen(s: Bytes): Option<Bytes> {
    if |s| < 12 || s[0] != 5 || s[1] != 0 || s[3] != 0 then None else Some(s[12..])
  }

  function Forwarded(s: Bytes): Option<Bytes> {
    match AfterTen(s)
    case None => None
    case Some(rest) => ResponseOf(rest)
  }

  /** The bytes of an answer that is given back: two after the greeting, ten for the reply,
      two for the length, which is at most 4096, and then the answer. */
  lemma ForwardedMeans(s: Bytes, answer: Bytes)
    ensures Forwarded(s) == Some(answer)
       <==> && |s| >= 14 + |answer| && s[0] == 5 && s[1] == 0 && s[3] == 0
            && s[12] as int * 256 + s[13] as int == |answer| <= 4096
            && s[14..14 + |answer|] == answer
  {
    if |s| >= 14 {
      var rest := s[12..];
      assert rest[0] == s[12] && rest[1] == s[13];
      var n := s[12] as int * 256 + s[13] as int;
      if |s| >= 14 + n {
        assert rest[2..2 + n] == s[14..14 + n];
      }
    }
  }

  /** forwardViaSocks on a connection that was made; the upstream's host already
      told apart as an address or a name. */
  method ForwardViaSocks(conn: Conn, upstream: Address, port: int, query: Bytes)
    returns (r: Option<Bytes>)
    requires conn.Valid()
    modifies conn
    ensures conn.Valid() && (old(conn.broken) ==> conn.broken)
    ensures r.Some? ==> r == Forwarded(old(conn.Rest())) && conn.broken == old(conn.broken)
    ensures r.None? ==> Forwarded(old(conn.Rest())).None? || conn.broken
    ensures r.Some? ==> conn.output == old(conn.output) + [5, 1, 0] + Message(1, upstream, port) + Framed(query)
    ensures r.Some? ==>
              var target := match upstream
                            case IPv4(b) => [1] + b
                            case IPv6(b) => [4] + b
                            case Domain(name) => [3, |name| % 256] + name;
              conn.output == old(conn.output) + [5, 1, 0] + ([5, 1, 0] + target + PortOf(port))
                             + ([|query| / 256 % 256, |query| % 256] + query)
  {
    var written := conn.Write([5, 1, 0]);
    if !written {
      return None;
    }
    var resp := conn.ReadFull(2);
    if resp.None? || resp.value[0] != 5 || resp.value[1] != 0 {
      return None;
    }
    var connectReq: Bytes := [5, 1, 0];
    match upstream {
      case IPv4(b) =>
        connectReq := connectReq + [1] + b;
      case IPv6(b) =>
        connectReq := connectReq + [4] + b;
      case Domain(name) =>
        connectReq := connectReq + [3] + [Low(|name|)] + name;
    }
    connectReq := connectReq + [High(port), Low(port)];
    assert connectReq == Message(1, upstream, port);
    written := conn.Write(connectReq);
    if !written {
      return None;
    }
    var connectResp := conn.ReadFull(10);
    if connectResp.None? || connectResp.value[1] != 0 {
      return None;
    }
    assert AfterTen(old(conn.Rest())) == Some(conn.Rest());
    r := Exchange(conn, query);
  }

  /** The end of forwardViaSocks: the query out, the response in. */
  method Exchange(conn: Conn, query: Bytes) returns (r: Option<Bytes>)
    requires conn.Valid()
    modifies conn
    ensures conn.Valid() && (old(conn.broken) ==> conn.broken)
    ensures r.Some? ==> r == ResponseOf(old(conn.Rest())) && conn.broken == old(conn.broken)
    ensures r.None? ==> ResponseOf(old(conn.Rest())).None? || conn.broken
    ensures r.Some? ==> conn.output == old(conn.output) + Framed(query)
  {
    var dnsReq := FrameQuery(query);
    var written := conn.Write(dnsReq[..]);
    if !written {
      return None;
    }
    var lenBuf := conn.ReadFull(2);
    if lenBuf.None? {
      return None;
    }
    var respLen: nat := lenBuf.value[0] as int * 256 + lenBuf.value[1] as int;
    if respLen > 4096 {
      return None;
    }
    ghost var s := old(conn.Rest());
    assert respLen <= |s[2..]| ==> s[2..][..respLen] == s[2..2 + respLen];
    r := conn.ReadFull(respLen);
  }

  /** The fixed ten bytes are the whole reply, for every payload, exactly when the
      bound address is four bytes or a name of three. */
  lemma TenBytesIff(a: Address, port: int, payload: Bytes)
    requires WellSized(a)
    ensures AfterTen([5, 0] + Message(0, a, port) + payload) == Some(payload)
       <==> a.IPv4? || (a.Domain? && |a.name| == 3)
  {
  }

  /** With such a reply the answer gets back exactly when it is at most 4096 bytes
      long, whatever follows it. */
  lemma AnswerComesBackIff(a: Address, port: int, answer: Bytes, more: Bytes)
    requires a.IPv4? && WellSized(a)
    ensures Forwarded([5, 0] + Message(0, a, port) + (Framed(answer) + more)) == Some(answer)
       <==> |answer| <= 4096
  {
  }
}
