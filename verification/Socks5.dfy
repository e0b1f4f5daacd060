/** The SOCKS5 client handshake, sections 3 to 6 of RFC 1928 and section 2 of RFC 1929
    (worker/internal/proxy/socks5.go). */
module Socks5 {
  import opened Wrappers

  datatype Address = V4(octets: seq<Byte>) | V6(octets: seq<Byte>) | Name(host: seq<Byte>)

  /** A target after host and port have been split and the host recognised as an address or a name. */
  datatype Target = Target(address: Address, port: int)

  predicate WellFormed(a: Address) {
    match a
    case V4(octets) => |octets| == 4
    case V6(octets) => |octets| == 16
    case Name(_) => true
  }

  datatype Error =
    | CredentialsTooLong | WriteFailed | ShortRead | WrongVersion | MethodRejected | MethodUnknown
    | AuthFailed | BadPort | BadName | ConnectFailed(code: Byte) | UnknownAddressType

  datatype Result<T> = Ok(value: T) | Err(error: Error)

  datatype Dialer = Dialer(username: seq<Byte>, password: seq<Byte>)

  function NewDialer(username: seq<Byte>, password: seq<Byte>): (r: Result<Dialer>)
    ensures r.Ok? <==> |username| <= 255 && |password| <= 255
    ensures r.Ok? ==> r.value == Dialer(username, password)
  {
    if |username| > 255 || |password| > 255 then Err(CredentialsTooLong) else Ok(Dialer(username, password))
  }

  /** Conversion of a length to one byte. */
  function Low(n: int): Byte { n % 256 }

  // ----- messages of the client -----

  function Greeting(d: Dialer): seq<Byte> {
    if d.username != [] || d.password != [] then [5, 2, 0, 2] else [5, 1, 0]
  }

  function AuthRequest(d: Dialer): seq<Byte> {
    [1, Low(|d.username|)] + d.username + [Low(|d.password|)] + d.password
  }

  function AddressBytes(a: Address): seq<Byte> {
    match a
    case V4(octets) => [1] + octets
    case V6(octets) => [4] + octets
    case Name(host) => [3, Low(|host|)] + host
  }

  function ConnectRequest(t: Target): Result<seq<Byte>> {
    if t.port < 1 || t.port > 65535 then Err(BadPort)
    else if t.address.Name? && (|t.address.host| == 0 || |t.address.host| > 255) then Err(BadName)
    else Ok([5, 1, 0] + AddressBytes(t.address) + [Low(t.port / 256), Low(t.port)])
  }

  method BuildConnectRequest(t: Target) returns (r: Result<seq<Byte>>)
    ensures r == ConnectRequest(t)
  {
    if t.port < 1 || t.port > 65535 {
      return Err(BadPort);
    }
    var request: seq<Byte> := [5, 1, 0];
    match t.address {
      case V4(octets) =>
        request := request + [1];
        request := request + octets;
      case V6(octets) =>
        request := request + [4];
        request := request + octets;
      case Name(host) =>
        if |host| == 0 || |host| > 255 {
          return Err(BadName);
        }
        request := request + [3, Low(|host|)];
        request := request + host;
    }
    assert request == [5, 1, 0] + AddressBytes(t.address);
    request := request + [Low(t.port / 256), Low(t.port)];
    r := Ok(request);
  }

  method BuildAuthRequest(d: Dialer) returns (request: seq<Byte>)
    ensures request == AuthRequest(d)
  {
    request := [1, Low(|d.username|)];
    request := request + d.username;
    request := request + [Low(|d.password|)];
    request := request + d.password;
  }

  // ----- reference decoders of a server -----

  /** Section 2 of RFC 1929: version, username and password, each after its length. */
  function DecodeAuth(m: seq<Byte>): Option<(seq<Byte>, seq<Byte>)> {
    if |m| < 2 || m[0] != 1 || |m| < 3 + m[1] as int then None
    else
      var username, rest := m[2..2 + m[1]], m[2 + m[1]..];
      if |rest| != 1 + rest[0] as int then None else Some((username, rest[1..]))
  }

  /** Sections 4 and 5 of RFC 1928: a CONNECT request. */
  function DecodeConnect(m: seq<Byte>): Option<Target> {
    if |m| < 5 || m[0] != 5 || m[1] != 1 || m[2] != 0 then None
    else
      var length: int := if m[3] == 1 then 4 else if m[3] == 4 then 16 else if m[3] == 3 then m[4] as int else -1;
      var start: int := if m[3] == 3 then 5 else 4;
      if length < 0 || |m| != start + length + 2 then None
      else
        var host := m[start..start + length];
        var port: int := 256 * m[start + length] as int + m[start + length + 1] as int;
        Some(Target(if m[3] == 1 then V4(host) else if m[3] == 4 then V6(host) else Name(host), port))
  }

  /** Every accepted dialer's authentication request reads back exactly; no length byte wraps. */
  lemma AuthReadsBack(d: Dialer)
    requires NewDialer(d.username, d.password).Ok?
    ensures DecodeAuth(AuthRequest(d)) == Some((d.username, d.password))
    ensures |AuthRequest(d)| == 3 + |d.username| + |d.password|
  {
    var m := AuthRequest(d);
    assert m[2..2 + m[1]] == d.username;
    var rest := m[2 + m[1]..];
    assert rest == [Low(|d.password|)] + d.password;
    assert rest[1..] == d.password;
  }

  lemma LongNameUnreadable(d: Dialer)
    requires |d.username| > 255
    ensures DecodeAuth(AuthRequest(d)) != Some((d.username, d.password))
  {
  }

  lemma LongPasswordUnreadable(d: Dialer)
    requires |d.username| <= 255 && |d.password| > 255
    ensures DecodeAuth(AuthRequest(d)) != Some((d.username, d.password))
  {
  }

  /** A dialer is accepted exactly when a server can read its user name and password back. */
  lemma AcceptedIffReadable(username: seq<Byte>, password: seq<Byte>)
    ensures NewDialer(username, password).Ok?
       <==> DecodeAuth(AuthRequest(Dialer(username, password))) == Some((username, password))
  {
    var d := Dialer(username, password);
    if NewDialer(username, password).Ok? {
      AuthReadsBack(d);
    } else if |username| > 255 {
      LongNameUnreadable(d);
    } else {
      LongPasswordUnreadable(d);
    }
  }

  /** Every CONNECT request reads back as the exact address and port and is at most 262 bytes long. */
  lemma ConnectReadsBack(t: Target)
    requires WellFormed(t.address) && ConnectRequest(t).Ok?
    ensures DecodeConnect(ConnectRequest(t).value) == Some(t)
    ensures |ConnectRequest(t).value| <= 262
  {
    var m := ConnectRequest(t).value;
    var host := if t.address.Name? then t.address.host else t.address.octets;
    var start := if t.address.Name? then 5 else 4;
    assert m[start..start + |host|] == host;
  }

  // ----- what the client reads -----

  /** The outcome of reading from a stream: success with what is left unread, or an error. */
  datatype Rest = Left(unread: seq<Byte>) | Failed(error: Error)

  /** Skipping the bound address and port of the reply. */
  function SkipAddress(kind: Byte, s: seq<Byte>): Rest {
    if kind == 1 then Skip(s, 6)
    else if kind == 4 then Skip(s, 18)
    else if kind == 3 then if s == [] then Failed(ShortRead) else Skip(s[1..], s[0] as int + 2)
    else Failed(UnknownAddressType)
  }

  function Skip(s: seq<Byte>, n: nat): Rest {
    if |s| < n then Failed(ShortRead) else Left(s[n..])
  }

  /** Reading the reply to the CONNECT request. */
  function ReadReply(s: seq<Byte>): Rest {
    if |s| < 4 then Failed(ShortRead)
    else if s[0] != 5 then Failed(WrongVersion)
    else if s[1] != 0 then Failed(ConnectFailed(s[1]))
    else SkipAddress(s[3], s[4..])
  }

  function ReadAuthReply(s: seq<Byte>): Rest {
    if |s| < 2 then Failed(ShortRead) else if s[1] != 0 then Failed(AuthFailed) else Left(s[2..])
  }

  function ReadMethod(s: seq<Byte>): Rest {
    if |s| < 2 then Failed(ShortRead)
    else if s[0] != 5 then Failed(WrongVersion)
    else if s[1] == 0 then Left(s[2..])
    else if s[1] == 2 then ReadAuthReply(s[2..])
    else if s[1] == 255 then Failed(MethodRejected)
    else Failed(MethodUnknown)
  }

  /** The whole handshake as a function of the server's bytes, when no write fails. */
  function Handshake(t: Target, s: seq<Byte>): Rest {
    match ReadMethod(s)
    case Failed(e) => Failed(e)
    case Left(rest) =>
      match ConnectRequest(t)
      case Err(e) => Failed(e)
      case Ok(_) => ReadReply(rest)
  }

  predicate AsksAuth(s: seq<Byte>) { |s| >= 2 && s[0] == 5 && s[1] == 2 }

  /** What the client sends up to the method selection and its authentication. */
  function Opening(d: Dialer, s: seq<Byte>): seq<Byte> {
    Greeting(d) + if AsksAuth(s) then AuthRequest(d) else []
  }

  /** What the client has sent by the end of a handshake. */
  function Sent(d: Dialer, t: Target, s: seq<Byte>): seq<Byte> {
    Opening(d, s) + if ReadMethod(s).Left? && ConnectRequest(t).Ok? then ConnectRequest(t).value else []
  }

  // ----- conforming servers -----

  /** A server's success exchange: the version byte of its authentication reply if it asked for
      authentication, the reserved byte of its reply, and the bound address and port. */
  datatype Exchange = Exchange(auth: Option<Byte>, reserved: Byte, bound: Address, port: (Byte, Byte))

  predicate Conforming(x: Exchange) {
    WellFormed(x.bound) && (x.bound.Name? ==> |x.bound.host| <= 255)
  }

  function BoundBytes(x: Exchange): seq<Byte> { AddressBytes(x.bound) + [x.port.0, x.port.1] }

  function Bytes(x: Exchange): seq<Byte> {
    MethodBytes(x.auth) + [5, 0, x.reserved] + BoundBytes(x)
  }

  lemma SkipsBound(x: Exchange, tunnel: seq<Byte>)
    requires Conforming(x)
    ensures SkipAddress(BoundBytes(x)[0], BoundBytes(x)[1..] + tunnel) == Left(tunnel)
  {
    var b := BoundBytes(x)[1..] + tunnel;
    match x.bound
    case V4(octets) => assert b[6..] == tunnel;
    case V6(octets) => assert b[18..] == tunnel;
    case Name(host) => assert b[1..][|host| + 2..] == tunnel;
  }

  /** Any conforming success exchange is accepted and exactly the tunnel data stays unread. */
  lemma ConformingAccepted(t: Target, x: Exchange, tunnel: seq<Byte>)
    requires Conforming(x) && ConnectRequest(t).Ok?
    ensures Handshake(t, Bytes(x) + tunnel) == Left(tunnel)
  {
    var s := Bytes(x) + tunnel;
    var reply := [5, 0, x.reserved] + BoundBytes(x) + tunnel;
    assert s == MethodBytes(x.auth) + reply;
    MethodAccepted(x.auth, reply);
    assert reply[3] == BoundBytes(x)[0] && reply[4..] == BoundBytes(x)[1..] + tunnel;
    SkipsBound(x, tunnel);
  }

  lemma MethodAccepted(auth: Option<Byte>, reply: seq<Byte>)
    ensures ReadMethod(MethodBytes(auth) + reply) == Left(reply)
  {
    var s := MethodBytes(auth) + reply;
    assert s[2..] == if auth.Some? then [auth.value, 0] + reply else reply;
    assert auth.Some? ==> s[2..][2..] == reply;
  }

  /** The bound address and port that an accepted reply carries. */
  function ObservedBound(reply: seq<Byte>): (Address, (Byte, Byte))
    requires ReadReply(reply).Left?
  {
    var start: int := if reply[3] == 3 then 5 else 4;
    var length: int := if reply[3] == 1 then 4 else if reply[3] == 4 then 16 else reply[4] as int;
    var host := reply[start..start + length];
    (if reply[3] == 1 then V4(host) else if reply[3] == 4 then V6(host) else Name(host),
     (reply[start + length], reply[start + length + 1]))
  }

  /** The exchange that an accepted stream starts with. */
  function Observed(s: seq<Byte>): Exchange
    requires ReadMethod(s).Left? && ReadReply(ReadMethod(s).unread).Left?
  {
    var reply := ReadMethod(s).unread;
    Exchange(if s[1] == 2 then Some(s[2]) else None, reply[2], ObservedBound(reply).0, ObservedBound(reply).1)
  }

  function MethodBytes(auth: Option<Byte>): seq<Byte> {
    if auth.Some? then [5, 2, auth.value, 0] else [5, 0]
  }

  lemma MethodShape(s: seq<Byte>)
    requires ReadMethod(s).Left?
    ensures s == MethodBytes(if s[1] == 2 then Some(s[2]) else None) + ReadMethod(s).unread
  {
  }

  lemma ReplyShape(reply: seq<Byte>)
    requires ReadReply(reply).Left?
    ensures var (bound, port) := ObservedBound(reply);
            && WellFormed(bound) && (bound.Name? ==> |bound.host| <= 255)
            && reply == [5, 0, reply[2]] + (AddressBytes(bound) + [port.0, port.1]) + ReadReply(reply).unread
  {
    var (bound, port) := ObservedBound(reply);
    var end := ReplyEnd(reply);
    assert reply[..3] == [5, 0, reply[2]];
    assert reply[3..end] == AddressBytes(bound) + [port.0, port.1];
    assert reply == reply[..3] + reply[3..end] + reply[end..];
  }

  /** Where the tunnel data starts in an accepted reply. */
  function ReplyEnd(reply: seq<Byte>): (end: nat)
    requires ReadReply(reply).Left?
    ensures 6 <= end <= |reply| && ReadReply(reply).unread == reply[end..]
  {
    if reply[3] == 1 then
      assert reply[4..][6..] == reply[10..]; 10
    else if reply[3] == 4 then
      assert reply[4..][18..] == reply[22..]; 22
    else
      var n: int := reply[4] as int;
      assert reply[4..][1..][n + 2..] == reply[n + 7..]; n + 7
  }

  /** Nothing else is accepted: a stream passes only if it starts with a conforming exchange. */
  lemma AcceptedConforms(t: Target, s: seq<Byte>)
    requires Handshake(t, s).Left?
    ensures ConnectRequest(t).Ok? && Conforming(Observed(s))
    ensures s == Bytes(Observed(s)) + Handshake(t, s).unread
  {
    var reply := ReadMethod(s).unread;
    MethodShape(s);
    ReplyShape(reply);
    var x := Observed(s);
    Regroup(MethodBytes(x.auth), [5, 0, x.reserved], BoundBytes(x), ReadReply(reply).unread);
  }

  lemma Regroup(a: seq<Byte>, b: seq<Byte>, c: seq<Byte>, d: seq<Byte>)
    ensures a + b + c + d == a + (b + c + d)
  {
  }
}
