/** The handshake as the client performs it on a connection that delivers the server's bytes in
    arbitrary fragments (worker/internal/proxy/socks5.go). */
module Socks5Client {
  import opened Wrappers
  import opened Socks5

  class Conn {
    /** The server's bytes not yet read. */
    var incoming: seq<Byte>
    /** What the client has written. */
    var outgoing: seq<Byte>
    /** How the network cuts the stream: the k-th read from now gets at most 1 + fragments[k] bytes. */
    var fragments: seq<nat>
    /** How many more writes succeed. */
    var writable: nat

    constructor (incoming: seq<Byte>, fragments: seq<nat>, writable: nat)
      ensures this.incoming == incoming && this.fragments == fragments && this.writable == writable && outgoing == []
    {
      this.incoming, this.fragments, this.writable, this.outgoing := incoming, fragments, writable, [];
    }

    /** One Read call for up to `n` bytes: some but perhaps fewer, none only at the end of the stream. */
    method Read(n: nat) returns (bytes: seq<Byte>)
      requires n > 0
      modifies `incoming, `fragments
      ensures |bytes| <= n && old(incoming) == bytes + incoming
      ensures bytes == [] <==> old(incoming) == []
    {
      var limit := if fragments == [] then 1 else 1 + fragments[0];
      if fragments != [] {
        fragments := fragments[1..];
      }
      var k := if n < limit then n else limit;
      if |incoming| < k {
        k := |incoming|;
      }
      bytes, incoming := incoming[..k], incoming[k..];
    }

    /** io.ReadFull: exactly `n` bytes, or failure at the end of the stream. */
    method ReadFull(n: nat) returns (bytes: seq<Byte>, ok: bool)
      modifies `incoming, `fragments
      ensures ok <==> |old(incoming)| >= n
      ensures ok ==> bytes == old(incoming)[..n] && incoming == old(incoming)[n..]
      ensures !ok ==> incoming == []
    {
      bytes := [];
      while |bytes| < n
        invariant |bytes| <= n && old(incoming) == bytes + incoming
        decreases n - |bytes|
      {
        var more := Read(n - |bytes|);
        if more == [] {
          return bytes, false;
        }
        bytes := bytes + more;
      }
      ok := true;
    }

    /** io.CopyN into nowhere, in blocks of at most 8 KiB. */
    method Discard(n: nat) returns (ok: bool)
      modifies `incoming, `fragments
      ensures ok <==> |old(incoming)| >= n
      ensures ok ==> incoming == old(incoming)[n..]
      ensures !ok ==> incoming == []
    {
      var done := 0;
      while done < n
        invariant 0 <= done <= n && done <= |old(incoming)| && incoming == old(incoming)[done..]
        decreases n - done
      {
        var block := Read(if n - done < 8192 then n - done else 8192);
        if block == [] {
          return false;
        }
        done := done + |block|;
      }
      ok := true;
    }

    method Write(bytes: seq<Byte>) returns (ok: bool)
      modifies `outgoing, `writable
      ensures ok <==> old(writable) > 0
      ensures ok ==> outgoing == old(outgoing) + bytes && writable == old(writable) - 1
      ensures !ok ==> outgoing == old(outgoing) && writable == 0
    {
      if writable == 0 {
        return false;
      }
      outgoing, writable := outgoing + bytes, writable - 1;
      ok := true;
    }
  }

  /** Skipping the bound address, one read at a time. */
  method DiscardAddress(conn: Conn, kind: Byte) returns (error: Option<Error>)
    modifies conn`incoming, conn`fragments
    ensures Agrees(error, conn.incoming, SkipAddress(kind, old(conn.incoming))) && error != Some(WriteFailed)
  {
    var length: nat := 0;
    if kind == 1 {
      length := 4;
    } else if kind == 4 {
      length := 16;
    } else if kind == 3 {
      var size, ok := conn.ReadFull(1);
      if !ok {
        return Some(ShortRead);
      }
      length := size[0] as int;
    } else {
      return Some(UnknownAddressType);
    }
    var ok := conn.Discard(length + 2);
    error := if ok then None else Some(ShortRead);
  }

  /** The method reports the error, or success with the unread bytes, that the specification gives. */
  predicate Agrees(error: Option<Error>, unread: seq<Byte>, spec: Rest) {
    match spec
    case Failed(e) => error == Some(e)
    case Left(rest) => error.None? && unread == rest
  }

  method Authenticate(d: Dialer, conn: Conn) returns (error: Option<Error>)
    modifies conn
    ensures old(conn.writable) == 0 ==> error == Some(WriteFailed) && conn.outgoing == old(conn.outgoing)
    ensures old(conn.writable) > 0 ==>
              && Agrees(error, conn.incoming, ReadAuthReply(old(conn.incoming)))
              && conn.outgoing == old(conn.outgoing) + AuthRequest(d) && conn.writable == old(conn.writable) - 1
  {
    var request := BuildAuthRequest(d);
    var ok := conn.Write(request);
    if !ok {
      return Some(WriteFailed);
    }
    var reply: seq<Byte>;
    reply, ok := conn.ReadFull(2);
    if !ok {
      return Some(ShortRead);
    }
    if reply[1] != 0 {
      return Some(AuthFailed);
    }
    error := None;
  }

  /** Greeting, method selection and, if the server asks for it, authentication. */
  method Open(d: Dialer, conn: Conn) returns (error: Option<Error>)
    modifies conn
    ensures old(conn.writable) >= 2 ==>
              && Agrees(error, conn.incoming, ReadMethod(old(conn.incoming)))
              && conn.outgoing == old(conn.outgoing) + Opening(d, old(conn.incoming))
              && conn.writable >= old(conn.writable) - 2
    ensures old(conn.writable) == 0 ==> error == Some(WriteFailed)
    ensures error == Some(WriteFailed) ==> old(conn.writable) < 2
  {
    var methods: seq<Byte> := [0];
    if d.username != [] || d.password != [] {
      methods := methods + [2];
    }
    var greeting := [5, Low(|methods|)] + methods;
    assert greeting == Greeting(d);
    var ok := conn.Write(greeting);
    if !ok {
      return Some(WriteFailed);
    }
    var reply: seq<Byte>;
    reply, ok := conn.ReadFull(2);
    if !ok {
      return Some(ShortRead);
    }
    if reply[0] != 5 {
      return Some(WrongVersion);
    }
    if reply[1] == 0 {
      return None;
    } else if reply[1] == 2 {
      error := Authenticate(d, conn);
    } else {
      error := Some(if reply[1] == 255 then MethodRejected else MethodUnknown);
    }
  }

  /** The whole handshake. If the connection takes the client's three messages, the outcome, what
      was sent and what stays unread depend only on the server's bytes, not on how they were cut. */
  method Negotiate(d: Dialer, conn: Conn, t: Target) returns (error: Option<Error>)
    modifies conn
    ensures old(conn.writable) >= 3 ==>
              && Agrees(error, conn.incoming, Handshake(t, old(conn.incoming)))
              && conn.outgoing == old(conn.outgoing) + Sent(d, t, old(conn.incoming))
    ensures error == Some(WriteFailed) ==> old(conn.writable) < 3
    ensures old(conn.writable) == 0 ==> error == Some(WriteFailed)
  {
    error := Open(d, conn);
    if error.Some? {
      return;
    }
    var request := BuildConnectRequest(t);
    if request.Err? {
      return Some(request.error);
    }
    var ok := conn.Write(request.value);
    if !ok {
      return Some(WriteFailed);
    }
    error := AwaitReply(conn);
  }

  /** The reply to the CONNECT request. */
  method AwaitReply(conn: Conn) returns (error: Option<Error>)
    modifies conn`incoming, conn`fragments
    ensures Agrees(error, conn.incoming, ReadReply(old(conn.incoming)))
    ensures error != Some(WriteFailed)
  {
    var header, ok := conn.ReadFull(4);
    if !ok {
      return Some(ShortRead);
    }
    if header[0] != 5 {
      return Some(WrongVersion);
    }
    if header[1] != 0 {
      return Some(ConnectFailed(header[1]));
    }
    error := DiscardAddress(conn, header[3]);
  }

  /** For every conforming success exchange followed by any tunnel data, under every fragmentation:
      the handshake succeeds, exactly the tunnel data is left unread, and a reference server
      recovers the target from the last message. */
  method NegotiateConforming(d: Dialer, t: Target, x: Exchange, tunnel: seq<Byte>, fragments: seq<nat>)
    returns (conn: Conn, error: Option<Error>)
    requires Conforming(x) && WellFormed(t.address) && ConnectRequest(t).Ok?
    ensures error.None? && conn.incoming == tunnel
    ensures conn.outgoing == Greeting(d) + (if x.auth.Some? then AuthRequest(d) else []) + ConnectRequest(t).value
    ensures DecodeConnect(ConnectRequest(t).value) == Some(t)
  {
    var stream := Bytes(x) + tunnel;
    conn := new Conn(stream, fragments, 3);
    ConformingAccepted(t, x, tunnel);
    ConnectReadsBack(t);
    assert AsksAuth(stream) <==> x.auth.Some?;
    error := Negotiate(d, conn, t);
  }
}
