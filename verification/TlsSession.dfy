/**
 * One connection's TLS: hello, decision, live session, and what becomes of
 * every byte. rustls is a pair of values that may do anything its contract
 * allows; the session around them is what is modelled.
 */
module TlsSession {
  import opened Wrappers
  import opened Machine
  import opened Ordering

  const PLAIN_CHUNK := 16384

  datatype Offer = Http2 | Http11

  datatype Step = NeedMore | Hello(offer: Offer) | Live

  // -------------------------------------------------------------------------
  // What is relied on of rustls
  // -------------------------------------------------------------------------

  /** Reads until it has a ClientHello, holding no more than `capacity` bytes. */
  datatype Acceptor = Acceptor(read: seq<byte>, capacity: nat)

  /**
   * A connection: ciphertext taken in, plaintext decrypted and not yet read,
   * plaintext accepted for sealing, ciphertext not yet written out and all that
   * was ever produced. `settled` says the buffer was processed since it was last
   * read into.
   */
  datatype Conn = Conn(
    received: seq<byte>,
    settled: bool,
    closed: bool,
    handshaking: bool,
    unread: seq<byte>,
    sealed: seq<byte>,
    out: seq<byte>,
    produced: seq<byte>)

  /** What the acceptor makes of what it has read. */
  datatype Accepting = Undecided | Accepted(offer: Offer) | Refused(alert: seq<byte>)

  /** What processing yields: plaintext, ciphertext, a close heard, a handshake done; or a failure. */
  datatype Processing = Processing(plain: seq<byte>, out: seq<byte>, closes: bool, finishes: bool, ok: bool)

  /** Whether an accepted hello becomes a connection, and what processing it first yields. */
  datatype Connecting = Refuses(alert: seq<byte>) | Connects(first: Processing)

  /** Takes some of what fits; a full buffer is a short read. */
  method AcceptorRead(a: Acceptor, cursor: seq<byte>) returns (b: Acceptor, n: nat)
    requires cursor != [] && |a.read| <= a.capacity
    ensures n <= |cursor| && |a.read| + n <= a.capacity
    ensures b == a.(read := a.read + cursor[..n])
    ensures n == 0 <==> |a.read| == a.capacity
  {
    var room := a.capacity - |a.read|;
    n := 0;
    if room > 0 {
      n :| 1 <= n <= room && n <= |cursor|;
    }
    b := a.(read := a.read + cursor[..n]);
  }

  /** A connection starts with everything the acceptor read, unprocessed. */
  function IntoConnection(a: Acceptor): Conn {
    Conn(a.read, false, false, true, [], [], [], [])
  }

  /** After processing a read makes progress; once the peer has closed none does. */
  method ConnRead(c: Conn, cursor: seq<byte>) returns (d: Conn, n: nat, failed: bool)
    requires cursor != []
    ensures n <= |cursor| && (failed ==> n == 0)
    ensures d == c.(received := c.received + cursor[..n], settled := c.settled && n == 0)
    ensures c.settled && !c.closed ==> n > 0 && !failed
    ensures c.closed ==> n == 0
  {
    failed := *;
    n := 0;
    if c.settled && !c.closed {
      failed := false;
      n :| 1 <= n <= |cursor|;
    } else if !failed && !c.closed {
      n :| 0 <= n <= |cursor|;
    }
    d := c.(received := c.received + cursor[..n], settled := c.settled && n == 0);
  }

  /** Decrypts, answers, finishes the handshake, hears a close; or fails. */
  function ConnProcess(c: Conn, p: Processing): Conn {
    c.(unread := c.unread + p.plain, out := c.out + p.out, produced := c.produced + p.out, closed := c.closed || p.closes,
       handshaking := c.handshaking && !p.finishes, settled := p.ok)
  }

  /** Accepts some plaintext, producing ciphertext for it; accepting none produces none. */
  method ConnWrite(c: Conn, plain: seq<byte>) returns (d: Conn, n: nat, ghost made: seq<byte>)
    ensures n <= |plain| && (n == 0 ==> made == [])
    ensures d == c.(sealed := c.sealed + plain[..n], out := c.out + made, produced := c.produced + made)
  {
    var out: seq<byte> := *;
    n :| 0 <= n <= |plain|;
    out := if n == 0 then [] else out;
    made := out;
    d := c.(sealed := c.sealed + plain[..n], out := c.out + out, produced := c.produced + out);
  }

  // -------------------------------------------------------------------------
  // Plumbing
  // -------------------------------------------------------------------------

  /** Moves everything decrypted to the caller, a scratch buffer at a time. */
  method DrainPlaintext(c: Conn, so: seq<byte>) returns (d: Conn, plain: seq<byte>)
    ensures plain == so + c.unread && d == c.(unread := [])
  {
    plain := so;
    var rest := c.unread;
    while rest != []
      invariant plain + rest == so + c.unread
      decreases |rest|
    {
      var n := if |rest| < PLAIN_CHUNK then |rest| else PLAIN_CHUNK;
      plain := plain + rest[..n];
      rest := rest[n..];
    }
    d := c.(unread := []);
  }

  /** Moves everything rustls wants written into the wire buffer. */
  method Pump(c: Conn, so: seq<byte>) returns (d: Conn, wire: seq<byte>)
    ensures wire == so + c.out && d == c.(out := [])
  {
    d, wire := c, so;
    while d.out != []
      invariant wire + d.out == so + c.out && d == c.(out := d.out)
      decreases |d.out|
    {
      var n: nat :| 1 <= n <= |d.out|;
      wire := wire + d.out[..n];
      d := d.(out := d.out[n..]);
    }
  }

  // -------------------------------------------------------------------------
  // The session
  // -------------------------------------------------------------------------

  datatype State = InHello(acceptor: Acceptor) | Ready(accepted: Acceptor) | InLive(conn: Conn) | Dead

  function Min(a: nat, b: nat): nat {
    if a < b then a else b
  }

  class Session {
    var state: State
    var replay: seq<byte>
    var pending: seq<byte>
    var wireOut: seq<byte>
    var offer: Option<Offer>
    var counted: bool
    const capacity: nat
    // Every byte fed, how many of them while the ClientHello was awaited, every
    // byte taken off the wire buffer, and how often a completed handshake was
    // reported.
    ghost var fed: seq<byte>
    ghost var drained: seq<byte>
    ghost var helloLen: nat
    ghost var reports: nat

    /** What the record layer is owed: what fitted the acceptor, then everything after the hello phase. */
    ghost function Owed(): seq<byte>
      requires helloLen <= |fed|
      reads this
    {
      fed[..Min(helloLen, capacity)] + fed[helloLen..]
    }

    ghost predicate Valid()
      reads this
    {
      && helloLen <= |fed|
      && reports == (if counted then 1 else 0)
      && match state
         case InHello(a) =>
           && replay == fed && pending == [] && helloLen == |fed| && drained == wireOut == []
           && a == Acceptor(fed[..Min(helloLen, capacity)], capacity)
         case Ready(a) =>
           && replay == fed && pending == fed[helloLen..] && drained == wireOut == []
           && a == Acceptor(fed[..Min(helloLen, capacity)], capacity)
         case InLive(c) =>
           && replay == [] && pending == [] && c.unread == [] && c.out == [] && drained + wireOut == c.produced
           && (c.settled || c.closed)
           && (if c.closed then c.received <= Owed() else c.received == Owed())
         case Dead => true
    }

    constructor (capacity: nat)
      ensures Valid() && fed == [] && wireOut == [] && state.InHello? && this.capacity == capacity
    {
      this.capacity := capacity;
      state := InHello(Acceptor([], capacity));
      replay, pending, wireOut, offer, counted := [], [], [], None, false;
      fed, drained, helloLen, reports := [], [], 0, 0;
    }

    /** Feeds ciphertext, appending any plaintext it yields; `answer` is the acceptor's, if it is still asked. */
    method Feed(cipher: seq<byte>, so: seq<byte>, answer: Accepting) returns (r: Result<Step, ()>, plain: seq<byte>)
      requires Valid()
      modifies this
      ensures Valid()
      ensures old(state).Dead? ==> r == Ok(Live) && plain == so && state == Dead && wireOut == old(wireOut)
      ensures !old(state).Dead? ==> fed == old(fed) + cipher
      ensures old(state).InHello? || old(state).Ready? ==> plain == so && !state.InLive? && replay == old(replay) + cipher
      ensures helloLen == if old(state).InHello? then |fed| else old(helloLen)
      ensures old(state).InHello? ==> (state.Ready? <==> answer.Accepted?)
      ensures old(state).Ready? ==> state == old(state) && r.Ok? && r.value.Hello?
      ensures old(state).InLive? ==> so <= plain && (r.Ok? <==> state.InLive?)
      ensures r.Err? ==> state == Dead
      ensures old(wireOut) <= wireOut && counted == old(counted) && drained == old(drained)
    {
      plain := so;
      match state {
        case Dead =>
          r := Ok(Live);
        case InHello(_) =>
          r := FeedHello(cipher, answer);
        case Ready(_) =>
          replay := replay + cipher;
          pending := pending + cipher;
          fed := fed + cipher;
          assert fed[..Min(helloLen, capacity)] == old(fed)[..Min(helloLen, capacity)];
          r := Ok(Hello(if offer.Some? then offer.value else Http11));
        case InLive(_) =>
          ghost var before := fed;
          fed := fed + cipher;
          var ok: bool;
          ok, plain := FeedLive(cipher, so, before);
          r := if ok then Ok(Live) else Err(());
      }
    }

    /** Fills the acceptor with as much of a chunk as fits it. */
    method FillAcceptor(cipher: seq<byte>, a: Acceptor) returns (b: Acceptor)
      requires |a.read| <= a.capacity
      ensures b == a.(read := a.read + cipher[..Min(|cipher|, a.capacity - |a.read|)])
    {
      b := a;
      var cursor := cipher;
      while cursor != []
        invariant |cursor| <= |cipher| && cursor == cipher[|cipher| - |cursor|..]
        invariant b == a.(read := a.read + cipher[..|cipher| - |cursor|])
        invariant |b.read| <= b.capacity
        decreases |cursor|
      {
        var before := |cursor|;
        var at := |cipher| - |cursor|;
        var next, n := AcceptorRead(b, cursor);
        assert cipher[..at + n] == cipher[..at] + cursor[..n];
        b := next;
        cursor := cursor[n..];
        if |cursor| == before {
          break;
        }
      }
    }

    method FeedHello(cipher: seq<byte>, answer: Accepting) returns (r: Result<Step, ()>)
      requires Valid() && state.InHello?
      modifies this
      ensures Valid() && fed == old(fed) + cipher && replay == old(replay) + cipher
      ensures helloLen == |fed| && !state.InLive? && (r.Err? ==> state == Dead)
      ensures (state.Ready? <==> answer.Accepted?) && (r.Err? <==> answer.Refused?)
      ensures old(wireOut) <= wireOut && counted == old(counted) && drained == old(drained)
    {
      replay := replay + cipher;
      var acceptor := FillAcceptor(cipher, state.acceptor);
      HelloPrefix(fed, cipher, capacity);
      fed, helloLen := fed + cipher, helloLen + |cipher|;
      match answer
      case Undecided =>
        state := InHello(acceptor);
        r := Ok(NeedMore);
      case Accepted(o) =>
        offer := Some(o);
        state := Ready(acceptor);
        r := Ok(Hello(o));
      case Refused(alert) =>
        wireOut := wireOut + alert;
        state := Dead;
        r := Err(());
    }

    /** Passes a chunk to the record layer until it is taken, closed to more, or refused. */
    method TakeAll(cipher: seq<byte>, conn: Conn, so: seq<byte>) returns (c: Conn, plain: seq<byte>, ok: bool, ghost taken: nat)
      requires (conn.settled || conn.closed) && conn.unread == []
      ensures taken <= |cipher| && c.received == conn.received + cipher[..taken]
      ensures ok && !c.closed ==> taken == |cipher|
      ensures ok ==> (c.settled || c.closed) && c.unread == []
      ensures so <= plain && (conn.closed ==> c.closed && taken == 0)
      ensures conn.out == [] ==> c.produced == conn.produced + c.out
    {
      c, plain, ok := conn, so, true;
      var cursor := cipher;
      taken := 0;
      while cursor != []
        invariant taken <= |cipher| && cursor == cipher[taken..]
        invariant c.received == conn.received + cipher[..taken]
        invariant ok && (c.settled || c.closed) && c.unread == [] && so <= plain
        invariant conn.closed ==> c.closed && taken == 0
        invariant conn.out == [] ==> c.produced == conn.produced + c.out
        decreases |cursor|
      {
        var before := |cursor|;
        var next, n, failed := ConnRead(c, cursor);
        assert cipher[..taken + n] == cipher[..taken] + cursor[..n];
        c := next;
        cursor := cursor[n..];
        taken := taken + n;
        if failed {
          break;
        }
        var answer: Processing := *;
        c, ok := ConnProcess(c, answer), answer.ok;
        if !ok {
          break;
        }
        c, plain := DrainPlaintext(c, plain);
        if |cursor| == before {
          break;
        }
      }
    }

    method FeedLive(cipher: seq<byte>, so: seq<byte>, ghost before: seq<byte>) returns (ok: bool, plain: seq<byte>)
      requires state.InLive? && fed == before + cipher && helloLen <= |before|
      requires reports == (if counted then 1 else 0) && replay == [] && pending == []
      requires var c := state.conn;
               && c.unread == [] && (c.settled || c.closed) && c.out == [] && drained + wireOut == c.produced
               && var owed := before[..Min(helloLen, capacity)] + before[helloLen..];
                  if c.closed then c.received <= owed else c.received == owed
      modifies this`state, this`wireOut
      ensures Valid() && (if ok then state.InLive? else state == Dead)
      ensures so <= plain && old(wireOut) <= wireOut
    {
      var conn := state.conn;
      state := Dead;
      var c, p, good, taken := TakeAll(cipher, conn, so);
      OwedGrows(before, cipher, helloLen, Min(helloLen, capacity), conn.received, taken);
      c, wireOut := Pump(c, wireOut);
      ok, plain := good, p;
      if ok {
        state := InLive(c);
      }
    }

    /** Starts the connection on what the acceptor read; a failure leaves its alert to flush. */
    method Commit(accepted: Acceptor, so: seq<byte>, answer: Connecting) returns (conn: Option<Conn>, plain: seq<byte>)
      modifies this`wireOut
      ensures so <= plain && old(wireOut) <= wireOut
      ensures conn.Some? <==> answer.Connects? && answer.first.ok
      ensures conn.Some? ==> conn.value.received == accepted.read && conn.value.settled
                             && conn.value.unread == [] && conn.value.out == []
                             && conn.value.closed == answer.first.closes && wireOut == old(wireOut) + conn.value.produced
    {
      plain := so;
      if answer.Refuses? {
        wireOut := wireOut + answer.alert;
        return None, so;
      }
      var c := ConnProcess(IntoConnection(accepted), answer.first);
      if !answer.first.ok {
        c, wireOut := Pump(c, wireOut);
        return None, so;
      }
      c, plain := DrainPlaintext(c, plain);
      c, wireOut := Pump(c, wireOut);
      conn := Some(c);
    }

    /** Commits the connection here; from now on it cannot be handed away. */
    method Accept(so: seq<byte>, answer: Connecting) returns (ok: bool, plain: seq<byte>)
      requires Valid()
      modifies this
      ensures Valid() && fed == old(fed) && helloLen == old(helloLen) && counted == old(counted)
      ensures !old(state).Ready? ==> ok && plain == so && state == Dead
      ensures old(state).Ready? ==> (if ok then state.InLive? else state == Dead) && so <= plain
      ensures old(state).Ready? && helloLen == |fed| ==>
                && (ok <==> answer.Connects? && answer.first.ok)
                && (ok ==> state.conn.closed == answer.first.closes)
      ensures old(wireOut) <= wireOut && drained == old(drained)
    {
      if !state.Ready? {
        state := Dead;
        return true, so;
      }
      var accepted := state.accepted;
      state := Dead;
      replay := [];
      var conn, p := Commit(accepted, so, answer);
      if conn.None? {
        return false, p;
      }
      state := InLive(conn.value);
      var held := pending;
      pending := [];
      HelloFirst(fed, helloLen, capacity, held);
      if held != [] {
        ok, plain := FeedLive(held, p, fed[..helloLen]);
      } else {
        ok, plain := true, p;
      }
    }

    /** The first bytes waiting are written to the socket. */
    method TakeWire(n: nat) returns (bytes: seq<byte>)
      requires Valid() && n <= |wireOut|
      modifies this`wireOut, this`drained
      ensures Valid() && bytes == old(wireOut)[..n] && wireOut == old(wireOut)[n..] && drained == old(drained) + bytes
    {
      bytes := wireOut[..n];
      assert wireOut == bytes + wireOut[n..];
      ConcatAssociative(drained, bytes, wireOut[n..]);
      wireOut, drained := wireOut[n..], drained + bytes;
    }

    /** Everything the client has sent, for another engine to start over with. */
    method IntoReplay() returns (bytes: seq<byte>)
      requires Valid()
      ensures state.InHello? || state.Ready? ==> bytes == fed
    {
      bytes := replay;
    }

    /**
     * Seals as much as rustls accepts, draining between writes so that it
     * accepts more; everything it produces for that is on the wire.
     */
    method Seal(plain: seq<byte>) returns (sent: nat, ghost made: seq<byte>)
      requires Valid()
      modifies this`state, this`wireOut
      ensures Valid() && sent <= |plain| && wireOut == old(wireOut) + made
      ensures !old(state).InLive? ==> sent == 0 && state == old(state) && made == []
      ensures old(state).InLive? ==>
                var c := old(state).conn;
                state == InLive(c.(sealed := c.sealed + plain[..sent], produced := c.produced + made))
    {
      made := [];
      if !state.InLive? {
        return 0, [];
      }
      var conn := state.conn;
      ghost var first := conn;
      sent := 0;
      ghost var was := wireOut;
      while true
        invariant sent <= |plain| && wireOut + conn.out == was + made
        invariant conn == first.(sealed := first.sealed + plain[..sent], out := conn.out, produced := first.produced + made)
        invariant state == old(state)
        decreases |plain| - sent, conn.out != []
      {
        conn, wireOut := Pump(conn, wireOut);
        if sent == |plain| {
          break;
        }
        var next, n, more := ConnWrite(conn, plain[sent..]);
        assert plain[..sent + n] == plain[..sent] + plain[sent..][..n];
        if n == 0 {
          break;
        }
        made := made + more;
        conn := next;
        sent := sent + n;
      }
      ConcatAssociative(drained, was, made);
      state := InLive(conn);
    }

    predicate Established()
      reads this
    {
      state.InLive? && !state.conn.handshaking
    }

    /** Reports a completed handshake the first time it is seen, and never again. */
    method TakeEstablished() returns (first: bool)
      requires Valid()
      modifies this`counted, this`reports
      ensures Valid() && (first <==> Established() && !old(counted))
      ensures reports == old(reports) + (if first then 1 else 0) && reports <= 1
    {
      if counted || !Established() {
        return false;
      }
      counted := true;
      reports := reports + 1;
      return true;
    }
  }

  /** The hello phase's bytes, and what was held after them. */
  lemma HelloFirst(fed: seq<byte>, helloLen: nat, capacity: nat, held: seq<byte>)
    requires helloLen <= |fed| && held == fed[helloLen..]
    ensures var before := fed[..helloLen];
            && fed == before + held && before[helloLen..] == []
            && before[..Min(helloLen, capacity)] + before[helloLen..] == fed[..Min(helloLen, capacity)]
            && fed[..Min(helloLen, capacity)] + fed[helloLen..] == fed[..Min(helloLen, capacity)] + held
    ensures held == [] ==> fed[..Min(helloLen, capacity)] + held == fed[..Min(helloLen, capacity)]
  {
    var before := fed[..helloLen];
    assert before[..Min(helloLen, capacity)] == fed[..Min(helloLen, capacity)];
  }

  lemma HelloPrefix(fed: seq<byte>, cipher: seq<byte>, capacity: nat)
    ensures var read := fed[..Min(|fed|, capacity)];
            && |read| <= capacity
            && read + cipher[..Min(|cipher|, capacity - |read|)] == (fed + cipher)[..Min(|fed| + |cipher|, capacity)]
  {
  }

  /** The record layer is owed each later chunk once, after everything before it. */
  lemma OwedGrows(before: seq<byte>, cipher: seq<byte>, helloLen: nat, kept: nat, received: seq<byte>, taken: nat)
    requires kept <= helloLen <= |before| && taken <= |cipher|
    ensures (before + cipher)[..kept] + (before + cipher)[helloLen..] == before[..kept] + before[helloLen..] + cipher
    ensures received == before[..kept] + before[helloLen..] ==>
              received + cipher[..taken] <= (before + cipher)[..kept] + (before + cipher)[helloLen..]
  {
    assert (before + cipher)[..kept] == before[..kept];
    assert (before + cipher)[helloLen..] == before[helloLen..] + cipher;
  }

  lemma OwedIsFedExactly(fed: seq<byte>, helloLen: nat, capacity: nat)
    requires helloLen <= |fed|
    ensures fed[..Min(helloLen, capacity)] + fed[helloLen..] == fed <==> helloLen <= capacity
  {
    assert fed[..helloLen] + fed[helloLen..] == fed;
    assert |fed[..Min(helloLen, capacity)] + fed[helloLen..]| == Min(helloLen, capacity) + |fed| - helloLen;
  }

  /**
   * Bytes are conserved exactly when the hello phase fits the acceptor: then
   * the record layer has received every byte fed, once, in order; otherwise
   * what did not fit is gone.
   */
  lemma ConservedExactlyWhenHelloFits(s: Session)
    requires s.Valid() && s.state.InLive? && !s.state.conn.closed
    ensures s.state.conn.received == s.fed <==> s.helloLen <= s.capacity
  {
    OwedIsFedExactly(s.fed, s.helloLen, s.capacity);
  }

  /**
   * A hello chunk longer than the acceptor holds, accepted: only the first
   * `capacity` bytes ever reach the record layer.
   */
  method OversizedHello(capacity: nat, chunk: seq<byte>, offer: Offer) returns (s: Session)
    requires |chunk| > capacity
    ensures fresh(s) && s.Valid() && s.fed == chunk
    ensures s.state.InLive? && !s.state.conn.closed
    ensures s.state.conn.received == chunk[..capacity] != s.fed
  {
    s := new Session(capacity);
    var r, plain := s.Feed(chunk, [], Accepted(offer));
    assert s.fed == chunk;
    var ok, p := s.Accept(plain, Connects(Processing([], [], false, false, true)));
    assert s.fed[s.helloLen..] == [];
  }
}
