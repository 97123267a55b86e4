/** A server-side session (`ClientHandler`): one slot of the pool, with its
    uid, whether it is taken, the peer address it serves, and a countdown to
    a timeout report that ticks once per second. */
module Sessions {
  import opened Words
  import opened Packets
  import opened PacketHandlers

  /** The value `untilTimeout` starts at and is reset to. */
  const TIMEOUT: u32 := 5

  /** The state of a session as a value: what a callback sees of its caller,
      and what the pool's specification functions work on. */
  datatype SessionView = SessionView(busy: bool, uid: u32, untilTimeout: u32, ip: IpAddress)

  /** `accept(ip)` followed by `refreshTimeout()`, as a value. */
  function Admitted(v: SessionView, sender: IpAddress): (r: SessionView)
    ensures r.busy && r.ip == sender && r.untilTimeout == TIMEOUT && r.uid == v.uid
  {
    v.(busy := true, ip := sender, untilTimeout := TIMEOUT)
  }

  /** `refreshTimeout()`, as a value. */
  function Refreshed(v: SessionView): (r: SessionView)
    ensures r.untilTimeout == TIMEOUT && r.busy == v.busy && r.uid == v.uid && r.ip == v.ip
  {
    v.(untilTimeout := TIMEOUT)
  }

  /** The process-wide counter `lastUid`, starting at zero. */
  class UidCounter {
    var lastUid: u32

    constructor ()
      ensures lastUid == 0
    {
      lastUid := 0;
    }

    /** `lastUid++`: hands out the current value and increments, modulo 2^32. */
    method Take() returns (uid: u32)
      modifies this
      ensures uid == old(lastUid)
      ensures lastUid == Inc32(old(lastUid))
    {
      uid := lastUid;
      lastUid := Inc32(lastUid);
    }
  }

  class ClientHandler {
    const packetHandler: PacketHandler<SessionView>
    const port: u16
    var busy: bool
    var uid: u32
    var untilTimeout: u32
    var ip: IpAddress

    function View(): (v: SessionView)
      reads this
      ensures v.busy == busy && v.uid == uid && v.untilTimeout == untilTimeout && v.ip == ip
    {
      SessionView(busy, uid, untilTimeout, ip)
    }

    /** A new free session: it takes the next uid from the counter and starts
        its countdown at `TIMEOUT`; its address is not set. */
    constructor (counter: UidCounter, packetHandler: PacketHandler<SessionView>, port: u16)
      modifies counter
      ensures View() == SessionView(false, old(counter.lastUid), TIMEOUT, NoAddress)
      ensures counter.lastUid == Inc32(old(counter.lastUid))
      ensures this.packetHandler == packetHandler && this.port == port
    {
      var taken := counter.Take();
      this.packetHandler := packetHandler;
      this.port := port;
      busy := false;
      uid := taken;
      untilTimeout := TIMEOUT;
      ip := NoAddress;
    }

    /** One iteration of the countdown loop: decrement (wrapping below zero)
        and report a timeout exactly when the new value is zero. The session
        stays busy: a timeout is reported, never acted on. */
    method Tick() returns (timedOut: bool)
      modifies this
      ensures untilTimeout == Dec32(old(untilTimeout))
      ensures timedOut <==> untilTimeout == 0
      ensures busy == old(busy) && uid == old(uid) && ip == old(ip)
    {
      untilTimeout := Dec32(untilTimeout);
      timedOut := untilTimeout == 0;
    }

    /** `accept(ip)`: takes the peer address and marks the session busy. */
    method Accept(addr: IpAddress)
      modifies this
      ensures ip == addr && busy
      ensures uid == old(uid) && untilTimeout == old(untilTimeout)
    {
      ip := addr;
      busy := true;
    }

    /** `refreshTimeout()`: restarts the countdown. */
    method RefreshTimeout()
      modifies this
      ensures untilTimeout == TIMEOUT
      ensures busy == old(busy) && uid == old(uid) && ip == old(ip)
    {
      untilTimeout := TIMEOUT;
    }

    /** `handle(tag, packet)`: dispatch with this session as the caller, then
        restart the countdown, whatever the dispatch did. */
    method Handle(tag: u32, p: Packet) returns (r: Report)
      modifies this
      ensures r == Dispatch(packetHandler.slots, tag, old(View()), p)
      ensures View() == Refreshed(old(View()))
    {
      r := packetHandler.Handle(tag, View(), p);
      RefreshTimeout();
    }
  }

  /** The countdown after `n` ticks from `t`. */
  function Countdown(t: u32, n: nat): u32
  {
    if n == 0 then t else Dec32(Countdown(t, n - 1))
  }

  /** `n` ticks subtract `n` modulo 2^32. */
  lemma {:induction false} CountdownWraps(t: u32, n: nat)
    ensures Countdown(t, n) as int == (t as int - n) % U32_LIMIT
  {
    if n > 0 {
      var y := t as int - (n - 1);
      CountdownWraps(t, n - 1);
      Dec32Residue(Countdown(t, n - 1));
      DecOfResidue(y);
    }
  }

  /** `Dec32` is subtraction of one modulo 2^32. */
  lemma Dec32Residue(c: u32)
    ensures Dec32(c) as int == (c as int - 1) % U32_LIMIT
  {
    if c == 0 {
      assert -1 == (-1) * U32_LIMIT + (U32_LIMIT - 1);
    }
  }

  /** Decrementing a residue modulo 2^32 is decrementing before reducing. */
  lemma DecOfResidue(y: int)
    ensures (y % U32_LIMIT - 1) % U32_LIMIT == (y - 1) % U32_LIMIT
  {
    var q := y / U32_LIMIT;
    var m := y % U32_LIMIT;
    assert y == q * U32_LIMIT + m;
    if m == 0 {
      assert y - 1 == (q - 1) * U32_LIMIT + (U32_LIMIT - 1);
    } else {
      assert y - 1 == q * U32_LIMIT + (m - 1);
    }
  }

  /** Over the next 2^32 ticks the countdown from `t` reports a timeout
      exactly once: after `t` ticks, or after 2^32 ticks when it starts at 0. */
  lemma TimeoutOncePerPeriod(t: u32, n: nat)
    requires 1 <= n <= U32_LIMIT
    ensures Countdown(t, n) == 0 <==> n == (if t == 0 then U32_LIMIT else t as int)
  {
    CountdownWraps(t, n);
  }

  /** A session whose countdown was just restarted reports its timeout on
      the fifth tick, and not on any tick before it. */
  lemma TimeoutAfterFiveTicks(n: nat)
    requires 1 <= n <= 5
    ensures Countdown(TIMEOUT, n) == 0 <==> n == 5
    ensures Countdown(TIMEOUT, n) as int == 5 - n
  {
    CountdownWraps(TIMEOUT, n);
  }
}
