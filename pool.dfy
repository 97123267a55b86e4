/** The server (`Server`): a pool of sessions sharing one socket. One step of
    its receive loop either accepts a connection request or routes a packet
    to the session whose uid the packet names. */
module Pool {
  import opened Words
  import opened Packets
  import opened PacketHandlers
  import opened Sessions

  /** How many sessions `growIfNeeded` adds at once. */
  const GROWTH: nat := 10

  // ---------------------------------------------------------------------
  // The pool as a sequence of values

  predicate HasFree(vs: seq<SessionView>)
  {
    exists i :: 0 <= i < |vs| && !vs[i].busy
  }

  /** The number of free sessions among the first `n`. */
  function CountFree(vs: seq<SessionView>, n: nat): nat
    requires n <= |vs|
  {
    if n == 0 then 0 else CountFree(vs, n - 1) + (if vs[n - 1].busy then 0 else 1)
  }

  lemma {:induction false} CountFreeZero(vs: seq<SessionView>, n: nat)
    requires n <= |vs|
    ensures CountFree(vs, n) == 0 <==> forall i :: 0 <= i < n ==> vs[i].busy
  {
    if n > 0 {
      CountFreeZero(vs, n - 1);
    }
  }

  /** The pool after a connection request from `sender`: every free session
      is admitted for that sender, every busy one is left as it was. */
  function ConnectViews(vs: seq<SessionView>, sender: IpAddress): (r: seq<SessionView>)
    ensures |r| == |vs|
    ensures forall i :: 0 <= i < |vs| ==> r[i].busy && r[i].uid == vs[i].uid
    ensures forall i :: 0 <= i < |vs| && vs[i].busy ==> r[i] == vs[i]
    ensures forall i :: 0 <= i < |vs| && !vs[i].busy ==> r[i] == Admitted(vs[i], sender)
  {
    seq(|vs|, i requires 0 <= i < |vs| => ConnectOne(vs[i], sender))
  }

  /** One session's part of a connection request: admitted if free. */
  function ConnectOne(v: SessionView, sender: IpAddress): (r: SessionView)
    ensures r.busy && r.uid == v.uid
    ensures v.busy ==> r == v
    ensures !v.busy ==> r == Admitted(v, sender)
  {
    if v.busy then v else Admitted(v, sender)
  }

  /** The Accept reply `[Accept, uid]` for one session, addressed to the sender. */
  function AcceptFor(v: SessionView, sender: IpAddress, port: u16): Datagram
  {
    Datagram(sender, port, [ACCEPT, v.uid])
  }

  /** The reply one session contributes: none when busy. */
  function ReplyOf(v: SessionView, sender: IpAddress, port: u16): seq<Datagram>
  {
    if v.busy then [] else [AcceptFor(v, sender, port)]
  }

  /** The replies sent for the first `n` sessions: one per free session, in pool order. */
  function RepliesUpTo(vs: seq<SessionView>, n: nat, sender: IpAddress, port: u16): seq<Datagram>
    requires n <= |vs|
  {
    if n == 0 then [] else RepliesUpTo(vs, n - 1, sender, port) + ReplyOf(vs[n - 1], sender, port)
  }

  /** The replies sent for a connection request. */
  function Replies(vs: seq<SessionView>, sender: IpAddress, port: u16): seq<Datagram>
  {
    RepliesUpTo(vs, |vs|, sender, port)
  }

  /** There is exactly one reply per free session. */
  lemma {:induction false} RepliesCount(vs: seq<SessionView>, n: nat, sender: IpAddress, port: u16)
    requires n <= |vs|
    ensures |RepliesUpTo(vs, n, sender, port)| == CountFree(vs, n)
  {
    if n > 0 {
      RepliesCount(vs, n - 1, sender, port);
    }
  }

  /** The free session at index `i` gets the reply at the position given by
      the number of free sessions before it: replies follow pool order. */
  lemma {:induction false} ReplyPosition(vs: seq<SessionView>, n: nat, i: nat, sender: IpAddress, port: u16)
    requires i < n <= |vs| && !vs[i].busy
    ensures CountFree(vs, i) < |RepliesUpTo(vs, n, sender, port)|
    ensures RepliesUpTo(vs, n, sender, port)[CountFree(vs, i)] == AcceptFor(vs[i], sender, port)
  {
    if n == i + 1 {
      RepliesCount(vs, i, sender, port);
    } else {
      ReplyPosition(vs, n - 1, i, sender, port);
    }
  }

  /** The two facts together, for every free session of the pool. */
  lemma RepliesOnePerFree(vs: seq<SessionView>, sender: IpAddress, port: u16)
    ensures |Replies(vs, sender, port)| == CountFree(vs, |vs|)
    ensures forall i :: 0 <= i < |vs| && !vs[i].busy ==>
              CountFree(vs, i) < |Replies(vs, sender, port)| &&
              Replies(vs, sender, port)[CountFree(vs, i)] == AcceptFor(vs[i], sender, port)
  {
    RepliesCount(vs, |vs|, sender, port);
    forall i | 0 <= i < |vs| && !vs[i].busy
      ensures CountFree(vs, i) < |Replies(vs, sender, port)|
      ensures Replies(vs, sender, port)[CountFree(vs, i)] == AcceptFor(vs[i], sender, port)
    {
      ReplyPosition(vs, |vs|, i, sender, port);
    }
  }

  /** When every session is free, the k-th reply carries the k-th session's uid. */
  lemma RepliesWhenAllFree(vs: seq<SessionView>, sender: IpAddress, port: u16)
    requires forall i :: 0 <= i < |vs| ==> !vs[i].busy
    ensures |Replies(vs, sender, port)| == |vs|
    ensures forall k :: 0 <= k < |vs| ==> Replies(vs, sender, port)[k] == AcceptFor(vs[k], sender, port)
  {
    AllFreeCount(vs, |vs|);
    RepliesCount(vs, |vs|, sender, port);
    forall k | 0 <= k < |vs|
      ensures Replies(vs, sender, port)[k] == AcceptFor(vs[k], sender, port)
    {
      AllFreeCount(vs, k);
      ReplyPosition(vs, |vs|, k, sender, port);
    }
  }

  lemma {:induction false} AllFreeCount(vs: seq<SessionView>, n: nat)
    requires n <= |vs|
    requires forall i :: 0 <= i < |vs| ==> !vs[i].busy
    ensures CountFree(vs, n) == n
  {
    if n > 0 {
      AllFreeCount(vs, n - 1);
    }
  }

  /** Every reply goes to the requesting sender and port, and is an Accept
      carrying one uid. */
  lemma {:induction false} RepliesAreAccepts(vs: seq<SessionView>, n: nat, sender: IpAddress, port: u16)
    requires n <= |vs|
    ensures forall i :: 0 <= i < |RepliesUpTo(vs, n, sender, port)| ==>
              var d := RepliesUpTo(vs, n, sender, port)[i];
              d.peer == sender && d.port == port && |d.packet| == 2 && d.packet[0] == ACCEPT
  {
    if n > 0 {
      RepliesAreAccepts(vs, n - 1, sender, port);
    }
  }

  /** Without free sessions nothing is replied. */
  lemma NoFreeNoReplies(vs: seq<SessionView>, sender: IpAddress, port: u16)
    requires !HasFree(vs)
    ensures Replies(vs, sender, port) == []
  {
    CountFreeZero(vs, |vs|);
    RepliesCount(vs, |vs|, sender, port);
  }

  /** After a connection request no session is free, so a second request,
      from any sender, changes nothing and is not answered. */
  lemma SecondConnectUnanswered(vs: seq<SessionView>, a: IpAddress, b: IpAddress, port: u16)
    ensures !HasFree(ConnectViews(vs, a))
    ensures ConnectViews(ConnectViews(vs, a), b) == ConnectViews(vs, a)
    ensures Replies(ConnectViews(vs, a), b, port) == []
  {
    NoFreeNoReplies(ConnectViews(vs, a), b, port);
  }

  /** The `n` sessions created by one growth, from counter value `start`. */
  function FreshViews(start: u32, n: nat): seq<SessionView>
  {
    seq(n, k requires 0 <= k < n => SessionView(false, Add32(start, k), TIMEOUT, NoAddress))
  }

  /** Replies for two pools side by side are the replies of each, in order. */
  lemma {:induction false} RepliesAppend(u: seq<SessionView>, w: seq<SessionView>, m: nat, sender: IpAddress, port: u16)
    requires m <= |w|
    ensures RepliesUpTo(u + w, |u| + m, sender, port) == Replies(u, sender, port) + RepliesUpTo(w, m, sender, port)
  {
    if m == 0 {
      RepliesPrefixOf(u, w, |u|, sender, port);
    } else {
      RepliesAppend(u, w, m - 1, sender, port);
      assert (u + w)[|u| + m - 1] == w[m - 1];
    }
  }

  /** Replies up to `n` only depend on the first `n` sessions. */
  lemma {:induction false} RepliesPrefixOf(u: seq<SessionView>, w: seq<SessionView>, n: nat, sender: IpAddress, port: u16)
    requires n <= |u|
    ensures RepliesUpTo(u + w, n, sender, port) == RepliesUpTo(u, n, sender, port)
  {
    if n > 0 {
      RepliesPrefixOf(u, w, n - 1, sender, port);
      assert (u + w)[n - 1] == u[n - 1];
    }
  }

  /** `growIfNeeded` on values: unchanged while some session is free,
      otherwise `GROWTH` fresh sessions at the back. */
  function GrowViews(vs: seq<SessionView>, start: u32): seq<SessionView>
  {
    if HasFree(vs) then vs else vs + FreshViews(start, GROWTH)
  }

  /** After a growth a free session exists. */
  lemma GrowGivesFree(vs: seq<SessionView>, start: u32)
    ensures HasFree(GrowViews(vs, start))
  {
    if !HasFree(vs) {
      assert !GrowViews(vs, start)[|vs|].busy;
    }
  }

  /** Fresh uids are pairwise distinct, across a wrap-around too, as long as
      fewer than 2^32 are made at once. */
  lemma FreshUidsDistinct(start: u32, n: nat)
    requires n <= U32_LIMIT
    ensures forall j, k :: 0 <= j < k < n ==> FreshViews(start, n)[j].uid != FreshViews(start, n)[k].uid
  {
    forall j, k | 0 <= j < k < n
      ensures FreshViews(start, n)[j].uid != FreshViews(start, n)[k].uid
    {
      Add32Injective(start, j, k);
    }
  }

  /** Uids strictly increase in pool order and are all below `bound`. */
  ghost predicate UidOrdered(vs: seq<SessionView>, bound: u32)
  {
    && (forall i, j :: 0 <= i < j < |vs| ==> vs[i].uid < vs[j].uid)
    && (forall i :: 0 <= i < |vs| ==> vs[i].uid < bound)
  }

  /** Growing keeps uids increasing in creation order, unless the counter
      wraps around during the growth. */
  lemma GrowKeepsUidOrder(vs: seq<SessionView>, start: u32)
    requires UidOrdered(vs, start)
    requires start as int + GROWTH < U32_LIMIT
    ensures UidOrdered(GrowViews(vs, start), if HasFree(vs) then start else Add32(start, GROWTH))
  {
    if !HasFree(vs) {
      var g := GrowViews(vs, start);
      forall i | |vs| <= i < |g|
        ensures g[i].uid as int == start as int + (i - |vs|)
      {
      }
    }
  }

  /** A connection request keeps every session's uid: uid order is preserved. */
  lemma ConnectKeepsUidOrder(vs: seq<SessionView>, sender: IpAddress, bound: u32)
    requires UidOrdered(vs, bound)
    ensures UidOrdered(ConnectViews(vs, sender), bound)
  {
  }

  /** Every session's uid is its position in the pool: what routing relies
      on when it uses a uid as the vector index. */
  ghost predicate UidsAreIndices(vs: seq<SessionView>)
  {
    forall i :: 0 <= i < |vs| ==> vs[i].uid as int == i
  }

  /** With the counter equal to the pool size, a growth keeps every uid equal
      to its position and leaves the counter equal to the new size. */
  lemma GrowKeepsUidIndices(vs: seq<SessionView>, start: u32)
    requires UidsAreIndices(vs) && start as int == |vs| && |vs| + GROWTH < U32_LIMIT
    ensures UidsAreIndices(GrowViews(vs, start))
    ensures |GrowViews(vs, start)| == (if HasFree(vs) then start else Add32(start, GROWTH)) as int
  {
  }

  /** A connection request keeps every uid at its position. */
  lemma ConnectKeepsUidIndices(vs: seq<SessionView>, sender: IpAddress)
    requires UidsAreIndices(vs)
    ensures UidsAreIndices(ConnectViews(vs, sender))
  {
  }

  /** A routed packet only restarts one countdown: uids stay at their positions. */
  lemma RefreshKeepsUidIndices(vs: seq<SessionView>, i: nat)
    requires UidsAreIndices(vs) && i < |vs|
    ensures UidsAreIndices(vs[i := Refreshed(vs[i])])
  {
  }

  /** Once a connection request has taken every session, a growth followed
      by one more request hands all `GROWTH` new sessions to that one sender:
      one Accept reply each, in creation order. */
  lemma GrowThenConnect(vs: seq<SessionView>, a: IpAddress, b: IpAddress, start: u32, port: u16)
    ensures GrowViews(ConnectViews(vs, a), start) == ConnectViews(vs, a) + FreshViews(start, GROWTH)
    ensures |Replies(GrowViews(ConnectViews(vs, a), start), b, port)| == GROWTH
    ensures forall k :: 0 <= k < GROWTH ==>
              Replies(GrowViews(ConnectViews(vs, a), start), b, port)[k] == Datagram(b, port, [ACCEPT, Add32(start, k)])
  {
    var taken := ConnectViews(vs, a);
    var added := FreshViews(start, GROWTH);
    NoFreeNoReplies(taken, b, port);
    RepliesAppend(taken, added, |added|, b, port);
    RepliesWhenAllFree(added, b, port);
  }

  // ---------------------------------------------------------------------
  // Decoding the header of an inbound packet

  /** A packet read by the server: a connection request, or a message for
      the session with a uid, with the fields after the uid. */
  datatype Inbound = ConnectRequest | Routed(tag: u32, uid: u32, payload: Packet)

  /** `packet >> type`, then `packet >> chUid` unless the type is Connect.
      `unsetType` and `unsetUid` are what the uninitialised locals hold when
      the packet runs out. */
  function Decode(p: Packet, unsetType: u32, unsetUid: u32): (r: Inbound)
    ensures |p| > 0 && p[0] == CONNECT ==> r == ConnectRequest
    ensures |p| >= 2 && p[0] != CONNECT ==> r == Routed(p[0], p[1], p[2..])
    ensures |p| == 1 && p[0] != CONNECT ==> r == Routed(p[0], unsetUid, [])
    ensures |p| == 0 && unsetType == CONNECT ==> r == ConnectRequest
    ensures |p| == 0 && unsetType != CONNECT ==> r == Routed(unsetType, unsetUid, [])
  {
    var (tag, rest) := Read(p, unsetType);
    if tag == CONNECT then ConnectRequest
    else
      var (uid, payload) := Read(rest, unsetUid);
      Routed(tag, uid, payload)
  }

  /** What one receive step did. */
  datatype ServerEvent = Idle | Connected | Delivered(report: Report)

  /** The sessions of a pool, as values. */
  ghost function ViewsOf(hs: seq<ClientHandler>): (vs: seq<SessionView>)
    reads hs
    ensures |vs| == |hs|
    ensures forall k :: 0 <= k < |hs| ==> vs[k] == hs[k].View()
  {
    seq(|hs|, i requires 0 <= i < |hs| reads hs => hs[i].View())
  }

  class Server {
    const packetHandler: PacketHandler<SessionView>
    const port: u16
    /** Whether the socket was bound and the receive loop started. */
    const listening: bool
    var handlers: seq<ClientHandler>
    /** Every datagram handed to the socket, in order. */
    var outbox: seq<Datagram>

    /** Each session is owned once by the pool and shares its dispatch table. */
    ghost predicate Valid()
      reads this
    {
      && (forall i, j :: 0 <= i < j < |handlers| ==> handlers[i] != handlers[j])
      && (forall i :: 0 <= i < |handlers| ==> handlers[i].packetHandler == packetHandler)
    }

    ghost function Views(): (vs: seq<SessionView>)
      reads this, handlers
      ensures |vs| == |handlers|
    {
      ViewsOf(handlers)
    }

    /** A server with an empty pool; its loop runs only if the bind succeeds. */
    constructor (packetHandler: PacketHandler<SessionView>, port: u16, bindOk: bool)
      ensures Valid()
      ensures this.packetHandler == packetHandler && this.port == port && listening == bindOk
      ensures handlers == [] && outbox == []
    {
      this.packetHandler := packetHandler;
      this.port := port;
      listening := bindOk;
      handlers := [];
      outbox := [];
    }

    /** Whether some session is not busy. */
    method AnyFree() returns (b: bool)
      ensures b == HasFree(Views())
    {
      b := false;
      var i := 0;
      while i < |handlers| && !b
        invariant 0 <= i <= |handlers|
        invariant b == exists k :: 0 <= k < i && !handlers[k].busy
      {
        b := !handlers[i].busy;
        i := i + 1;
      }
      assert forall k :: 0 <= k < |handlers| ==> Views()[k].busy == handlers[k].busy;
    }

    /** `growIfNeeded()`: nothing while some session is free; otherwise
        `GROWTH` new sessions at the back, with the next uids of the counter.
        Sessions already in the pool are not touched. */
    method GrowIfNeeded(counter: UidCounter)
      requires Valid()
      modifies this, counter
      ensures Valid() && outbox == old(outbox)
      ensures Views() == GrowViews(old(Views()), old(counter.lastUid))
      ensures counter.lastUid == if HasFree(old(Views())) then old(counter.lastUid) else Add32(old(counter.lastUid), GROWTH)
      ensures handlers[..old(|handlers|)] == old(handlers)
      ensures forall k :: old(|handlers|) <= k < |handlers| ==> fresh(handlers[k])
      ensures old(UidOrdered(Views(), counter.lastUid)) && old(counter.lastUid) as int + GROWTH < U32_LIMIT
              ==> UidOrdered(Views(), counter.lastUid)
      ensures old(UidsAreIndices(Views())) && old(counter.lastUid) as int == old(|handlers|) && old(|handlers|) + GROWTH < U32_LIMIT
              ==> UidsAreIndices(Views()) && counter.lastUid as int == |handlers|
    {
      var any := AnyFree();
      if any {
        return;
      }
      ghost var start := counter.lastUid;
      ghost var vs0 := Views();
      ghost var n0 := |handlers|;
      var added := NewSessions(counter, packetHandler, port, GROWTH);
      handlers := handlers + added;
      forall k | 0 <= k < |handlers|
        ensures Views()[k] == GrowViews(vs0, start)[k]
      {
        if k < n0 {
          assert handlers[k] == old(handlers)[k];
        } else {
          assert handlers[k] == added[k - n0];
        }
      }
      if UidOrdered(vs0, start) && start as int + GROWTH < U32_LIMIT {
        GrowKeepsUidOrder(vs0, start);
      }
      if UidsAreIndices(vs0) && start as int == n0 && n0 + GROWTH < U32_LIMIT {
        GrowKeepsUidIndices(vs0, start);
      }
    }

    /** The Connect branch: every session that is not busy is accepted for the
        sender, its countdown restarted, and an Accept reply carrying its uid
        sent to the sender; the loop does not stop at the first one. */
    method AcceptAllFree(sender: IpAddress, senderPort: u16)
      requires Valid()
      modifies this, handlers
      ensures Valid() && handlers == old(handlers)
      ensures Views() == ConnectViews(old(Views()), sender)
      ensures outbox == old(outbox) + Replies(old(Views()), sender, senderPort)
    {
      var sent := AcceptEach(handlers, sender, senderPort);
      outbox := outbox + sent;
    }

    /** One iteration of the receive loop. A Connect packet accepts every free
        session; any other packet is handed to the session at the index its
        uid field names, which the source does not check. */
    method Receive(incoming: Received, unsetType: u32, unsetUid: u32) returns (r: ServerEvent)
      requires Valid() && listening
      requires incoming.Got? && Decode(incoming.packet, unsetType, unsetUid).Routed? ==>
                 Decode(incoming.packet, unsetType, unsetUid).uid as int < |handlers|
      modifies this, handlers
      ensures Valid() && handlers == old(handlers)
      ensures incoming.NotReady? ==> r == Idle && Views() == old(Views()) && outbox == old(outbox)
      ensures incoming.Got? && Decode(incoming.packet, unsetType, unsetUid).ConnectRequest? ==>
                && r == Connected
                && Views() == ConnectViews(old(Views()), incoming.sender)
                && outbox == old(outbox) + Replies(old(Views()), incoming.sender, incoming.senderPort)
      ensures incoming.Got? && Decode(incoming.packet, unsetType, unsetUid).Routed? ==>
                var d := Decode(incoming.packet, unsetType, unsetUid);
                && r == Delivered(Dispatch(packetHandler.slots, d.tag, old(Views())[d.uid], d.payload))
                && Views() == old(Views())[d.uid as int := Refreshed(old(Views())[d.uid])]
                && outbox == old(outbox)
    {
      match incoming
      case NotReady =>
        r := Idle;
      case Got(sender, senderPort, packet) =>
        var (tag, rest) := Read(packet, unsetType);
        if tag == CONNECT {
          AcceptAllFree(sender, senderPort);
          r := Connected;
        } else {
          var (chUid, payload) := Read(rest, unsetUid);
          ghost var vs0 := Views();
          var report := handlers[chUid].Handle(tag, payload);
          r := Delivered(report);
          forall k | 0 <= k < |handlers|
            ensures Views()[k] == vs0[chUid as int := Refreshed(vs0[chUid])][k]
          {
          }
        }
    }
  }

  /** The Connect loop over the sessions `hs`, in order: each free one is
      admitted and answered, each busy one skipped. */
  method AcceptEach(hs: seq<ClientHandler>, sender: IpAddress, senderPort: u16) returns (sent: seq<Datagram>)
    requires forall j, k :: 0 <= j < k < |hs| ==> hs[j] != hs[k]
    modifies hs
    ensures ViewsOf(hs) == ConnectViews(old(ViewsOf(hs)), sender)
    ensures sent == Replies(old(ViewsOf(hs)), sender, senderPort)
  {
    ghost var vs0 := ViewsOf(hs);
    sent := [];
    for i := 0 to |hs|
      invariant forall k :: 0 <= k < |hs| ==> hs[k].View() == if k < i then ConnectOne(vs0[k], sender) else vs0[k]
      invariant sent == RepliesUpTo(vs0, i, sender, senderPort)
    {
      var reply := AcceptIfFree(hs[i], sender, senderPort);
      sent := sent + reply;
    }
    assert ViewsOf(hs) == ConnectViews(vs0, sender);
  }

  /** One pass of the Connect loop: a busy session is skipped; a free one is
      accepted, refreshed and answered with `[Accept, uid]`. */
  method AcceptIfFree(c: ClientHandler, sender: IpAddress, senderPort: u16) returns (reply: seq<Datagram>)
    modifies c
    ensures c.View() == ConnectOne(old(c.View()), sender)
    ensures reply == ReplyOf(old(c.View()), sender, senderPort)
  {
    if c.busy {
      return [];
    }
    c.Accept(sender);
    c.RefreshTimeout();
    var acceptPacket := Write(Write([], ACCEPT), c.uid);
    assert acceptPacket == [ACCEPT, c.uid];
    reply := [Datagram(sender, senderPort, acceptPacket)];
  }

  /** The growth loop: `n` new sessions, created one after the other, each
      taking the next uid of the counter. */
  method NewSessions(counter: UidCounter, packetHandler: PacketHandler<SessionView>, port: u16, n: nat)
    returns (added: seq<ClientHandler>)
    modifies counter
    ensures |added| == n
    ensures forall k :: 0 <= k < n ==> fresh(added[k]) && added[k].packetHandler == packetHandler
    ensures forall j, k :: 0 <= j < k < n ==> added[j] != added[k]
    ensures ViewsOf(added) == FreshViews(old(counter.lastUid), n)
    ensures counter.lastUid == Add32(old(counter.lastUid), n)
  {
    ghost var start := counter.lastUid;
    added := [];
    for i := 0 to n
      invariant |added| == i
      invariant counter.lastUid == Add32(start, i)
      invariant forall k :: 0 <= k < i ==> fresh(added[k]) && added[k].packetHandler == packetHandler
      invariant forall j, k :: 0 <= j < k < i ==> added[j] != added[k]
      invariant forall k :: 0 <= k < i ==> added[k].View() == FreshViews(start, n)[k]
    {
      var h := new ClientHandler(counter, packetHandler, port);
      added := added + [h];
      Add32Step(start, i);
    }
  }

  // ---------------------------------------------------------------------
  // The loop as the source runs it

  /** The receive loop never calls `growIfNeeded`, so the pool of a server
      started by the source stays empty and a connection request gets no reply. */
  method ConnectToNewServer(packetHandler: PacketHandler<SessionView>, port: u16, client: IpAddress, clientPort: u16)
    returns (sent: seq<Datagram>)
    ensures sent == []
  {
    var server := new Server(packetHandler, port, true);
    BuildHoldsFields([CONNECT]);
    var _ := server.Receive(Got(client, clientPort, Build([CONNECT])), 0, 0);
    sent := server.outbox;
  }
}
