/** The client (`Client`): it sends one connection request, adopts the uid
    of the first Accept it receives, and from then on hands every packet to
    its dispatch table. */
module Peer {
  import opened Words
  import opened Packets
  import opened PacketHandlers

  /** The state of a client as a value: what a callback sees of its caller. */
  datatype PeerView = PeerView(accepted: bool, uid: u32)

  /** What one iteration of the client's receive loop did. */
  datatype ClientEvent =
    | Idle                     // nothing was received
    | Ignored                  // not yet accepted, and not an Accept packet
    | Welcomed(uid: u32)       // the first Accept: the client takes this uid
    | Passed(report: Report)   // already accepted: the packet went to the table

  /** One received packet, as a value. The first field is the type (or
      `unsetType`, the uninitialised variable, when the packet is empty). A
      client that is not accepted yet only reacts to Accept, and takes the
      second field as its uid (keeping its old uid when there is none); an
      accepted client dispatches every packet, Accept included, and its own
      state does not change. */
  function ClientReceive(v: PeerView, slots: map<u32, Slot<PeerView>>, p: Packet, unsetType: u32): (r: (PeerView, ClientEvent))
    ensures !v.accepted && (if |p| > 0 then p[0] else unsetType) == ACCEPT ==>
              r == (PeerView(true, if |p| > 1 then p[1] else v.uid), Welcomed(if |p| > 1 then p[1] else v.uid))
    ensures !v.accepted && (if |p| > 0 then p[0] else unsetType) != ACCEPT ==> r == (v, Ignored)
    ensures v.accepted ==>
              r == (v, Passed(Dispatch(slots, if |p| > 0 then p[0] else unsetType, v, if |p| > 0 then p[1..] else [])))
  {
    var (tag, rest) := Read(p, unsetType);
    if !v.accepted && tag == ACCEPT then
      var (u, _) := Read(rest, v.uid);
      (PeerView(true, u), Welcomed(u))
    else if v.accepted then
      (v, Passed(Dispatch(slots, tag, v, rest)))
    else
      (v, Ignored)
  }

  /** The client state after receiving the packets `ps` one after the other. */
  function ClientRun(v: PeerView, slots: map<u32, Slot<PeerView>>, ps: seq<Packet>, unsetType: u32): PeerView
    decreases |ps|
  {
    if ps == [] then v else ClientRun(ClientReceive(v, slots, ps[0], unsetType).0, slots, ps[1..], unsetType)
  }

  /** Whether a packet reads as an Accept. */
  predicate IsAccept(p: Packet, unsetType: u32)
  {
    (if |p| > 0 then p[0] else unsetType) == ACCEPT
  }

  /** The uid an Accept packet hands to a client whose uid is still `prior`. */
  function OfferedUid(p: Packet, prior: u32): u32
  {
    if |p| > 1 then p[1] else prior
  }

  /** Acceptance is final: once accepted, no packet changes the client's
      state, so its uid is the one it first adopted. */
  lemma {:induction false} AcceptedIsFinal(v: PeerView, slots: map<u32, Slot<PeerView>>, ps: seq<Packet>, unsetType: u32)
    requires v.accepted
    ensures ClientRun(v, slots, ps, unsetType) == v
    decreases |ps|
  {
    if ps != [] {
      AcceptedIsFinal(v, slots, ps[1..], unsetType);
    }
  }

  /** A client that is not accepted ignores everything before the first
      Accept and adopts the uid that Accept carries, whatever follows. */
  lemma {:induction false} FirstAcceptWins(v: PeerView, slots: map<u32, Slot<PeerView>>, ps: seq<Packet>, j: nat, unsetType: u32)
    requires !v.accepted
    requires j < |ps| && IsAccept(ps[j], unsetType)
    requires forall i :: 0 <= i < j ==> !IsAccept(ps[i], unsetType)
    ensures ClientRun(v, slots, ps, unsetType) == PeerView(true, OfferedUid(ps[j], v.uid))
    decreases j
  {
    if j == 0 {
      AcceptedIsFinal(PeerView(true, OfferedUid(ps[0], v.uid)), slots, ps[1..], unsetType);
    } else {
      assert !IsAccept(ps[0], unsetType);
      forall i | 0 <= i < j - 1
        ensures !IsAccept(ps[1..][i], unsetType)
      {
        assert ps[1..][i] == ps[i + 1];
      }
      FirstAcceptWins(v, slots, ps[1..], j - 1, unsetType);
    }
  }

  /** Without any Accept, a client that is not accepted stays as it was. */
  lemma {:induction false} NoAcceptNoChange(v: PeerView, slots: map<u32, Slot<PeerView>>, ps: seq<Packet>, unsetType: u32)
    requires !v.accepted
    requires forall i :: 0 <= i < |ps| ==> !IsAccept(ps[i], unsetType)
    ensures ClientRun(v, slots, ps, unsetType) == v
    decreases |ps|
  {
    if ps != [] {
      assert !IsAccept(ps[0], unsetType);
      forall i | 0 <= i < |ps| - 1
        ensures !IsAccept(ps[1..][i], unsetType)
      {
        assert ps[1..][i] == ps[i + 1];
      }
      NoAcceptNoChange(v, slots, ps[1..], unsetType);
    }
  }

  class Client {
    const packetHandler: PacketHandler<PeerView>
    const ip: IpAddress
    const port: u16
    /** Whether binding the socket succeeded; only then does the loop run. */
    const listening: bool
    var accepted: bool
    var uid: u32
    /** The datagrams sent so far, oldest first. */
    var outbox: seq<Datagram>

    function View(): (v: PeerView)
      reads this
      ensures v.accepted == accepted && v.uid == uid
    {
      PeerView(accepted, uid)
    }

    /** A client for the server at `ip:port`, not accepted yet, its uid left
        as `initialUid` (the source does not initialise it). */
    constructor (packetHandler: PacketHandler<PeerView>, ip: IpAddress, port: u16, bindOk: bool, initialUid: u32)
      ensures this.packetHandler == packetHandler && this.ip == ip && this.port == port
      ensures listening == bindOk && View() == PeerView(false, initialUid) && outbox == []
    {
      this.packetHandler := packetHandler;
      this.ip := ip;
      this.port := port;
      listening := bindOk;
      accepted := false;
      uid := initialUid;
      outbox := [];
    }

    /** The start of `run`: one Connect packet to the server. */
    method Start()
      requires listening
      modifies this
      ensures outbox == old(outbox) + [Datagram(ip, port, [CONNECT])]
      ensures View() == old(View())
    {
      var pConnect := Write([], CONNECT);
      outbox := outbox + [Datagram(ip, port, pConnect)];
    }

    /** One iteration of the receive loop; the sender of a packet is not
        looked at. */
    method Receive(incoming: Received, unsetType: u32) returns (e: ClientEvent)
      requires listening
      modifies this
      ensures outbox == old(outbox)
      ensures incoming.NotReady? ==> e == Idle && View() == old(View())
      ensures incoming.Got? ==> (View(), e) == ClientReceive(old(View()), packetHandler.slots, incoming.packet, unsetType)
    {
      match incoming
      case NotReady =>
        e := Idle;
      case Got(_, _, packet) =>
        var (tag, rest) := Read(packet, unsetType);
        if !accepted && tag == ACCEPT {
          accepted := true;
          var (u, _) := Read(rest, uid);
          uid := u;
          e := Welcomed(uid);
        } else if accepted {
          var report := packetHandler.Handle(tag, View(), rest);
          e := Passed(report);
        } else {
          e := Ignored;
        }
    }
  }
}
