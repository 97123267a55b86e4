/** The connection handshake across both ends: a client's Connect, the
    server's Accept replies, and what the client makes of them. */
module Handshake {
  import opened Words
  import opened Packets
  import opened PacketHandlers
  import opened Sessions
  import opened Pool
  import opened Peer

  /** The position of the first free session. */
  function FirstFree(vs: seq<SessionView>): (i: nat)
    requires HasFree(vs)
    ensures i < |vs| && !vs[i].busy
    ensures forall k :: 0 <= k < i ==> vs[k].busy
  {
    if !vs[0].busy then 0
    else
      assert HasFree(vs[1..]) by {
        var j :| 0 <= j < |vs| && !vs[j].busy;
        assert vs[1..][j - 1] == vs[j];
      }
      var i := FirstFree(vs[1..]);
      assert forall k :: 1 <= k <= i ==> vs[k] == vs[1..][k - 1];
      1 + i
  }

  /** The packets of some datagrams, in order. */
  function PacketsOf(ds: seq<Datagram>): (ps: seq<Packet>)
    ensures |ps| == |ds| && forall i :: 0 <= i < |ds| ==> ps[i] == ds[i].packet
  {
    seq(|ds|, i requires 0 <= i < |ds| => ds[i].packet)
  }

  /** The first reply to a connection request carries the uid of the first
      free session. */
  lemma FirstReply(vs: seq<SessionView>, sender: IpAddress, port: u16)
    requires HasFree(vs)
    ensures |Replies(vs, sender, port)| > 0
    ensures Replies(vs, sender, port)[0] == Datagram(sender, port, [ACCEPT, vs[FirstFree(vs)].uid])
  {
    var f := FirstFree(vs);
    CountFreeZero(vs, f);
    RepliesCount(vs, |vs|, sender, port);
    ReplyPosition(vs, |vs|, f, sender, port);
  }

  /** The handshake: a client that is not accepted, receiving the server's
      replies to its Connect, ends up accepted exactly when the server had a
      free session, and then with the uid of the first one. The other free
      sessions the same request took stay busy, and their Accepts reach the
      client's table instead. */
  lemma HandshakeOutcome(vs: seq<SessionView>, v: PeerView, slots: map<u32, Slot<PeerView>>, client: IpAddress, port: u16, unsetType: u32)
    requires !v.accepted
    ensures var after := ClientRun(v, slots, PacketsOf(Replies(vs, client, port)), unsetType);
            && (after.accepted <==> HasFree(vs))
            && (HasFree(vs) ==> after.uid == vs[FirstFree(vs)].uid)
            && (!HasFree(vs) ==> after == v)
  {
    var ps := PacketsOf(Replies(vs, client, port));
    if HasFree(vs) {
      FirstReply(vs, client, port);
      RepliesAreAccepts(vs, |vs|, client, port);
      FirstAcceptWins(v, slots, ps, 0, unsetType);
    } else {
      CountFreeZero(vs, |vs|);
      RepliesCount(vs, |vs|, client, port);
      NoAcceptNoChange(v, slots, ps, unsetType);
    }
  }

  /** When every uid is its session's position, the uid a client adopts from
      the replies to its Connect is the index of the session admitted for it:
      the packets it sends afterwards are routed, within bounds, to its own
      session. */
  lemma HandshakeRoutesHome(vs: seq<SessionView>, v: PeerView, slots: map<u32, Slot<PeerView>>, client: IpAddress, port: u16, unsetType: u32)
    requires !v.accepted && UidsAreIndices(vs) && HasFree(vs)
    ensures var after := ClientRun(v, slots, PacketsOf(Replies(vs, client, port)), unsetType);
            && after.accepted
            && after.uid as int < |ConnectViews(vs, client)|
            && ConnectViews(vs, client)[after.uid] == Admitted(vs[after.uid], client)
            && UidsAreIndices(ConnectViews(vs, client))
  {
    HandshakeOutcome(vs, v, slots, client, port, unsetType);
    ConnectKeepsUidIndices(vs, client);
  }

  /** Two clients connecting one after the other to a pool that the first
      request exhausted: the second stays unaccepted, since nothing grows the
      pool between the requests. */
  lemma SecondClientStaysOut(vs: seq<SessionView>, a: IpAddress, b: IpAddress, port: u16,
                             v: PeerView, slots: map<u32, Slot<PeerView>>, unsetType: u32)
    requires !v.accepted
    ensures ClientRun(v, slots, PacketsOf(Replies(ConnectViews(vs, a), b, port)), unsetType) == v
  {
    SecondConnectUnanswered(vs, a, b, port);
    HandshakeOutcome(ConnectViews(vs, a), v, slots, b, port, unsetType);
  }
}
