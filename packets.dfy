/** The datagram vocabulary: packets as first-in first-out sequences of
    unsigned fields, peer addresses, the message tags of both directions, and
    what a socket send or receive carries. */
module Packets {
  import opened Words

  /** A packet is the sequence of unsigned fields still to be read. */
  type Packet = seq<u32>

  /** An IPv4 address; a default-constructed address holds no host. */
  datatype IpAddress = NoAddress | Host(bits: u32)

  /** A datagram handed to the socket to send. */
  datatype Datagram = Datagram(peer: IpAddress, port: u16, packet: Packet)

  /** The result of one receive call: nothing arrived, or a packet and its sender. */
  datatype Received = NotReady | Got(sender: IpAddress, senderPort: u16, packet: Packet)

  /** `PTFromServer::Accept`. */
  const ACCEPT: u32 := 0
  /** `PTFromClient::Connect`. */
  const CONNECT: u32 := 0

  /** `p << x`: the field goes to the back. */
  function Write(p: Packet, x: u32): (r: Packet)
    ensures |r| == |p| + 1 && r[..|p|] == p && r[|p|] == x
  {
    p + [x]
  }

  /** `p >> x`: the front field and what remains; on an exhausted packet the
      target keeps its previous value `prior` and the packet stays empty. */
  function Read(p: Packet, prior: u32): (r: (u32, Packet))
    ensures |p| > 0 ==> [r.0] + r.1 == p
    ensures |p| == 0 ==> r == (prior, [])
  {
    if |p| == 0 then (prior, []) else (p[0], p[1..])
  }

  /** `Packet() << f0 << f1 << ...`: a fresh packet with the fields written in order. */
  function Build(fields: seq<u32>): Packet
  {
    if fields == [] then [] else Write(Build(fields[..|fields| - 1]), fields[|fields| - 1])
  }

  /** `p >> x1 >> ... >> xn`, the values read, each target starting at `prior`. */
  function ReadN(p: Packet, n: nat, prior: u32): seq<u32>
  {
    if n == 0 then [] else
      var (x, rest) := Read(p, prior);
      [x] + ReadN(rest, n - 1, prior)
  }

  /** Writing fields and reading them back yields the fields in the order written. */
  lemma {:induction false} BuildHoldsFields(fields: seq<u32>)
    ensures Build(fields) == fields
  {
    if fields != [] {
      var init := fields[..|fields| - 1];
      BuildHoldsFields(init);
      assert init + [fields[|fields| - 1]] == fields;
    }
  }

  lemma {:induction false} ReadNOfFields(fields: seq<u32>, prior: u32)
    ensures ReadN(fields, |fields|, prior) == fields
  {
    if fields != [] {
      ReadNOfFields(fields[1..], prior);
    }
  }

  /** The field order round trip: every field written is read back, in order. */
  lemma RoundTrip(fields: seq<u32>, prior: u32)
    ensures ReadN(Build(fields), |fields|, prior) == fields
  {
    BuildHoldsFields(fields);
    ReadNOfFields(fields, prior);
  }

  /** Reading past the fields written yields the targets' previous values. */
  lemma {:induction false} ReadPastEnd(fields: seq<u32>, extra: nat, prior: u32)
    ensures ReadN(Build(fields), |fields| + extra, prior) == fields + seq(extra, _ => prior)
  {
    BuildHoldsFields(fields);
    ReadPastEndOf(fields, extra, prior);
  }

  lemma {:induction false} ReadPastEndOf(p: Packet, extra: nat, prior: u32)
    ensures ReadN(p, |p| + extra, prior) == p + seq(extra, _ => prior)
    decreases |p| + extra
  {
    if p != [] {
      ReadPastEndOf(p[1..], extra, prior);
      assert [p[0]] + (p[1..] + seq(extra, _ => prior)) == p + seq(extra, _ => prior);
    } else if extra > 0 {
      ReadPastEndOf([], extra - 1, prior);
      assert [prior] + seq(extra - 1, _ => prior) == seq(extra, _ => prior);
    }
  }
}
