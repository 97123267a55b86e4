/** The dispatch table (`PacketHandler<T>`): a map from an unsigned message
    tag to a callback that receives the caller and the rest of the packet. */
module PacketHandlers {
  import opened Words
  import opened Packets

  /** What a callback does when called: it returns, or it throws. */
  datatype Outcome = Ok | Fail

  /** A callback sees its caller (as a value) and the remaining packet. */
  type Callback<!T> = (T, Packet) -> Outcome

  /** A `std::function` slot of the map: empty, or bound to a callback. */
  datatype Slot<!T> = Empty | Bound(f: Callback<T>)

  /** What `handle` did: found no entry, ran a callback that returned, or
      caught an exception (a throwing callback, or calling an empty slot). */
  datatype Report = NoHandler | Handled | Caught

  /** `handle(tag, caller, packet)`: look the tag up and call what is found.
      A missing tag calls nothing; every failure is caught, so a report is
      always returned. */
  function Dispatch<T>(slots: map<u32, Slot<T>>, tag: u32, caller: T, p: Packet): (r: Report)
    ensures r == NoHandler <==> tag !in slots
    ensures r == Handled <==> tag in slots && slots[tag].Bound? && slots[tag].f(caller, p) == Ok
    ensures r == Caught <==> tag in slots && (slots[tag].Empty? || slots[tag].f(caller, p).Fail?)
  {
    if tag !in slots then NoHandler
    else match slots[tag]
      case Empty => Caught
      case Bound(f) => if f(caller, p) == Ok then Handled else Caught
  }

  /** The outcome a callback gives, as `handle` reports it. */
  function Reported(o: Outcome): Report
  {
    if o == Ok then Handled else Caught
  }

  class PacketHandler<T> {
    var slots: map<u32, Slot<T>>

    constructor ()
      ensures slots == map[]
    {
      slots := map[];
    }

    /** `operator[](tag)` used for reading: a missing tag gets an empty slot. */
    method Index(tag: u32)
      modifies this
      ensures slots == if tag in old(slots) then old(slots) else old(slots)[tag := Empty]
    {
      if tag !in slots {
        slots := slots[tag := Empty];
      }
    }

    /** `operator[](tag) = f`: registers `f` for `tag`, replacing any earlier entry. */
    method Assign(tag: u32, f: Callback<T>)
      modifies this
      ensures slots == old(slots)[tag := Bound(f)]
    {
      Index(tag);
      slots := slots[tag := Bound(f)];
    }

    function Handle(tag: u32, caller: T, p: Packet): Report
      reads this
    {
      Dispatch(slots, tag, caller, p)
    }
  }

  /** After `table[tag] = f`, dispatching `tag` runs exactly `f`, and every
      other tag is dispatched as before. */
  lemma DispatchAfterAssign<T>(slots: map<u32, Slot<T>>, tag: u32, f: Callback<T>, other: u32, caller: T, p: Packet)
    ensures Dispatch(slots[tag := Bound(f)], tag, caller, p) == Reported(f(caller, p))
    ensures other != tag ==> Dispatch(slots[tag := Bound(f)], other, caller, p) == Dispatch(slots, other, caller, p)
  {
  }

  /** Reading `table[tag]` for a missing tag leaves an empty slot behind, and
      dispatching that tag then throws inside `handle` and is caught. */
  lemma DispatchAfterIndex<T>(slots: map<u32, Slot<T>>, tag: u32, caller: T, p: Packet)
    ensures tag !in slots ==> Dispatch(slots, tag, caller, p) == NoHandler
    ensures tag !in slots ==> Dispatch(slots[tag := Empty], tag, caller, p) == Caught
  {
  }
}
