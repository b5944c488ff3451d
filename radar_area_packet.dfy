/** The Lua element RPC packet that sets a radar area's colour. Its body is
    modelled as the three writes it makes to the packet builder; the byte
    layout of each write belongs to the builder, which is not part of this
    model. */
module RadarArea {
  import opened Base
  import Packets

  /** The RPC functions of a Lua element RPC packet; only the one this packet
      uses is named. */
  datatype ElementRpcFunction = SetRadarAreaColor | OtherRpcFunction(code: nat)

  datatype PacketReliability = Unreliable | UnreliableSequenced | Reliable | ReliableOrdered | ReliableSequenced

  datatype PacketPriority = Low | Medium | High

  /** One write to the packet builder. */
  datatype BuilderItem =
    | FunctionByte(rpc: ElementRpcFunction)
    | ElementIdItem(id: ElementId)
    | ColorItem(color: Color, withAlpha: bool)

  /** `SetRadarAreaColorPacket`: the element id and colour it was built with,
      neither of which changes afterwards. */
  datatype SetRadarAreaColorPacket = SetRadarAreaColorPacket(elementId: ElementId, color: Color)
  {
    function PacketId(): Packets.PacketId
    {
      Packets.LuaElementRpc
    }

    function Reliability(): PacketReliability
    {
      ReliableSequenced
    }

    function Priority(): PacketPriority
    {
      High
    }

    /** Decoding this packet is not supported. */
    function Read(bytes: Bytes): (o: Outcome)
      ensures o.Threw? && o.error == NotSupported
    {
      Threw(NotSupported)
    }

    /** The function byte, then the element id, then the colour with alpha. */
    function Write(): (items: seq<BuilderItem>)
      ensures |items| == 3 && items[0] == FunctionByte(SetRadarAreaColor)
    {
      [FunctionByte(SetRadarAreaColor), ElementIdItem(elementId), ColorItem(color, true)]
    }
  }

  /** Reads a written body back: the function byte must name this RPC and the
      colour must carry its alpha. */
  function ParseSetRadarAreaColor(items: seq<BuilderItem>): Option<SetRadarAreaColorPacket>
  {
    if |items| == 3 && items[0] == FunctionByte(SetRadarAreaColor) && items[1].ElementIdItem?
      && items[2].ColorItem? && items[2].withAlpha
    then Some(SetRadarAreaColorPacket(items[1].id, items[2].color))
    else None
  }

  /** The body carries the element id and the whole colour, alpha included:
      reading it back gives the packet it was written from. */
  lemma WriteRoundTrip(p: SetRadarAreaColorPacket)
    ensures ParseSetRadarAreaColor(p.Write()) == Some(p)
  {
  }

  /** Packets that differ in element id or colour write different bodies. */
  lemma WriteInjective(p: SetRadarAreaColorPacket, q: SetRadarAreaColorPacket)
    ensures p.Write() == q.Write() <==> p == q
  {
    if p.Write() == q.Write() {
      WriteRoundTrip(p);
      WriteRoundTrip(q);
    }
  }
}
