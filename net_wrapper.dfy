/** The managed side of one native network module: the hand-off of payloads
    to and from unmanaged memory, and the split of the string the native
    module returns for a client's serial, extra data and version.

    The native module itself is not part of this model. What it does for a
    call is a parameter: whether `sendPacket` throws, and the string and
    sizes `getClientSerialAndVersion` returns. */
module Net {
  import opened Base

  type UShort = n: int | 0 <= n < 0x1_0000
  type UInt = n: int | 0 <= n < 0x1_0000_0000

  /** `String.Substring(start, length)`: fails unless the range lies inside `s`. */
  function Substring(s: string, start: int, length: int): (r: Result<string>)
    ensures r.Ok? <==> 0 <= start && 0 <= length && start + length <= |s|
    ensures r.Ok? ==> r.value == s[start..start + length]
  {
    if 0 <= start && 0 <= length && start + length <= |s| then Ok(s[start..start + length])
    else Fail(ArgumentOutOfRange)
  }

  /** `GetClientSerialExtraAndVersion`: serial, extra and version, cut from
      the native result at the sizes it reports. The version's own reported
      size is not used: the version is the rest of the string. */
  function SplitSerialExtraVersion(result: string, serialSize: UShort, extraSize: UShort): (r: Result<(string, string, string)>)
    ensures r.Ok? <==> serialSize + extraSize <= |result|
    ensures r.Fail? ==> r.error == ArgumentOutOfRange
    ensures r.Ok? ==> |r.value.0| == serialSize && |r.value.1| == extraSize
  {
    var serial := Substring(result, 0, serialSize);
    if serial.Fail? then Fail(serial.error)
    else
      var extra := Substring(result, serialSize, extraSize);
      if extra.Fail? then Fail(extra.error)
      // `Substring(serialSize + extraSize)` cannot fail once `extra` was cut
      else Ok((serial.value, extra.value, result[serialSize + extraSize..]))
  }

  /** The three parts put back together give the native string. */
  lemma SplitConcatenates(result: string, serialSize: UShort, extraSize: UShort)
    requires serialSize + extraSize <= |result|
    ensures var r := SplitSerialExtraVersion(result, serialSize, extraSize);
      r.Ok? && r.value.0 + r.value.1 + r.value.2 == result
  {
    var r := SplitSerialExtraVersion(result, serialSize, extraSize);
    assert result == result[..serialSize] + result[serialSize..serialSize + extraSize] + result[serialSize + extraSize..];
  }

  /** Splitting a serial, extra and version joined together, at their own
      lengths, gives them back. */
  lemma SplitJoinRoundTrip(serial: string, extra: string, version: string)
    requires |serial| < 0x1_0000 && |extra| < 0x1_0000
    ensures SplitSerialExtraVersion(serial + extra + version, |serial|, |extra|) == Ok((serial, extra, version))
  {
    var s := serial + extra + version;
    assert s[0..|serial|] == serial;
    assert s[|serial|..|serial| + |extra|] == extra;
    assert s[|serial| + |extra|..|serial| + |extra| + |version|] == version;
  }

  /** A call into the native `sendPacket`. */
  datatype NativeSend = NativeSend(address: UInt, packetId: Byte, payload: Bytes, payloadSize: UInt)

  /** A packet delivered to `OnPacketReceived`. */
  datatype Received = Received(address: UInt, packetId: Byte, data: Bytes)

  class NetWrapper {
    /** The native sends made, in order. */
    var sends: seq<NativeSend>
    /** Unmanaged buffers allocated and not yet freed. */
    var liveBuffers: nat
    /** Whether anything listens on `OnPacketReceived`. */
    var hasListener: bool
    /** What the listeners were handed, in order. */
    var received: seq<Received>

    constructor()
      ensures sends == [] && liveBuffers == 0 && !hasListener && received == []
    {
      sends := [];
      liveBuffers := 0;
      hasListener := false;
      received := [];
    }

    /** Subscribes the server's packet handler to `OnPacketReceived`. */
    method Listen()
      modifies this`hasListener
      ensures hasListener
    {
      hasListener := true;
    }

    /** `SendPacket(address, packetId, payload)`: copies the payload into a
        fresh unmanaged buffer, hands it to the native module and frees the
        buffer, also when the native call throws. An empty payload fails on
        `payload[0]` before anything is allocated. `nativeThrows` says how
        the native call ends. */
    method SendPayload(address: UInt, packetId: Byte, payload: Bytes, nativeThrows: bool) returns (o: Outcome)
      requires |payload| < 0x1_0000_0000
      modifies this`sends, this`liveBuffers
      ensures liveBuffers == old(liveBuffers)
      ensures payload == [] ==> o == Threw(IndexOutOfRange) && sends == old(sends)
      ensures payload != [] ==> sends == old(sends) + [NativeSend(address, packetId, payload, |payload|)]
      ensures payload != [] ==> (o == Threw(NativeFailed) <==> nativeThrows) && (o == Done <==> !nativeThrows)
    {
      if payload == [] {
        return Threw(IndexOutOfRange);
      }
      var buffer := new Byte[|payload|];
      liveBuffers := liveBuffers + 1;
      CopyInto(payload, buffer);
      sends := sends + [NativeSend(address, packetId, buffer[..], buffer.Length)];
      o := if nativeThrows then Threw(NativeFailed) else Done;
      liveBuffers := liveBuffers - 1;
    }

    /** `SendPacket(address, packet)`: the packet's encoded body under its id
        cast to a byte. */
    method SendPacket(address: UInt, packetIdCode: nat, body: Bytes, nativeThrows: bool) returns (o: Outcome)
      requires |body| < 0x1_0000_0000
      modifies this`sends, this`liveBuffers
      ensures liveBuffers == old(liveBuffers)
      ensures body != [] ==> sends == old(sends) + [NativeSend(address, ToByte(packetIdCode), body, |body|)]
      ensures body == [] ==> sends == old(sends) && o == Threw(IndexOutOfRange)
    {
      o := SendPayload(address, ToByte(packetIdCode), body, nativeThrows);
    }

    /** `PacketInterceptor`: the native module calls back with an id, the
        sender's address and `payloadSize` bytes of unmanaged memory, which
        are copied out and passed on unchanged when someone listens. */
    method PacketInterceptor(packetId: Byte, address: UInt, native: Bytes, payloadSize: UInt)
      requires payloadSize <= |native|
      modifies this`received
      ensures hasListener ==> received == old(received) + [Received(address, packetId, native[..payloadSize])]
      ensures !hasListener ==> received == old(received)
    {
      var data := new Byte[payloadSize];
      CopyInto(native[..payloadSize], data);
      if hasListener {
        received := received + [Received(address, packetId, data[..])];
      }
    }
  }

  /** `Marshal.Copy`: every byte of `source` into `target`, which has its length. */
  method CopyInto(source: Bytes, target: array<Byte>)
    requires target.Length == |source|
    modifies target
    ensures target[..] == source
  {
    var i := 0;
    while i < |source|
      invariant 0 <= i <= |source|
      invariant target[..i] == source[..i]
    {
      target[i] := source[i];
      i := i + 1;
    }
  }
}
