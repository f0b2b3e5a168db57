/** Packets to and from the controller: the fabric encapsulation written and read
    by the agent (src/ind_fwd.c, src/p4ofagent.c, src/cpu_packet.c), and parsed and
    terminated by the switch (p4src/openflow.p4). */
module Fabric {
  import opened OpenFlow

  type Bytes = seq<bv8>

  function High(v: bv16): bv8 { (v >> 8) as bv8 }

  function Low(v: bv16): bv8 { (v & 0xff) as bv8 }

  function Word(high: bv8, low: bv8): bv16 {
    ((high as bv16) << 8) | (low as bv16)
  }

  /** A 16-bit value in network byte order. */
  function Wire(v: bv16): Bytes {
    [High(v), Low(v)]
  }

  /** A 16-bit value in the memory of a host, and back. */
  function Stored(bigEndian: bool, v: bv16): Bytes {
    if bigEndian then [High(v), Low(v)] else [Low(v), High(v)]
  }

  function Loaded(bigEndian: bool, b0: bv8, b1: bv8): bv16 {
    if bigEndian then Word(b0, b1) else Word(b1, b0)
  }

  /** htons, which is also ntohs. */
  function Htons(bigEndian: bool, v: bv16): bv16 {
    if bigEndian then v else (v << 8) | (v >> 8)
  }

  lemma WordParts(v: bv16)
    ensures Word(High(v), Low(v)) == v
  {
  }

  lemma PartsOfWord(high: bv8, low: bv8)
    ensures High(Word(high, low)) == high && Low(Word(high, low)) == low
  {
  }

  lemma PartsOfSwapped(v: bv16)
    ensures High((v << 8) | (v >> 8)) == Low(v) && Low((v << 8) | (v >> 8)) == High(v)
  {
  }

  /** On a host of either byte order, swapping and storing writes network order. */
  lemma StoredSwapped(bigEndian: bool, v: bv16)
    ensures Stored(bigEndian, Htons(bigEndian, v)) == Wire(v)
  {
    PartsOfSwapped(v);
  }

  /** On a host of either byte order, loading and swapping reads network order. */
  lemma LoadedSwapped(bigEndian: bool, high: bv8, low: bv8)
    ensures Htons(bigEndian, Loaded(bigEndian, high, low)) == Word(high, low)
  {
    if !bigEndian {
      PartsOfWord(low, high);
      PartsOfSwapped(Word(low, high));
      WordParts((Word(low, high) << 8) | (Word(low, high) >> 8));
    }
  }

  /** Loading and storing copies. */
  lemma StoredLoaded(bigEndian: bool, b0: bv8, b1: bv8)
    ensures Stored(bigEndian, Loaded(bigEndian, b0, b1)) == [b0, b1]
  {
    PartsOfWord(b0, b1);
    PartsOfWord(b1, b0);
  }

  /** The fabric header on the wire. */
  function FabricWire(w0: bv8, w1: bv8, w2: bv8, dstPortOrGroup: bv16): Bytes {
    [w0, w1, w2] + Wire(dstPortOrGroup)
  }

  /** The CPU header on the wire. */
  function CpuWire(w0: bv8, ingressPort: bv16, ingressIfindex: bv16, ingressBd: bv16, reasonCode: bv16,
          mcastGrp: bv16): Bytes {
    [w0] + Wire(ingressPort) + Wire(ingressIfindex) + Wire(ingressBd) + Wire(reasonCode) + Wire(mcastGrp)
  }

  // ----- the headers, rewritten in place by the swaps -----

  class FabricHeader {
    var w0: bv8
    var w1: bv8
    var w2: bv8
    var w3: bv16  // dstPortOrGroup

    constructor ()
      ensures w0 == 0 && w1 == 0 && w2 == 0 && w3 == 0
    {
      w0, w1, w2, w3 := 0, 0, 0, 0;
    }

    function Memory(bigEndian: bool): Bytes
      reads this
    {
      [w0, w1, w2] + Stored(bigEndian, w3)
    }

    /** cpu_packet_swap_fabric; both directions are the same swap. */
    method Swap(bigEndian: bool)
      modifies this`w3
      ensures w3 == Htons(bigEndian, old(w3))
      ensures Memory(bigEndian) == FabricWire(w0, w1, w2, old(w3))
    {
      StoredSwapped(bigEndian, w3);
      w3 := Htons(bigEndian, w3);
    }
  }

  class CpuHeader {
    var w0: bv8
    var w1: bv16  // ingressPort
    var w2: bv16  // ingressIfindex
    var w3: bv16  // ingressBd
    var w4: bv16  // reasonCode
    var w5: bv16  // mcastGrp

    constructor ()
      ensures w0 == 0 && w1 == 0 && w2 == 0 && w3 == 0 && w4 == 0 && w5 == 0
    {
      w0, w1, w2, w3, w4, w5 := 0, 0, 0, 0, 0, 0;
    }

    function Memory(bigEndian: bool): Bytes
      reads this
    {
      [w0] + Stored(bigEndian, w1) + Stored(bigEndian, w2) + Stored(bigEndian, w3)
      + Stored(bigEndian, w4) + Stored(bigEndian, w5)
    }

    method Load(bigEndian: bool, bytes: Bytes)
      requires |bytes| == 11
      modifies this
      ensures w0 == bytes[0] && w1 == Loaded(bigEndian, bytes[1], bytes[2])
      ensures w2 == Loaded(bigEndian, bytes[3], bytes[4]) && w3 == Loaded(bigEndian, bytes[5], bytes[6])
      ensures w4 == Loaded(bigEndian, bytes[7], bytes[8]) && w5 == Loaded(bigEndian, bytes[9], bytes[10])
    {
      w0 := bytes[0];
      w1 := Loaded(bigEndian, bytes[1], bytes[2]);
      w2 := Loaded(bigEndian, bytes[3], bytes[4]);
      w3 := Loaded(bigEndian, bytes[5], bytes[6]);
      w4 := Loaded(bigEndian, bytes[7], bytes[8]);
      w5 := Loaded(bigEndian, bytes[9], bytes[10]);
    }

    method LoadSwapped(bigEndian: bool, bytes: Bytes)
      requires |bytes| == 11
      modifies this
      ensures w1 == Word(bytes[1], bytes[2]) && w4 == Word(bytes[7], bytes[8])
    {
      Load(bigEndian, bytes);
      LoadedSwapped(bigEndian, bytes[1], bytes[2]);
      LoadedSwapped(bigEndian, bytes[7], bytes[8]);
      Swap(bigEndian);
    }

    /** cpu_packet_swap_cpu; both directions are the same swap. */
    method Swap(bigEndian: bool)
      modifies this
      ensures w0 == old(w0)
      ensures w1 == Htons(bigEndian, old(w1)) && w2 == Htons(bigEndian, old(w2)) && w3 == Htons(bigEndian, old(w3))
      ensures w4 == Htons(bigEndian, old(w4)) && w5 == Htons(bigEndian, old(w5))
      ensures Memory(bigEndian) == CpuWire(w0, old(w1), old(w2), old(w3), old(w4), old(w5))
    {
      StoredSwapped(bigEndian, w1);
      StoredSwapped(bigEndian, w2);
      StoredSwapped(bigEndian, w3);
      StoredSwapped(bigEndian, w4);
      StoredSwapped(bigEndian, w5);
      w1 := Htons(bigEndian, w1);
      w2 := Htons(bigEndian, w2);
      w3 := Htons(bigEndian, w3);
      w4 := Htons(bigEndian, w4);
      w5 := Htons(bigEndian, w5);
    }
  }

  // ----- what goes over the wire -----

  const SIZEOF_BUF := 2000

  function Zeros(n: nat): Bytes {
    seq(n, _ => 0)
  }

  /** The ports of a packet-out: where its first action sends it, and the multicast group for a flood. */
  datatype Destination = Destination(port: bv16, mcastGrp: bv16) | BadAction

  function DestinationOf(actions: seq<Action>, flood: bv32): Destination {
    if actions == [] then Destination(0, 0)
    else if !actions[0].Output? then BadAction
    else if actions[0].port == OFPP_FLOOD || actions[0].port == OFPP_ALL then Destination(0, Low16(flood))
    else Destination(Low16(actions[0].port), 0)
  }

  function Low16(v: bv32): bv16 {
    (v & 0xffff) as bv16
  }

  /** A frame with the two headers behind its MAC addresses, under the fabric's own etherType. */
  function Encapsulate(frame: Bytes, fabric: Bytes, cpu: Bytes): Bytes
    requires |frame| >= 14
  {
    frame[..12] + [0x90, 0] + fabric + cpu + frame[12..14] + frame[14..]
  }

  /** A frame as a packet-out puts it on the CPU port. */
  function EncodeOut(frame: Bytes, inPort: bv32, d: Destination): Bytes
    requires |frame| >= 14 && d.Destination?
  {
    var p := Low16(inPort);
    Encapsulate(frame, FabricWire(0xa0, 0, 0, d.port), CpuWire(0, p, p + 1, 0, 0, d.mcastGrp))
  }

  /** What a packet-in hands to the controller. */
  datatype PacketIn = PacketIn(data: Bytes, totalLen: nat, reason: bv8, tableId: bv8, inPort: bv32)

  /** A message read into the zeroed input buffer. */
  function InBuf(message: Bytes): Bytes
    requires |message| <= SIZEOF_BUF
  {
    message + Zeros(SIZEOF_BUF - |message|)
  }

  /** The data of a packet-in: MAC addresses, payload type, then as many bytes from offset 32 as the
      received length exceeds the three headers. */
  function OutBuf(message: Bytes): Bytes
    requires 18 <= |message| <= SIZEOF_BUF - 14
  {
    var b := InBuf(message);
    b[..12] + b[30..32] + b[32..|message| + 14] + Zeros(SIZEOF_BUF - |message| + 4)
  }

  /** The packet-in for a buffer of received length, and two fields of its CPU header. */
  function Interpret(data: Bytes, ingressPort: bv16, reasonCode: bv16): PacketIn
    requires |data| >= 18
  {
    PacketIn(data, |data| - 18, High(reasonCode), Low(reasonCode), ingressPort as bv32)
  }

  /** What the agent makes of a message: the CPU header starts at offset 19. */
  function DecodeIn(message: Bytes): PacketIn
    requires 18 <= |message| <= SIZEOF_BUF - 14
  {
    var b := InBuf(message);
    var ingressPort, reasonCode := Word(b[20], b[21]), Word(b[26], b[27]);
    Interpret(OutBuf(message)[..|message|], ingressPort, reasonCode)
  }

  /** The agent's buffers. */
  class Buffers {
    const bigEndian: bool
    const inBuf: array<bv8>
    const outBuf: array<bv8>

    ghost predicate Valid() {
      inBuf.Length == SIZEOF_BUF && outBuf.Length == SIZEOF_BUF && inBuf != outBuf
    }

    constructor (bigEndian: bool)
      ensures Valid() && fresh(inBuf) && fresh(outBuf) && this.bigEndian == bigEndian
    {
      this.bigEndian := bigEndian;
      inBuf := new bv8[SIZEOF_BUF];
      outBuf := new bv8[SIZEOF_BUF];
    }

    static method Memset(buf: array<bv8>)
      modifies buf
      ensures buf[..] == Zeros(buf.Length)
    {
      forall i | 0 <= i < buf.Length {
        buf[i] := 0;
      }
    }

    static method Memcpy(buf: array<bv8>, at: nat, src: Bytes)
      requires at + |src| <= buf.Length
      modifies buf
      ensures buf[..at] == old(buf[..at])
      ensures buf[at..at + |src|] == src
      ensures buf[at + |src|..] == old(buf[at + |src|..])
      ensures buf[..at + |src|] == old(buf[..at]) + src
    {
      forall i | 0 <= i < |src| {
        buf[at + i] := src[i];
      }
    }

    /** What the loop over the actions stores in the headers; it leaves after the first action. */
    method ReadActions(actions: seq<Action>, flood: bv32) returns (d: Destination)
      ensures d == DestinationOf(actions, flood)
    {
      var dstPortOrGroup: bv16, mcastGrp: bv16 := 0, 0;
      if actions != [] {
        match actions[0]
        case Output(port) =>
          if port == OFPP_FLOOD || port == OFPP_ALL {
            mcastGrp := Low16(flood);
          } else {
            dstPortOrGroup := Low16(port);
          }
        case _ =>
          return BadAction;
      }
      d := Destination(dstPortOrGroup, mcastGrp);
    }

    method MakeFabricHeader(dstPortOrGroup: bv16) returns (fabricHeader: FabricHeader)
      ensures fabricHeader.Memory(bigEndian) == FabricWire(0xa0, 0, 0, dstPortOrGroup)
    {
      fabricHeader := new FabricHeader();
      fabricHeader.w0 := 0xa0;
      fabricHeader.w3 := dstPortOrGroup;
      fabricHeader.Swap(bigEndian);
    }

    method MakeCpuHeader(ingressPort: bv16, mcastGrp: bv16) returns (cpuHeader: CpuHeader)
      ensures cpuHeader.Memory(bigEndian) == CpuWire(0, ingressPort, ingressPort + 1, 0, 0, mcastGrp)
    {
      cpuHeader := new CpuHeader();
      cpuHeader.w1 := ingressPort;
      cpuHeader.w2 := cpuHeader.w1 + 1;
      cpuHeader.w5 := mcastGrp;
      cpuHeader.Swap(bigEndian);
    }

    /** The fabric and CPU headers of a packet-out, swapped for the wire. */
    method MakeHeaders(ingressPort: bv16, dstPortOrGroup: bv16, mcastGrp: bv16)
      returns (fabricHeader: FabricHeader, cpuHeader: CpuHeader)
      ensures fabricHeader.Memory(bigEndian) == FabricWire(0xa0, 0, 0, dstPortOrGroup)
      ensures cpuHeader.Memory(bigEndian) == CpuWire(0, ingressPort, ingressPort + 1, 0, 0, mcastGrp)
    {
      fabricHeader := MakeFabricHeader(dstPortOrGroup);
      cpuHeader := MakeCpuHeader(ingressPort, mcastGrp);
    }

    /** Fills the output buffer: MAC addresses, fabric etherType, headers, payload. */
    method Fill(data: Bytes, fabric: Bytes, cpu: Bytes, payload: Bytes) returns (cursor: nat)
      requires Valid() && 14 <= |data| <= SIZEOF_BUF - 18
      requires |fabric| == 5 && |cpu| == 11 && payload == data[12..14]
      modifies outBuf
      ensures cursor == 32 && outBuf[..|data| + cursor - 14] == Encapsulate(data, fabric, cpu)
    {
      cursor := 12;
      Memset(outBuf);
      Memcpy(outBuf, 0, data[..cursor]);
      assert outBuf[13] == 0 by {
        assert outBuf[12..][1] == 0;
      }
      outBuf[cursor] := 0x90;
      cursor := cursor + 2;
      assert outBuf[..12] == data[..12];
      assert outBuf[..cursor] == data[..12] + [0x90, 0];
      Memcpy(outBuf, cursor, fabric);
      cursor := cursor + 5;
      Memcpy(outBuf, cursor, cpu);
      cursor := cursor + 11;
      Memcpy(outBuf, cursor, payload);
      cursor := cursor + 2;
      Memcpy(outBuf, cursor, data[14..]);
    }

    method IndigoFwdPacketOut(data: Bytes, inPort: bv32, actions: seq<Action>, flood: bv32)
      returns (ok: bool, sent: Bytes)
      requires Valid() && 14 <= |data| <= SIZEOF_BUF - 18
      modifies outBuf
      ensures var d := DestinationOf(actions, flood);
              if d.BadAction? then !ok else ok && sent == EncodeOut(data, inPort, d)
      ensures ok <==> actions == [] || actions[0].Output?
    {
      var payloadHeader := CopyPayloadHeader(data[12..14]);
      var d := ReadActions(actions, flood);
      if d.BadAction? {
        return false, [];
      }
      var fabricHeader, cpuHeader := MakeHeaders(Low16(inPort), d.port, d.mcastGrp);
      var cursor := Fill(data, fabricHeader.Memory(bigEndian), cpuHeader.Memory(bigEndian), payloadHeader);
      ok, sent := true, outBuf[..|data| + cursor - 14];
    }

    /** The payload header goes through a 16-bit field of the host and back. */
    method CopyPayloadHeader(bytes: Bytes) returns (payload: Bytes)
      requires |bytes| == 2
      ensures payload == bytes
    {
      var payloadHeader := Loaded(bigEndian, bytes[0], bytes[1]);
      StoredLoaded(bigEndian, bytes[0], bytes[1]);
      payload := Stored(bigEndian, payloadHeader);
    }

    /** The ingress port and reason code of a CPU header as received. */
    method ReadCpuHeader(bytes: Bytes) returns (ingressPort: bv16, reasonCode: bv16)
      requires |bytes| == 11
      ensures ingressPort == Word(bytes[1], bytes[2]) && reasonCode == Word(bytes[7], bytes[8])
    {
      var cpuHeader := new CpuHeader();
      cpuHeader.LoadSwapped(bigEndian, bytes);
      ingressPort, reasonCode := cpuHeader.w1, cpuHeader.w4;
    }

    /** Copies a received message to the output buffer without its fabric headers. */
    method Strip(ret: nat, payload: Bytes)
      requires Valid() && 18 <= ret <= SIZEOF_BUF - 14 && payload == inBuf[30..32]
      modifies outBuf
      ensures outBuf[..] == inBuf[..12] + inBuf[30..32] + inBuf[32..ret + 14] + Zeros(SIZEOF_BUF - ret + 4)
    {
      var cursor := 12;
      Memset(outBuf);
      Memcpy(outBuf, 0, inBuf[..cursor]);
      assert outBuf[cursor..] == Zeros(SIZEOF_BUF - cursor);
      Memcpy(outBuf, cursor, payload);
      cursor := cursor + 2;
      assert outBuf[cursor..] == Zeros(SIZEOF_BUF - cursor);
      assert outBuf[ret - 4..] == Zeros(SIZEOF_BUF - ret + 4);
      Memcpy(outBuf, cursor, inBuf[cursor + 18..cursor + ret]);
      assert outBuf[..] == outBuf[..ret - 4] + outBuf[ret - 4..];
    }

    /** Clears the input buffer and reads a message into it. */
    method Receive(message: Bytes)
      requires Valid() && |message| <= SIZEOF_BUF
      modifies inBuf
      ensures inBuf[..] == InBuf(message)
    {
      Memset(inBuf);
      Memcpy(inBuf, 0, message);
    }

    /** `message` is what the read returned. Outside the bounds required, the C copies read or write
        past a buffer, or are given a negative length. */
    method PacketInHandler(message: Bytes) returns (p: PacketIn)
      requires Valid() && 18 <= |message| <= SIZEOF_BUF - 14
      modifies inBuf, outBuf
      ensures p == DecodeIn(message)
    {
      var ret := |message|;
      Receive(message);
      var cursor := 14 + 5;
      var ingressPort, reasonCode := ReadCpuHeader(inBuf[cursor..cursor + 11]);
      cursor := cursor + 11;
      var payloadHeader := CopyPayloadHeader(inBuf[cursor..cursor + 2]);
      Strip(ret, payloadHeader);
      p := Interpret(outBuf[..ret], ingressPort, reasonCode);
    }
  }

  // ----- the switch's side of the CPU port -----

  /** A frame as the switch parses it: the fabric headers, if any, between MAC addresses and payload. */
  datatype Parsed =
    | Short
    | Plain(frame: Bytes)
    | Multicast(mac: Bytes, fabric: Bytes, multicast: Bytes, etherType: Bytes, rest: Bytes)
    | Cpu(mac: Bytes, fabric: Bytes, cpu: Bytes, etherType: Bytes, rest: Bytes)

  /** The top three bits of the first byte. */
  function PacketType(w0: bv8): bv8 {
    w0 >> 5
  }

  const FABRIC_HEADER_TYPE_MULTICAST: bv8 := 2
  const FABRIC_HEADER_TYPE_CPU: bv8 := 5

  /** Ethernet, then, under etherType 0x9000, parse_fabric_header and what it selects. */
  function Parse(b: Bytes): Parsed {
    if |b| < 14 then Short
    else if b[12..14] != [0x90, 0] then Plain(b)
    else if |b| < 19 then Short
    else if PacketType(b[14]) == FABRIC_HEADER_TYPE_MULTICAST then
      if |b| < 28 then Short else Multicast(b[..12], b[14..19], b[19..26], b[26..28], b[28..])
    else if PacketType(b[14]) == FABRIC_HEADER_TYPE_CPU then
      if |b| < 32 then Short else Cpu(b[..12], b[14..19], b[19..30], b[30..32], b[32..])
    else Plain(b)
  }

  datatype Terminated = Terminated(egressPort: bv16, frame: Bytes)

  /** terminate_cpu_packet: the fabric's port, the payload's etherType, and the fabric headers gone. */
  function TerminateCpu(p: Parsed): Terminated
    requires p.Cpu? && |p.fabric| == 5
  {
    Terminated(Word(p.fabric[3], p.fabric[4]), p.mac + p.etherType + p.rest)
  }

  /** The layout both ends agree on. */
  lemma EncapsulatedLayout(frame: Bytes, fabric: Bytes, cpu: Bytes)
    requires |frame| >= 14 && |fabric| == 5 && |cpu| == 11
    ensures var b := Encapsulate(frame, fabric, cpu);
            && |b| == |frame| + 18
            && b[..12] == frame[..12] && b[12..14] == [0x90, 0] && b[14..19] == fabric && b[19..30] == cpu
            && b[30..32] == frame[12..14] && b[32..] == frame[14..]
  {
  }

  lemma ParsesAsCpu(frame: Bytes, fabric: Bytes, cpu: Bytes)
    requires |frame| >= 14 && |fabric| == 5 && |cpu| == 11 && fabric[0] == 0xa0
    ensures Parse(Encapsulate(frame, fabric, cpu)) == CpuPacket(frame, fabric, cpu)
  {
    var b := Encapsulate(frame, fabric, cpu);
    EncapsulatedLayout(frame, fabric, cpu);
    assert b[14] == b[14..19][0];
    assert PacketType(0xa0) == FABRIC_HEADER_TYPE_CPU;
  }

  lemma FrameParts(frame: Bytes)
    requires |frame| >= 14
    ensures frame[..12] + frame[12..14] + frame[14..] == frame
  {
  }

  lemma LowHalf(port: bv32)
    ensures Low16(port) as bv32 == port <==> port < 0x1_0000
  {
  }

  lemma PortOnTheWire(port: bv32)
    ensures var f := FabricWire(0xa0, 0, 0, Low16(port));
            && |f| == 5 && f[0] == 0xa0
            && (Word(f[3], f[4]) as bv32 == port <==> port < 0x1_0000)
  {
    WordParts(Low16(port));
    LowHalf(port);
  }

  /** The packet the switch makes of an encapsulated frame. */
  function CpuPacket(frame: Bytes, fabric: Bytes, cpu: Bytes): Parsed
    requires |frame| >= 14
  {
    Cpu(frame[..12], fabric, cpu, frame[12..14], frame[14..])
  }

  lemma TerminatesAsFrame(frame: Bytes, fabric: Bytes, cpu: Bytes)
    requires |frame| >= 14 && |fabric| == 5
    ensures TerminateCpu(CpuPacket(frame, fabric, cpu)).egressPort == Word(fabric[3], fabric[4])
    ensures TerminateCpu(CpuPacket(frame, fabric, cpu)).frame == frame
  {
    FrameParts(frame);
  }

  /** What a packet-out sends to port p the switch takes for a CPU packet, 18 bytes longer, and
      terminates as the original frame; it goes to port p exactly when p is below 2^16. */
  lemma PacketOutRoundTrip(frame: Bytes, inPort: bv32, actions: seq<Action>, flood: bv32)
    requires |frame| >= 14
    requires actions != [] && actions[0].Output? && actions[0].port != OFPP_FLOOD && actions[0].port != OFPP_ALL
    ensures DestinationOf(actions, flood).Destination?
    ensures var sent := EncodeOut(frame, inPort, DestinationOf(actions, flood));
            && |sent| == |frame| + 18
            && Parse(sent).Cpu? && |Parse(sent).fabric| == 5
            && TerminateCpu(Parse(sent)).frame == frame
            && (TerminateCpu(Parse(sent)).egressPort as bv32 == actions[0].port <==> actions[0].port < 0x1_0000)
  {
    var fabric := FabricWire(0xa0, 0, 0, Low16(actions[0].port));
    var cpu := CpuWire(0, Low16(inPort), Low16(inPort) + 1, 0, 0, 0);
    PortOnTheWire(actions[0].port);
    EncapsulatedLayout(frame, fabric, cpu);
    ParsesAsCpu(frame, fabric, cpu);
    TerminatesAsFrame(frame, fabric, cpu);
  }

  // ----- packets to the controller -----

  /** openflow_miss packs the reason and the table id into the 16-bit reason code. */
  function MissReason(reason: bv8, tableId: bv8): bv16 {
    ((reason as bv16) << 8) | (tableId as bv16)
  }

  lemma ReasonPacking(reason: bv8, tableId: bv8)
    ensures High(MissReason(reason, tableId)) == reason && Low(MissReason(reason, tableId)) == tableId
  {
  }

  lemma InBufPrefix(message: Bytes)
    requires |message| <= SIZEOF_BUF
    ensures forall i :: 0 <= i < |message| ==> InBuf(message)[i] == message[i]
    ensures forall i :: |message| <= i < SIZEOF_BUF ==> InBuf(message)[i] == 0
  {
  }

  /** From 32 bytes on, the data handed up is the message without its fabric headers, and 18 zeros:
      the copy takes 14 bytes too many from a buffer that was zeroed. */
  lemma OutBufIsFrame(message: Bytes)
    requires 32 <= |message| <= SIZEOF_BUF - 14
    ensures OutBuf(message)[..|message|] == message[..12] + message[30..32] + message[32..] + Zeros(18)
  {
    InBufPrefix(message);
    var b := InBuf(message);
    assert b[..12] == message[..12] && b[30..32] == message[30..32];
    assert b[32..|message| + 14] == message[32..] + Zeros(14);
  }

  lemma CpuWireFields(w0: bv8, ingressPort: bv16, ifindex: bv16, bd: bv16, code: bv16, mcastGrp: bv16)
    ensures var cpu := CpuWire(w0, ingressPort, ifindex, bd, code, mcastGrp);
            |cpu| == 11 && Word(cpu[1], cpu[2]) == ingressPort && Word(cpu[7], cpu[8]) == code
  {
    WordParts(ingressPort);
    WordParts(code);
  }

  /** What the agent makes of an encapsulated frame. */
  lemma DecodeEncapsulated(frame: Bytes, fabric: Bytes, cpu: Bytes)
    requires 14 <= |frame| <= SIZEOF_BUF - 32 && |fabric| == 5 && |cpu| == 11
    ensures var b := Encapsulate(frame, fabric, cpu);
            && 18 <= |b| <= SIZEOF_BUF - 14
            && DecodeIn(b) == Interpret(frame + Zeros(18), Word(cpu[1], cpu[2]), Word(cpu[7], cpu[8]))
  {
    var b := Encapsulate(frame, fabric, cpu);
    EncapsulatedLayout(frame, fabric, cpu);
    OutBufIsFrame(b);
    FrameParts(frame);
    InBufPrefix(b);
    assert b[19..30][1] == b[20] && b[19..30][2] == b[21] && b[19..30][7] == b[26] && b[19..30][8] == b[27];
  }

  /** Packet-in recovery: the first total_len bytes handed up are the frame that was encapsulated, the
      other 18 are zero, and the port, reason and table are those of the CPU header. */
  lemma PacketInRecovers(frame: Bytes, fabric: Bytes, w0: bv8, ingressPort: bv16, ifindex: bv16, bd: bv16,
          reason: bv8, tableId: bv8, mcastGrp: bv16)
    requires 14 <= |frame| <= SIZEOF_BUF - 32 && |fabric| == 5
    ensures var cpu := CpuWire(w0, ingressPort, ifindex, bd, MissReason(reason, tableId), mcastGrp);
            var p := DecodeIn(Encapsulate(frame, fabric, cpu));
            && p.totalLen == |frame| && |p.data| == |frame| + 18
            && p.data[..p.totalLen] == frame && p.data[p.totalLen..] == Zeros(18)
            && p.inPort == ingressPort as bv32 && p.reason == reason && p.tableId == tableId
  {
    var code := MissReason(reason, tableId);
    CpuWireFields(w0, ingressPort, ifindex, bd, code, mcastGrp);
    DecodeEncapsulated(frame, fabric, CpuWire(w0, ingressPort, ifindex, bd, code, mcastGrp));
    ReasonPacking(reason, tableId);
  }

  /** Up and back: a frame taken to the controller and sent back out to a port reaches that port as it
      was, for every frame that both buffers admit. */
  lemma UpAndBack(frame: Bytes, fabric: Bytes, cpu: Bytes, inPort: bv32, port: bv32, flood: bv32)
    requires 14 <= |frame| <= SIZEOF_BUF - 32 && |fabric| == 5 && |cpu| == 11
    requires port < 0x1_0000
    ensures var up := DecodeIn(Encapsulate(frame, fabric, cpu));
            var d := DestinationOf([Output(port)], flood);
            && up.totalLen == |frame| <= |up.data| && d.Destination?
            && var back := Parse(EncodeOut(up.data[..up.totalLen], inPort, d));
               && back.Cpu? && |back.fabric| == 5
               && TerminateCpu(back).egressPort as bv32 == port && TerminateCpu(back).frame == frame
  {
    DecodeEncapsulated(frame, fabric, cpu);
    PacketOutRoundTrip(frame, inPort, [Output(port)], flood);
  }

  // ----- byte by byte -----

  /** Words in numbers: the high byte counts 256-fold. */
  lemma WordsInNumbers(high: bv8, low: bv8, v: bv16)
    ensures Word(high, low) == 256 * (high as bv16) + (low as bv16)
    ensures Wire(v) == [(v / 256) as bv8, (v % 256) as bv8]
    ensures Stored(true, v) == [(v / 256) as bv8, (v % 256) as bv8]
    ensures Stored(false, v) == [(v % 256) as bv8, (v / 256) as bv8]
    ensures MissReason(high, low) == 256 * (high as bv16) + (low as bv16)
  {
    HighInNumbers(v);
    WordInNumbers(high, low);
  }

  lemma HighInNumbers(v: bv16)
    ensures High(v) == (v / 256) as bv8 && Low(v) == (v % 256) as bv8
  {
  }

  lemma WordInNumbers(high: bv8, low: bv8)
    ensures ((high as bv16) << 8) | (low as bv16) == 256 * (high as bv16) + (low as bv16)
  {
  }

  lemma LowWordOf(high: bv16, low: bv16)
    ensures Low16(((high as bv32) << 16) | (low as bv32)) == low
  {
  }

  /** Where a packet-out goes, by its first action alone. */
  lemma DestinationsByFirst(a: Action, rest: seq<Action>, flood: bv32)
    ensures DestinationOf([], flood) == Destination(0, 0)
    ensures DestinationOf([a] + rest, flood) ==
            match a
            case Output(port) =>
              if port == 0xffff_fffb || port == 0xffff_fffc then Destination(0, Low16(flood))
              else Destination(Low16(port), 0)
            case _ => BadAction
  {
  }

  lemma ZeroOnTheWire()
    ensures Wire(0) == [0, 0]
  {
  }

  lemma HeaderBytes(frame: Bytes, p: Bytes, q: Bytes, port: Bytes, zero: Bytes, mcastGrp: Bytes)
    requires |frame| >= 14 && zero == [0, 0]
    ensures Encapsulate(frame, [0xa0, 0, 0] + port, [0] + p + q + zero + zero + mcastGrp) ==
            frame[..12] + [0x90, 0x00] + [0xa0, 0, 0] + port + [0] + p + q + [0, 0, 0, 0] + mcastGrp + frame[12..]
  {
    assert frame[12..] == frame[12..14] + frame[14..];
    assert zero + zero == [0, 0, 0, 0];
  }

  /** Every byte of a packet-out: MAC addresses, etherType 0x9000, the fabric header of a packet from the CPU to a
      port, the CPU header with the port it came in by, one more for its interface, and a multicast group; then
      the frame from its etherType on. */
  lemma PacketOutBytes(frame: Bytes, inPort: bv32, port: bv16, mcastGrp: bv16, p: bv16, next: bv16)
    requires |frame| >= 14 && p == Low16(inPort) && next == p + 1
    ensures EncodeOut(frame, inPort, Destination(port, mcastGrp)) ==
            frame[..12] + [0x90, 0x00] + [0xa0, 0, 0] + Wire(port)
            + [0] + Wire(p) + Wire(next) + [0, 0, 0, 0] + Wire(mcastGrp) + frame[12..]
  {
    ZeroOnTheWire();
    HeaderBytes(frame, Wire(p), Wire(next), Wire(port), Wire(0), Wire(mcastGrp));
  }

  /** Every byte of a packet-in, for any message: the message is read into 2000 zeros. */
  lemma PacketInBytes(message: Bytes)
    requires 18 <= |message| <= 1986
    ensures var b, p := message + seq(2000 - |message|, _ => 0), DecodeIn(message);
            && p.totalLen == |message| - 18 && |p.data| == |message|
            && p.data == (b[..12] + b[30..32] + b[32..|message| + 14] + seq(2000, _ => 0))[..|message|]
            && p.inPort == Word(b[20], b[21]) as bv32 && p.reason == b[26] && p.tableId == b[27]
  {
    var b, z := InBuf(message), seq(2000, _ => 0 as bv8);
    assert b == message + seq(2000 - |message|, _ => 0);
    PartsOfWord(b[26], b[27]);
    var head := b[..12] + b[30..32] + b[32..|message| + 14];
    assert |head| == |message| - 4;
    assert (head + Zeros(2000 - |message| + 4))[..|message|] == (head + z)[..|message|];
  }

  /** How the switch parses a frame: under etherType 0x9000, by the top three bits of the next byte. */
  lemma ParseGives(b: Bytes)
    ensures |b| < 14 ==> Parse(b) == Short
    ensures |b| >= 14 && (b[12] != 0x90 || b[13] != 0) ==> Parse(b) == Plain(b)
    ensures 14 <= |b| < 19 && b[12] == 0x90 && b[13] == 0 ==> Parse(b) == Short
    ensures 19 <= |b| < 32 && b[12] == 0x90 && b[13] == 0 && b[14] >> 5 == 5 ==> Parse(b) == Short
    ensures 19 <= |b| < 28 && b[12] == 0x90 && b[13] == 0 && b[14] >> 5 == 2 ==> Parse(b) == Short
    ensures |b| >= 32 && b[12] == 0x90 && b[13] == 0 && b[14] >> 5 == 5 ==>
              Parse(b) == Cpu(b[..12], b[14..19], b[19..30], b[30..32], b[32..])
    ensures |b| >= 28 && b[12] == 0x90 && b[13] == 0 && b[14] >> 5 == 2 ==>
              Parse(b) == Multicast(b[..12], b[14..19], b[19..26], b[26..28], b[28..])
    ensures |b| >= 19 && b[12] == 0x90 && b[13] == 0 && b[14] >> 5 != 5 && b[14] >> 5 != 2 ==> Parse(b) == Plain(b)
  {
    if |b| >= 14 {
      assert b[12..14] == [b[12], b[13]];
    }
  }

  /** A CPU packet leaves by the port of its fabric header as its frame. */
  lemma TerminateGives(mac: Bytes, w0: bv8, w1: bv8, w2: bv8, high: bv8, low: bv8, cpu: Bytes, etherType: Bytes,
          rest: Bytes)
    ensures var t := TerminateCpu(Cpu(mac, [w0, w1, w2, high, low], cpu, etherType, rest));
            t.egressPort == Word(high, low) && t.frame == mac + etherType + rest
  {
  }
}
