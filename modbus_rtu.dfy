/** Modbus RTU framing as the RTU-over-TCP backend of the Modbus client
    does it: the CRC-16 of section 6.2.2 of the MODBUS over Serial Line
    Specification V1.02, the request frames of the read/write function
    codes of the MODBUS Application Protocol Specification V1.1b3 and the
    decoding of the replies.  The bytes the peer sends back are the
    parameter `rx`: a read of `n` bytes takes the next `n` bytes of `rx`
    and fails when fewer are left (the socket would time out). */
module ModbusRtu {
  import opened Wrappers

  /** An unsigned 16-bit register value. */
  type Word = bv16

  // ---------------------------------------------------------------------
  // CRC-16/MODBUS
  // ---------------------------------------------------------------------

  /** One shift of the CRC register: shift right, and XOR the polynomial
      0xA001 when a 1 was shifted out. */
  function CrcStep(crc: bv16): bv16 {
    if crc & 1 != 0 then (crc >> 1) ^ 0xA001 else crc >> 1
  }

  function CrcShifts(crc: bv16, n: nat): bv16 {
    if n == 0 then crc else CrcStep(CrcShifts(crc, n - 1))
  }

  /** The CRC register after one more byte. */
  function CrcByte(crc: bv16, b: bv8): bv16 {
    CrcShifts(crc ^ (b as bv16), 8)
  }

  /** The CRC of a byte sequence: start at 0xFFFF and feed each byte. */
  function Crc(bytes: seq<bv8>): bv16 {
    if bytes == [] then 0xFFFF else CrcByte(Crc(bytes[..|bytes| - 1]), bytes[|bytes| - 1])
  }

  /** The body of the inner loop of `crc16_modbus`. */
  method ShiftOnce(c: bv16) returns (crc: bv16)
    ensures crc == CrcStep(c)
  {
    crc := c;
    var lsb := crc & 0x0001 != 0;
    crc := crc >> 1;
    if lsb {
      crc := crc ^ 0xA001;
    }
  }

  /** `crc16_modbus`. */
  method Crc16(bytes: seq<bv8>) returns (crc: bv16)
    ensures crc == Crc(bytes)
  {
    crc := 0xFFFF;
    var k := 0;
    while k < |bytes|
      invariant 0 <= k <= |bytes|
      invariant crc == Crc(bytes[..k])
    {
      ghost var start := crc ^ (bytes[k] as bv16);
      crc := crc ^ (bytes[k] as bv16);
      var i := 0;
      while i < 8
        invariant 0 <= i <= 8
        invariant crc == CrcShifts(start, i)
      {
        crc := ShiftOnce(crc);
        i := i + 1;
      }
      assert crc == CrcByte(Crc(bytes[..k]), bytes[k]);
      assert bytes[..k + 1][..k] == bytes[..k];
      assert Crc(bytes[..k + 1]) == CrcByte(Crc(bytes[..k]), bytes[k]);
      k := k + 1;
    }
    assert bytes[..k] == bytes;
  }

  /** The two CRC bytes as they are sent: low byte first. */
  function CrcTrailer(crc: bv16): seq<bv8> {
    [(crc & 0xFF) as bv8, (crc >> 8) as bv8]
  }

  /** `validate_crc`: at least three bytes, and the last two are the CRC of
      the others, low byte first. */
  predicate ValidCrc(frame: seq<bv8>) {
    && |frame| >= 3
    && Crc(frame[..|frame| - 2]) == (frame[|frame| - 2] as bv16) | ((frame[|frame| - 1] as bv16) << 8)
  }

  /** `append_crc`: the frame followed by its CRC; the result passes
      `validate_crc` whenever the frame is not empty. */
  function WithCrc(frame: seq<bv8>): (r: seq<bv8>)
    ensures |r| == |frame| + 2 && r[..|frame|] == frame
    ensures |frame| >= 1 ==> ValidCrc(r)
  {
    var c := Crc(frame);
    var r := frame + CrcTrailer(c);
    assert r[..|r| - 2] == frame;
    assert ((c & 0xFF) as bv8 as bv16) | (((c >> 8) as bv8 as bv16) << 8) == c;
    r
  }

  /** High and low byte of an `int`, as `(x >> 8) & 0xFF` and `x & 0xFF`
      compute them on the two's-complement value. */
  function HighByte(x: int): bv8 { ((x / 256) % 256) as bv8 }

  function LowByte(x: int): bv8 { (x % 256) as bv8 }

  /** `(hi << 8) | lo`. */
  function Join(hi: bv8, lo: bv8): Word { ((hi as bv16) << 8) | (lo as bv16) }

  /** `(v >> 8) & 0xFF` and `v & 0xFF` of a 16-bit value. */
  function High(v: Word): bv8 { (v >> 8) as bv8 }

  function Low(v: Word): bv8 { (v & 0xFF) as bv8 }

  lemma JoinSplit(v: Word)
    ensures Join(High(v), Low(v)) == v
  {
  }

  // ---------------------------------------------------------------------
  // Parameter checks
  // ---------------------------------------------------------------------

  datatype Endpoint = Endpoint(host: string, port: int, slave: int)

  predicate ValidSlave(id: int) { 0 <= id <= 247 }

  /** The checks of the `rtu_over_tcp` factory, in its order. */
  function CheckEndpoint(host: string, port: int, slave: int): (r: Result<Endpoint>)
    ensures r.Ok? <==> host != [] && 1 <= port <= 65535 && ValidSlave(slave)
    ensures r.Ok? ==> r.value == Endpoint(host, port, slave)
    ensures host == [] ==> r == Err("Host is empty")
  {
    if host == [] then Err("Host is empty")
    else if port <= 0 || port > 65535 then Err("Port must be in range 1..65535")
    else if slave < 0 || slave > 247 then Err("Slave id must be in range 0..247")
    else Ok(Endpoint(host, port, slave))
  }

  // ---------------------------------------------------------------------
  // Request frames
  // ---------------------------------------------------------------------

  /** Slave id, function code, and two big-endian 16-bit fields. */
  function Pdu(slave: int, fn: bv8, a: int, b: int): seq<bv8> {
    [LowByte(slave), fn, HighByte(a), LowByte(a), HighByte(b), LowByte(b)]
  }

  /** The big-endian bytes of the values, as the write-multiple-registers
      request carries them. */
  function WordBytes(values: seq<Word>): (r: seq<bv8>)
    ensures |r| == 2 * |values|
  {
    if values == [] then []
    else WordBytes(values[..|values| - 1]) + [High(values[|values| - 1]), Low(values[|values| - 1])]
  }

  /** Each value is its two bytes joined again. */
  lemma {:induction false} WordBytesJoin(values: seq<Word>, i: nat)
    requires i < |values|
    ensures Join(WordBytes(values)[2 * i], WordBytes(values)[2 * i + 1]) == values[i]
  {
    var n := |values| - 1;
    var pre := WordBytes(values[..n]);
    assert WordBytes(values) == pre + [High(values[n]), Low(values[n])];
    if i < n {
      WordBytesJoin(values[..n], i);
      assert WordBytes(values)[2 * i] == pre[2 * i] && WordBytes(values)[2 * i + 1] == pre[2 * i + 1];
    } else {
      JoinSplit(values[n]);
      assert WordBytes(values)[2 * i] == High(values[n]);
    }
  }

  /** The request loop that pushes each value high byte first. */
  method RegisterPayload(values: seq<Word>) returns (bytes: seq<bv8>)
    ensures bytes == WordBytes(values)
  {
    bytes := [];
    var i := 0;
    while i < |values|
      invariant 0 <= i <= |values|
      invariant bytes == WordBytes(values[..i])
    {
      assert values[..i + 1][..i] == values[..i];
      bytes := bytes + [High(values[i]), Low(values[i])];
      i := i + 1;
    }
    assert values[..i] == values;
  }

  /** Bit `k` of a byte. */
  predicate BitOf(b: bv8, k: nat)
    requires k < 8
  {
    (b >> k) & 0x01 != 0
  }

  /** Bit `j` of a byte string, least significant bit of each byte first. */
  predicate BitAt(bytes: seq<bv8>, j: nat)
    requires j < 8 * |bytes|
  {
    BitOf(bytes[j / 8], j % 8)
  }

  /** `bytes` carries the coil values `values`, least significant bit
      first, in ⌈n/8⌉ bytes whose padding bits are zero. */
  predicate Packs(bytes: seq<bv8>, values: seq<bool>) {
    && |bytes| == (|values| + 7) / 8
    && forall j :: 0 <= j < 8 * |bytes| ==> BitAt(bytes, j) == (j < |values| && values[j])
  }

  lemma SetBit(b: bv8, k: nat, m: nat)
    requires k < 8 && m < 8
    ensures BitOf(b | (1 << k), m) == (BitOf(b, m) || m == k)
  {
  }

  lemma ZeroBits(m: nat)
    requires m < 8
    ensures !BitOf(0, m)
  {
  }

  /** Setting bit `i % 8` of byte `i / 8` sets coil `i` and no other. */
  lemma SetCoil(bytes: seq<bv8>, i: nat)
    requires i < 8 * |bytes|
    ensures var after := bytes[i / 8 := bytes[i / 8] | (1 << (i % 8))];
      forall j :: 0 <= j < 8 * |bytes| ==> BitAt(after, j) == (BitAt(bytes, j) || j == i)
  {
    var after := bytes[i / 8 := bytes[i / 8] | (1 << (i % 8))];
    forall j | 0 <= j < 8 * |bytes| ensures BitAt(after, j) == (BitAt(bytes, j) || j == i) {
      if j / 8 == i / 8 {
        SetBit(bytes[i / 8], i % 8, j % 8);
        assert j == 8 * (j / 8) + j % 8 && i == 8 * (i / 8) + i % 8;
        assert j % 8 == i % 8 <==> j == i;
      } else {
        assert after[j / 8] == bytes[j / 8];
      }
    }
  }

  /** The packing loop of the write-multiple-coils request: zeroed bytes,
      then bit `i % 8` of byte `i / 8` set for every true value. */
  method PackCoils(values: seq<bool>) returns (bytes: seq<bv8>)
    ensures Packs(bytes, values)
  {
    bytes := seq((|values| + 7) / 8, _ => 0);
    forall j | 0 <= j < 8 * |bytes| ensures !BitAt(bytes, j) {
      ZeroBits(j % 8);
    }
    var i := 0;
    while i < |values|
      invariant 0 <= i <= |values|
      invariant |bytes| == (|values| + 7) / 8
      invariant forall j :: 0 <= j < 8 * |bytes| ==> BitAt(bytes, j) == (j < i && values[j])
    {
      if values[i] {
        assert i < 8 * |bytes|;
        SetCoil(bytes, i);
        bytes := bytes[i / 8 := bytes[i / 8] | (1 << (i % 8))];
      }
      i := i + 1;
    }
  }

  // ---------------------------------------------------------------------
  // Replies
  // ---------------------------------------------------------------------

  /** The error of a read that gets fewer bytes than it asked for; the
      text is the operating system's and is not modelled. */
  const RecvFailed: string := "receive failed"

  function HexDigit(n: bv8): char
    requires n < 16
  {
    if n < 10 then ('0' as int + n as int) as char else ('A' as int + n as int - 10) as char
  }

  /** "Modbus exception code 0x" and the code as two upper-case
      hexadecimal digits. */
  function ExceptionMessage(code: bv8): string {
    "Modbus exception code 0x" + [HexDigit(code >> 4), HexDigit(code & 0xF)]
  }

  /** `read_variable_response_rtu_over_tcp`: a three-byte header, then
      either a Modbus exception (two more bytes) or `byteCount + 2` more. */
  function VariableResponse(rx: seq<bv8>, slave: int, fn: bv8): (r: Result<seq<bv8>>)
    ensures r.Ok? ==>
      && 5 <= |r.value| <= |rx| && |r.value| == 5 + r.value[2] as int && r.value == rx[..|r.value|]
      && r.value[0] == LowByte(slave) && r.value[1] == fn && r.value[1] != fn | 0x80
      && ValidCrc(r.value)
    ensures |rx| >= 2 && rx[1] == fn | 0x80 ==> r.Err?
    ensures |rx| >= 1 && rx[0] != LowByte(slave) ==> r.Err?
  {
    if |rx| < 3 then Err(RecvFailed)
    else if rx[0] != LowByte(slave) then Err("Unexpected slave id in RTU-over-TCP response")
    else if rx[1] == fn | 0x80 then
      if |rx| < 5 then Err(RecvFailed)
      else if !ValidCrc(rx[..5]) then Err("Invalid CRC in exception response")
      else Err(ExceptionMessage(rx[2]))
    else if rx[1] != fn then Err("Unexpected function code in RTU-over-TCP response")
    else
      var n := 5 + rx[2] as int;
      if |rx| < n then Err(RecvFailed)
      else if !ValidCrc(rx[..n]) then Err("Invalid CRC in RTU-over-TCP response")
      else Ok(rx[..n])
  }

  /** `exchange_fixed_response_rtu_over_tcp` as written: it always reads
      eight bytes, also for a Modbus exception reply, which has five. */
  function FixedResponseAsWritten(rx: seq<bv8>, slave: int, fn: bv8): (r: Result<seq<bv8>>)
    ensures r.Ok? ==> |rx| >= 8 && r.value == rx[..8] && r.value[0] == LowByte(slave) && r.value[1] == fn && ValidCrc(r.value)
  {
    if |rx| < 8 then Err(RecvFailed)
    else
      var f := rx[..8];
      if f[0] != LowByte(slave) || (f[1] != fn && f[1] != fn | 0x80) then Err("Invalid RTU-over-TCP response header")
      else if !ValidCrc(f) then Err("Invalid CRC in RTU-over-TCP response")
      else if f[1] == fn | 0x80 then Err(ExceptionMessage(f[2]))
      else Ok(f)
  }

  /** The fixed-size exchange with the exception reply read at its own
      length of five bytes. */
  function FixedResponse(rx: seq<bv8>, slave: int, fn: bv8): (r: Result<seq<bv8>>)
    ensures r.Ok? ==> |rx| >= 8 && r.value == rx[..8] && r.value[0] == LowByte(slave) && r.value[1] == fn && ValidCrc(r.value)
    ensures |rx| >= 2 && rx[1] == fn | 0x80 ==> r.Err?
  {
    if |rx| < 2 then Err(RecvFailed)
    else if rx[0] != LowByte(slave) || (rx[1] != fn && rx[1] != fn | 0x80) then Err("Invalid RTU-over-TCP response header")
    else if rx[1] == fn | 0x80 then
      if |rx| < 5 then Err(RecvFailed)
      else if !ValidCrc(rx[..5]) then Err("Invalid CRC in RTU-over-TCP response")
      else Err(ExceptionMessage(rx[2]))
    else if |rx| < 8 then Err(RecvFailed)
    else if !ValidCrc(rx[..8]) then Err("Invalid CRC in RTU-over-TCP response")
    else Ok(rx[..8])
  }

  /** Register `i` of a read reply: bytes `3 + 2i` (high) and `4 + 2i`. */
  function RegistersOf(frame: seq<bv8>, count: nat): (regs: seq<Word>)
    requires 3 + 2 * count <= |frame|
    ensures |regs| == count
  {
    seq(count, i requires 0 <= i < count => Join(frame[3 + 2 * i], frame[4 + 2 * i]))
  }

  /** What a register read returns for the reply `rx`, once its count has
      passed the 1..125 check. */
  function RegistersReply(rx: seq<bv8>, slave: int, fn: bv8, count: int): (r: Result<seq<Word>>)
    requires 1 <= count <= 125
    ensures r.Ok? <==> VariableResponse(rx, slave, fn).Ok? && VariableResponse(rx, slave, fn).value[2] as int == 2 * count
    ensures r.Ok? ==> |r.value| == count
    ensures VariableResponse(rx, slave, fn).Err? ==> r == Err(VariableResponse(rx, slave, fn).msg)
  {
    match VariableResponse(rx, slave, fn)
    case Err(m) => Err(m)
    case Ok(frame) =>
      if frame[2] as int != 2 * count then Err("Unexpected byte count in response")
      else Ok(RegistersOf(frame, count))
  }

  /** Coil `i` of a data block: bit `i % 8` of byte `i / 8`. */
  function BitsOf(data: seq<bv8>, count: nat): (bits: seq<bool>)
    requires count <= 8 * |data|
    ensures |bits| == count
  {
    seq(count, i requires 0 <= i < count => BitAt(data, i))
  }

  /** The decoding of `read_bits_rtu_over_tcp` as written: the reply's
      byte count is never compared with the count asked for, so the bits
      are taken from whatever follows the header, the CRC included; a read
      beyond the received frame (undefined behaviour) is reported as an
      error here. */
  function BitsReplyAsWritten(rx: seq<bv8>, slave: int, fn: bv8, count: int): (r: Result<seq<bool>>)
    requires 1 <= count <= 2000
    ensures r.Ok? ==> VariableResponse(rx, slave, fn).Ok? && |r.value| == count
    ensures VariableResponse(rx, slave, fn).Ok? && VariableResponse(rx, slave, fn).value[2] as int == (count + 7) / 8 ==> r.Ok?
    ensures VariableResponse(rx, slave, fn).Err? ==> r == Err(VariableResponse(rx, slave, fn).msg)
  {
    match VariableResponse(rx, slave, fn)
    case Err(m) => Err(m)
    case Ok(frame) =>
      if 3 + (count - 1) / 8 >= |frame| then Err("read beyond the received frame")
      else Ok(BitsOf(frame[3..], count))
  }

  /** The bit read with the byte count checked against ⌈count/8⌉, as the
      register read checks its own. */
  function BitsReply(rx: seq<bv8>, slave: int, fn: bv8, count: int): (r: Result<seq<bool>>)
    requires 1 <= count <= 2000
    ensures r.Ok? <==> VariableResponse(rx, slave, fn).Ok? && VariableResponse(rx, slave, fn).value[2] as int == (count + 7) / 8
    ensures r.Ok? ==> |r.value| == count
    ensures VariableResponse(rx, slave, fn).Err? ==> r == Err(VariableResponse(rx, slave, fn).msg)
  {
    match VariableResponse(rx, slave, fn)
    case Err(m) => Err(m)
    case Ok(frame) =>
      if frame[2] as int != (count + 7) / 8 then Err("Unexpected byte count in response")
      else Ok(BitsOf(frame[3..], count))
  }

  /** The decoding loop of a register read. */
  method DecodeRegisters(f: seq<bv8>, count: nat) returns (out: seq<Word>)
    requires 3 + 2 * count <= |f|
    ensures out == RegistersOf(f, count)
  {
    out := [];
    var i := 0;
    while i < count
      invariant 0 <= i <= count
      invariant out == RegistersOf(f, count)[..i]
    {
      out := out + [Join(f[3 + i * 2], f[3 + i * 2 + 1])];
      i := i + 1;
    }
  }

  /** The decoding loop of a bit read: bit `i % 8` of byte `3 + i / 8`. */
  method DecodeBits(f: seq<bv8>, count: nat) returns (out: seq<bool>)
    requires 3 <= |f| && count <= 8 * (|f| - 3)
    ensures out == BitsOf(f[3..], count)
  {
    out := [];
    var i := 0;
    while i < count
      invariant 0 <= i <= count
      invariant out == BitsOf(f[3..], count)[..i]
    {
      var b := f[3 + i / 8];
      out := out + [(b >> (i % 8)) & 0x01 != 0];
      i := i + 1;
    }
  }

  // ---------------------------------------------------------------------
  // The client
  // ---------------------------------------------------------------------

  /** The RTU-over-TCP backend of the Modbus client: its endpoint, the
      slave id it addresses and the delay between requests. */
  class RtuOverTcpClient {
    const host: string
    const port: int
    var slave: int
    var interRequestDelay: int

    predicate Valid()
      reads this
    {
      host != [] && 1 <= port <= 65535 && ValidSlave(slave) && interRequestDelay >= 0
    }

    /** The client the factory builds from a checked endpoint. */
    constructor (e: Endpoint)
      requires CheckEndpoint(e.host, e.port, e.slave) == Ok(e)
      ensures Valid()
      ensures host == e.host && port == e.port && slave == e.slave && interRequestDelay == 0
    {
      host := e.host;
      port := e.port;
      slave := e.slave;
      interRequestDelay := 0;
    }

    /** `set_slave`: the id must be in 0..247; otherwise nothing changes. */
    method SetSlave(id: int) returns (r: Result<()>)
      requires Valid()
      modifies this
      ensures Valid()
      ensures r.Ok? <==> ValidSlave(id)
      ensures slave == (if ValidSlave(id) then id else old(slave))
      ensures interRequestDelay == old(interRequestDelay)
    {
      if id < 0 || id > 247 {
        return Err("Slave id must be in range 0..247");
      }
      slave := id;
      return Ok(());
    }

    /** `set_inter_request_delay`: a negative delay is refused. */
    method SetInterRequestDelay(ms: int) returns (r: Result<()>)
      requires Valid()
      modifies this
      ensures Valid()
      ensures r.Ok? <==> ms >= 0
      ensures interRequestDelay == (if ms >= 0 then ms else old(interRequestDelay))
      ensures slave == old(slave)
    {
      if ms < 0 {
        return Err("Inter-request delay cannot be negative");
      }
      interRequestDelay := ms;
      return Ok(());
    }

    /** `read_registers_rtu_over_tcp`: an 8-byte request (nothing is sent
        for a count outside 1..125), then the decoded reply. */
    method ReadRegisters(fn: bv8, addr: int, count: int, rx: seq<bv8>) returns (sent: seq<bv8>, r: Result<seq<Word>>)
      ensures !(1 <= count <= 125) ==> sent == [] && r == Err("Invalid register count")
      ensures 1 <= count <= 125 ==>
        && |sent| == 8 && sent[..6] == Pdu(slave, fn, addr, count) && ValidCrc(sent)
        && r == RegistersReply(rx, slave, fn, count)
    {
      if count <= 0 || count > 125 {
        return [], Err("Invalid register count");
      }
      sent := WithCrc(Pdu(slave, fn, addr, count));
      var frame := VariableResponse(rx, slave, fn);
      if frame.Err? {
        return sent, Err(frame.msg);
      }
      var f := frame.value;
      if f[2] as int != 2 * count {
        return sent, Err("Unexpected byte count in response");
      }
      var out := DecodeRegisters(f, count);
      r := Ok(out);
    }

    /** `write_single_register_rtu_over_tcp`. */
    method WriteSingleRegister(addr: int, value: Word, rx: seq<bv8>) returns (sent: seq<bv8>, r: Result<()>)
      ensures |sent| == 8 && sent[..6] == Pdu(slave, 0x06, addr, value as int) && ValidCrc(sent)
      ensures r.Ok? <==> FixedResponseAsWritten(rx, slave, 0x06).Ok?
      ensures r.Err? ==> r.msg == FixedResponseAsWritten(rx, slave, 0x06).msg
    {
      sent := WithCrc(Pdu(slave, 0x06, addr, value as int));
      var response := FixedResponseAsWritten(rx, slave, 0x06);
      r := if response.Ok? then Ok(()) else Err(response.msg);
    }

    /** `write_multiple_registers_rtu_over_tcp`: 1..123 values, byte count
        `2n`, big-endian payload. */
    method WriteMultipleRegisters(addr: int, values: seq<Word>, rx: seq<bv8>) returns (sent: seq<bv8>, r: Result<()>)
      ensures !(1 <= |values| <= 123) ==> sent == [] && r == Err("Invalid number of registers")
      ensures 1 <= |values| <= 123 ==>
        && sent == WithCrc(Pdu(slave, 0x10, addr, |values|) + [(2 * |values|) as bv8] + WordBytes(values))
        && ValidCrc(sent)
        && (r.Ok? <==> FixedResponseAsWritten(rx, slave, 0x10).Ok?)
        && (r.Err? ==> r.msg == FixedResponseAsWritten(rx, slave, 0x10).msg)
    {
      if |values| == 0 || |values| > 123 {
        return [], Err("Invalid number of registers");
      }
      var payload := RegisterPayload(values);
      sent := WithCrc(Pdu(slave, 0x10, addr, |values|) + [(2 * |values|) as bv8] + payload);
      var response := FixedResponseAsWritten(rx, slave, 0x10);
      r := if response.Ok? then Ok(()) else Err(response.msg);
    }

    /** `read_bits_rtu_over_tcp`: an 8-byte request (nothing is sent for a
        count outside 1..2000), then the bits of the reply's data block,
        taken without looking at the reply's byte count. */
    method ReadBits(fn: bv8, addr: int, count: int, rx: seq<bv8>) returns (sent: seq<bv8>, r: Result<seq<bool>>)
      ensures !(1 <= count <= 2000) ==> sent == [] && r == Err("Invalid bit count")
      ensures 1 <= count <= 2000 ==>
        && |sent| == 8 && sent[..6] == Pdu(slave, fn, addr, count) && ValidCrc(sent)
        && r == BitsReplyAsWritten(rx, slave, fn, count)
    {
      if count <= 0 || count > 2000 {
        return [], Err("Invalid bit count");
      }
      sent := WithCrc(Pdu(slave, fn, addr, count));
      var frame := VariableResponse(rx, slave, fn);
      if frame.Err? {
        return sent, Err(frame.msg);
      }
      var f := frame.value;
      if 3 + (count - 1) / 8 >= |f| {
        return sent, Err("read beyond the received frame");
      }
      var out := DecodeBits(f, count);
      r := Ok(out);
    }

    /** `write_single_coil_rtu_over_tcp`: the value travels as 0xFF00 (on)
        or 0x0000 (off). */
    method WriteSingleCoil(addr: int, value: bool, rx: seq<bv8>) returns (sent: seq<bv8>, r: Result<()>)
      ensures |sent| == 8 && sent[..6] == Pdu(slave, 0x05, addr, if value then 0xFF00 else 0) && ValidCrc(sent)
      ensures sent[4] == (if value then 0xFF else 0) && sent[5] == 0
      ensures r.Ok? <==> FixedResponseAsWritten(rx, slave, 0x05).Ok?
      ensures r.Err? ==> r.msg == FixedResponseAsWritten(rx, slave, 0x05).msg
    {
      var raw := if value then 0xFF00 else 0x0000;
      assert HighByte(raw) == (if value then 0xFF else 0) && LowByte(raw) == 0;
      var pdu := Pdu(slave, 0x05, addr, raw);
      sent := WithCrc(pdu);
      assert sent[4] == pdu[4] && sent[5] == pdu[5] by { assert sent[..6] == pdu; }
      var response := FixedResponseAsWritten(rx, slave, 0x05);
      r := if response.Ok? then Ok(()) else Err(response.msg);
    }

    /** `write_multiple_bits_rtu_over_tcp`: 1..1968 coils, byte count
        ⌈n/8⌉, coil `i` at bit `i % 8` of data byte `i / 8`. */
    method WriteMultipleCoils(addr: int, values: seq<bool>, rx: seq<bv8>) returns (sent: seq<bv8>, r: Result<()>)
      ensures !(1 <= |values| <= 1968) ==> sent == [] && r == Err("Invalid number of bits")
      ensures 1 <= |values| <= 1968 ==>
        && |sent| == 9 + (|values| + 7) / 8
        && sent[..6] == Pdu(slave, 0x0F, addr, |values|) && sent[6] == ((|values| + 7) / 8) as bv8
        && Packs(sent[7..|sent| - 2], values) && ValidCrc(sent)
        && (r.Ok? <==> FixedResponseAsWritten(rx, slave, 0x0F).Ok?)
        && (r.Err? ==> r.msg == FixedResponseAsWritten(rx, slave, 0x0F).msg)
    {
      if |values| == 0 || |values| > 1968 {
        return [], Err("Invalid number of bits");
      }
      var data := PackCoils(values);
      var header := Pdu(slave, 0x0F, addr, |values|) + [((|values| + 7) / 8) as bv8];
      sent := WithCrc(header + data);
      assert sent[..|header + data|] == header + data;
      assert sent[7..|sent| - 2] == (header + data)[7..];
      assert (header + data)[7..] == data;
      var response := FixedResponseAsWritten(rx, slave, 0x0F);
      r := if response.Ok? then Ok(()) else Err(response.msg);
    }
  }
}

/** Properties of the framing: the CRC check, round trips of the replies,
    and the two places where the code differs from the protocol. */
module ModbusRtuFacts {
  import opened Wrappers
  import opened ModbusRtu

  function EightSteps(c: bv16): bv16 {
    CrcStep(CrcStep(CrcStep(CrcStep(CrcStep(CrcStep(CrcStep(CrcStep(c))))))))
  }

  lemma ShiftsEight(c: bv16)
    ensures CrcShifts(c, 8) == EightSteps(c)
  {
    assert CrcShifts(c, 1) == CrcStep(c);
    assert CrcShifts(c, 2) == CrcStep(CrcStep(c));
    assert CrcShifts(c, 4) == CrcStep(CrcStep(CrcShifts(c, 2)));
    assert CrcShifts(c, 6) == CrcStep(CrcStep(CrcShifts(c, 4)));
  }

  /** Feeding a CRC's own two bytes, low byte first, into it gives zero. */
  lemma TrailerClears(c: bv16)
    ensures CrcByte(CrcByte(c, CrcTrailer(c)[0]), CrcTrailer(c)[1]) == 0
  {
    var d := c ^ (CrcTrailer(c)[0] as bv16);
    ShiftsEight(d);
    ShiftsEight(EightSteps(d) ^ (CrcTrailer(c)[1] as bv16));
  }

  /** The CRC of a frame with its CRC appended is zero, the residue check
      of section 6.2.2 of MODBUS over Serial Line V1.02. */
  lemma CrcResidue(frame: seq<bv8>)
    ensures Crc(WithCrc(frame)) == 0
  {
    var r := WithCrc(frame);
    var n := |frame|;
    assert r == frame + CrcTrailer(Crc(frame));
    assert r[..n + 1][..n] == frame;
    assert r[..n + 1] == frame + [CrcTrailer(Crc(frame))[0]];
    assert Crc(r[..n + 1]) == CrcByte(Crc(frame), CrcTrailer(Crc(frame))[0]);
    TrailerClears(Crc(frame));
  }

  /** A frame passes `validate_crc` exactly when it is a frame of at least
      one byte with its CRC appended. */
  lemma ValidCrcIffAppended(frame: seq<bv8>)
    ensures ValidCrc(frame) <==> |frame| >= 3 && frame == WithCrc(frame[..|frame| - 2])
  {
    if ValidCrc(frame) {
      var n := |frame|;
      TrailerOfJoin(frame[n - 2], frame[n - 1]);
      assert frame == frame[..n - 2] + [frame[n - 2], frame[n - 1]];
    }
  }

  lemma TrailerOfJoin(lo: bv8, hi: bv8)
    ensures CrcTrailer((lo as bv16) | ((hi as bv16) << 8)) == [lo, hi]
  {
  }

  /** The request "read one holding register at 0 from slave 1" carries
      the well-known CRC bytes 0x84 0x0A. */
  lemma CrcKnownAnswer()
    ensures WithCrc([0x01, 0x03, 0x00, 0x00, 0x00, 0x01]) == [0x01, 0x03, 0x00, 0x00, 0x00, 0x01, 0x84, 0x0A]
  {
    var s: seq<bv8> := [0x01, 0x03, 0x00, 0x00, 0x00, 0x01];
    assert Crc(s[..0]) == 0xFFFF;
    ShiftsEight(0xFFFF ^ 0x01);
    assert s[..1][..0] == s[..0];
    assert Crc(s[..1]) == 0x807E;
    ShiftsEight(0x807E ^ 0x03);
    assert s[..2][..1] == s[..1];
    assert Crc(s[..2]) == 0x2140;
    ShiftsEight(0x2140 ^ 0x00);
    assert s[..3][..2] == s[..2];
    assert Crc(s[..3]) == 0xF020;
    ShiftsEight(0xF020 ^ 0x00);
    assert s[..4][..3] == s[..3];
    assert Crc(s[..4]) == 0xD8F1;
    ShiftsEight(0xD8F1 ^ 0x00);
    assert s[..5][..4] == s[..4];
    assert Crc(s[..5]) == 0x8419;
    ShiftsEight(0x8419 ^ 0x01);
    assert s[..6][..5] == s[..5];
    assert Crc(s[..6]) == 0x0A84;
    assert s[..6] == s;
  }

  /** A frame that names the slave and the function, whose byte count
      matches its data, sent with its CRC, is what the variable-length read
      returns, whatever follows it on the socket. */
  lemma VariableAccepted(slave: int, fn: bv8, pdu: seq<bv8>, tail: seq<bv8>)
    requires fn < 0x80 && |pdu| >= 3 && pdu[0] == LowByte(slave) && pdu[1] == fn && pdu[2] as int == |pdu| - 3
    ensures VariableResponse(WithCrc(pdu) + tail, slave, fn) == Ok(WithCrc(pdu))
  {
    var frame := WithCrc(pdu);
    var rx := frame + tail;
    assert rx[..|frame|] == frame;
    assert frame[..|pdu|] == pdu;
    assert fn != fn | 0x80;
  }

  /** A well-formed register reply, whatever follows it on the socket,
      decodes to the registers it carries. */
  lemma RegistersRoundTrip(slave: int, fn: bv8, bc: bv8, regs: seq<Word>, tail: seq<bv8>)
    requires fn < 0x80 && 1 <= |regs| <= 125 && bc as int == 2 * |regs|
    ensures RegistersReply(WithCrc([LowByte(slave), fn, bc] + WordBytes(regs)) + tail, slave, fn, |regs|) == Ok(regs)
  {
    var pdu := [LowByte(slave), fn, bc] + WordBytes(regs);
    VariableAccepted(slave, fn, pdu, tail);
    RegistersOfWords(WithCrc(pdu), regs);
  }

  lemma RegistersOfWords(frame: seq<bv8>, regs: seq<Word>)
    requires 3 + 2 * |regs| <= |frame| && frame[3..3 + 2 * |regs|] == WordBytes(regs)
    ensures RegistersOf(frame, |regs|) == regs
  {
    var w := WordBytes(regs);
    forall i | 0 <= i < |regs| ensures Join(frame[3 + 2 * i], frame[4 + 2 * i]) == regs[i] {
      WordBytesJoin(regs, i);
      WordAt(frame, w, i);
    }
  }

  lemma WordAt(frame: seq<bv8>, w: seq<bv8>, i: nat)
    requires 3 + |w| <= |frame| && frame[3..3 + |w|] == w && 2 * i + 1 < |w|
    ensures frame[3 + 2 * i] == w[2 * i] && frame[4 + 2 * i] == w[2 * i + 1]
  {
    assert frame[3..3 + |w|][2 * i] == frame[3 + 2 * i];
    assert frame[3..3 + |w|][2 * i + 1] == frame[4 + 2 * i];
  }

  /** A well-formed bit reply whose data block packs the coil values
      decodes to those values. */
  lemma BitsRoundTrip(slave: int, fn: bv8, bc: bv8, data: seq<bv8>, values: seq<bool>, tail: seq<bv8>)
    requires fn < 0x80 && 1 <= |values| <= 2000 && Packs(data, values) && bc as int == |data|
    ensures BitsReply(WithCrc([LowByte(slave), fn, bc] + data) + tail, slave, fn, |values|) == Ok(values)
    ensures BitsReplyAsWritten(WithCrc([LowByte(slave), fn, bc] + data) + tail, slave, fn, |values|) == Ok(values)
  {
    var pdu := [LowByte(slave), fn, bc] + data;
    VariableAccepted(slave, fn, pdu, tail);
    var frame := WithCrc(pdu);
    assert frame[3..][..|data|] == data;
    BitsOfPacked(frame[3..], data, values);
    BitsAgreeOnMatchingCount(WithCrc(pdu) + tail, slave, fn, |values|);
  }

  lemma BitsOfPacked(block: seq<bv8>, data: seq<bv8>, values: seq<bool>)
    requires Packs(data, values) && |data| <= |block| && block[..|data|] == data
    ensures BitsOf(block, |values|) == values
  {
    forall i | 0 <= i < |values| ensures BitsOf(block, |values|)[i] == values[i] {
      assert block[i / 8] == data[i / 8];
      assert BitAt(data, i) == values[i];
    }
  }

  /** A Modbus exception reply with a good CRC is reported with its code by
      the variable-length read and by the fixed-length exchange, whatever
      follows it. */
  lemma ExceptionReported(slave: int, fn: bv8, code: bv8, tail: seq<bv8>)
    requires fn < 0x80
    ensures VariableResponse(WithCrc([LowByte(slave), fn | 0x80, code]) + tail, slave, fn) == Err(ExceptionMessage(code))
    ensures FixedResponse(WithCrc([LowByte(slave), fn | 0x80, code]) + tail, slave, fn) == Err(ExceptionMessage(code))
  {
    var frame := WithCrc([LowByte(slave), fn | 0x80, code]);
    var rx := frame + tail;
    assert rx[..5] == frame;
    assert frame[..3] == [LowByte(slave), fn | 0x80, code];
  }

  /** The echo of a single-write request is accepted by the fixed-length
      exchange, whatever follows it. */
  lemma FixedEcho(slave: int, fn: bv8, a: int, b: int, tail: seq<bv8>)
    requires fn < 0x80
    ensures FixedResponse(WithCrc(Pdu(slave, fn, a, b)) + tail, slave, fn) == Ok(WithCrc(Pdu(slave, fn, a, b)))
  {
    var frame := WithCrc(Pdu(slave, fn, a, b));
    var rx := frame + tail;
    assert rx[..8] == frame;
    assert frame[..6] == Pdu(slave, fn, a, b);
    assert fn != fn | 0x80;
  }

  /** The bit read as written accepts a reply carrying one data byte when
      sixteen coils were asked for, and returns the low CRC byte's bits as
      coils 8 to 15; with the byte count checked the reply is refused. */
  lemma BitsByteCountUnchecked(slave: int, fn: bv8, d: bv8)
    requires fn < 0x80
    ensures var rx := WithCrc([LowByte(slave), fn, 1, d]);
      && BitsReplyAsWritten(rx, slave, fn, 16).Ok?
      && (forall i :: 8 <= i < 16 ==> BitsReplyAsWritten(rx, slave, fn, 16).value[i] == BitOf(CrcTrailer(Crc([LowByte(slave), fn, 1, d]))[0], i - 8))
      && BitsReply(rx, slave, fn, 16) == Err("Unexpected byte count in response")
  {
    var pdu: seq<bv8> := [LowByte(slave), fn, 1, d];
    var rx := WithCrc(pdu);
    assert rx == pdu + CrcTrailer(Crc(pdu));
    assert rx[..6] == rx;
    assert fn != fn | 0x80;
    assert VariableResponse(rx, slave, fn) == Ok(rx);
    var bits := BitsReplyAsWritten(rx, slave, fn, 16).value;
    forall i | 8 <= i < 16 ensures bits[i] == BitOf(CrcTrailer(Crc(pdu))[0], i - 8) {
      assert i / 8 == 1 && i % 8 == i - 8;
      assert rx[3..][1] == rx[4];
    }
  }

  /** The fixed-length exchange as written waits for eight bytes while an
      exception reply has five, so the exception is lost as a failed read;
      the corrected exchange reports it. */
  lemma FixedExceptionLost(slave: int, fn: bv8, code: bv8)
    requires fn < 0x80
    ensures FixedResponseAsWritten(WithCrc([LowByte(slave), fn | 0x80, code]), slave, fn) == Err(RecvFailed)
    ensures FixedResponse(WithCrc([LowByte(slave), fn | 0x80, code]), slave, fn) == Err(ExceptionMessage(code))
  {
    ExceptionReported(slave, fn, code, []);
    assert WithCrc([LowByte(slave), fn | 0x80, code]) + [] == WithCrc([LowByte(slave), fn | 0x80, code]);
  }

  /** The exchange as written and the corrected one accept the same
      replies and return the same frame; they differ only in the error a
      refused reply is reported with. */
  lemma FixedAgreesOnSuccess(rx: seq<bv8>, slave: int, fn: bv8)
    ensures FixedResponseAsWritten(rx, slave, fn).Ok? <==> FixedResponse(rx, slave, fn).Ok?
    ensures FixedResponse(rx, slave, fn).Ok? ==> FixedResponseAsWritten(rx, slave, fn) == FixedResponse(rx, slave, fn)
  {
    if |rx| >= 8 {
      assert rx[..8][0] == rx[0] && rx[..8][1] == rx[1];
    }
  }

  /** Whenever a reply's byte count matches the coils asked for, the bit
      read as written returns what the corrected read returns. */
  lemma BitsAgreeOnMatchingCount(rx: seq<bv8>, slave: int, fn: bv8, count: int)
    requires 1 <= count <= 2000
    ensures BitsReply(rx, slave, fn, count).Ok? ==> BitsReplyAsWritten(rx, slave, fn, count) == BitsReply(rx, slave, fn, count)
  {
  }
}
