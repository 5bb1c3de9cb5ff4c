// Modbus frames on the wire (src-tauri/src/modbus.rs): MBAP over TCP, RTU with a CRC over
// a serial line, both receivers, and the whole exchange between a master and a slave.
module ModbusFrames {
  import opened Common
  import opened ModbusBytes
  import opened ModbusCodec
  import ModbusCrc

  const MAX_MBAP_LENGTH: nat := 254
  const MAX_RTU_FRAME: nat := 256

  datatype FrameError =
    | BadPduLength
    | WrongTransaction
    | WrongProtocol
    | BadMbapLength
    | WrongUnit
    | Truncated
    | UnexpectedFunction
    | BadByteCount
    | BadFrameLength
    | CrcMismatch
    | BadReply(reply: ReplyError)

  // ---------------------------------------------------------------- MBAP

  function BuildMbapFrame(transaction: u16, unit: byte, pdu: seq<byte>): Result<seq<byte>, FrameError> {
    if pdu == [] || |pdu| > MAX_PDU then Err(BadPduLength)
    else Ok(BigEndian(transaction) + BigEndian(0) + BigEndian(|pdu| + 1) + [unit] + pdu)
  }

  function ValidateSlaveMbapHeader(header: seq<byte>, unit: byte): Result<nat, FrameError>
    requires |header| == 7
  {
    if FromBigEndian(header[2], header[3]) != 0 then Err(WrongProtocol) else
    var length: nat := FromBigEndian(header[4], header[5]);
    if length < 2 || length > MAX_MBAP_LENGTH then Err(BadMbapLength)
    else if header[6] != unit then Err(WrongUnit)
    else Ok(length)
  }

  function ValidateMbapHeader(header: seq<byte>, transaction: u16, unit: byte): Result<nat, FrameError>
    requires |header| == 7
  {
    if FromBigEndian(header[0], header[1]) != transaction then Err(WrongTransaction)
    else ValidateSlaveMbapHeader(header, unit)
  }

  lemma MbapHeaderOfFrame(transaction: u16, unit: byte, pdu: seq<byte>, rest: seq<byte>)
    requires 1 <= |pdu| <= MAX_PDU
    ensures BuildMbapFrame(transaction, unit, pdu).Ok?
    ensures var stream := BuildMbapFrame(transaction, unit, pdu).value + rest;
            && |stream| == 7 + |pdu| + |rest|
            && FromBigEndian(stream[0], stream[1]) == transaction
            && ValidateMbapHeader(stream[..7], transaction, unit) == Ok(|pdu| + 1)
            && ValidateSlaveMbapHeader(stream[..7], unit) == Ok(|pdu| + 1)
            && stream[7..7 + |pdu|] == pdu
            && stream[7 + |pdu|..] == rest
  {
    var frame := BuildMbapFrame(transaction, unit, pdu).value;
    var stream := frame + rest;
    assert stream[..7] == BigEndian(transaction) + BigEndian(0) + BigEndian(|pdu| + 1) + [unit];
  }

  // The master's side of `exchange_mbap`: read a header, then as many bytes as it says.
  function ReceiveTcp(spec: RequestSpec, transaction: u16, unit: byte, stream: seq<byte>): Result<Answer, FrameError> {
    if |stream| < 7 then Err(Truncated) else
    var length := ValidateMbapHeader(stream[..7], transaction, unit);
    if length.Err? then Err(length.error) else
    if |stream| < 6 + length.value then Err(Truncated) else
    match ParseReply(spec, stream[7..6 + length.value])
    case Ok(answer) => Ok(answer)
    case Err(error) => Err(BadReply(error))
  }

  // One turn of the slave's client loop: a reply frame, the bank, and the unread bytes.
  datatype Served = Served(reply: seq<byte>, bank: Bank, unread: seq<byte>)

  function ServeTcp(bank: Bank, unit: byte, stream: seq<byte>): Result<Served, FrameError> {
    if |stream| < 7 then Err(Truncated) else
    var length := ValidateSlaveMbapHeader(stream[..7], unit);
    if length.Err? then Err(length.error) else
    if |stream| < 6 + length.value then Err(Truncated) else
    var outcome := Process(bank, stream[7..6 + length.value]);
    var frame := BuildMbapFrame(FromBigEndian(stream[0], stream[1]), unit, outcome.response.pdu);
    if frame.Err? then Err(frame.error) else
    Ok(Served(frame.value, outcome.bank, stream[6 + length.value..]))
  }

  // The slave never fails to frame a reply: its only errors are about what it received.
  lemma ServingNeverFailsToFrame(bank: Bank, unit: byte, stream: seq<byte>)
    ensures ServeTcp(bank, unit, stream) != Err(BadPduLength)
  {
    hide Process;
    if |stream| >= 7 {
      var length := ValidateSlaveMbapHeader(stream[..7], unit);
      if length.Ok? && |stream| >= 6 + length.value {
        RepliesFit(bank, stream[7..6 + length.value]);
      }
    }
  }

  // A whole TCP exchange, with any bytes following the request and the reply.
  lemma TcpExchange(bank: Bank, spec: RequestSpec, transaction: u16, unit: byte, later: seq<byte>, tail: seq<byte>)
    requires Accepted(spec)
    ensures BuildMbapFrame(transaction, unit, spec.pdu).Ok?
    ensures var served := ServeTcp(bank, unit, BuildMbapFrame(transaction, unit, spec.pdu).value + later);
            && served.Ok?
            && served.value.bank == ExpectedBank(bank, spec)
            && served.value.unread == later
            && ReceiveTcp(spec, transaction, unit, served.value.reply + tail) == Ok(ExpectedAnswer(bank, spec))
  {
    hide Process, ExpectedBank, ExpectedAnswer, ParseReply, BuildMbapFrame;
    hide Accepted, ValidateMbapHeader, ValidateSlaveMbapHeader;
    RequestFields(spec);
    RequestIsAnswered(bank, spec);
    RepliesFit(bank, spec.pdu);
    MbapHeaderOfFrame(transaction, unit, spec.pdu, later);
    MbapHeaderOfFrame(transaction, unit, Process(bank, spec.pdu).response.pdu, tail);
  }

  // ---------------------------------------------------------------- RTU

  function RtuFrame(unit: byte, pdu: seq<byte>): Result<seq<byte>, FrameError> {
    if pdu == [] || |pdu| > MAX_PDU then Err(BadPduLength)
    else Ok([unit] + pdu + ModbusCrc.LittleEndian(ModbusCrc.Crc([unit] + pdu)))
  }

  method BuildRtuFrame(unit: byte, pdu: seq<byte>) returns (r: Result<seq<byte>, FrameError>)
    ensures r == RtuFrame(unit, pdu)
    ensures r.Ok? ==> |r.value| == |pdu| + 3 && ModbusCrc.FrameCheckPasses(r.value)
  {
    if pdu == [] || |pdu| > MAX_PDU {
      return Err(BadPduLength);
    }
    var frame := [unit] + pdu;
    var crc := ModbusCrc.ModbusCrc16(frame);
    ModbusCrc.AppendedCrcPasses(frame);
    return Ok(frame + ModbusCrc.LittleEndian(crc));
  }

  lemma RtuFrameShape(unit: byte, pdu: seq<byte>)
    requires 1 <= |pdu| <= MAX_PDU
    ensures RtuFrame(unit, pdu).Ok?
    ensures var frame := RtuFrame(unit, pdu).value;
            && |frame| == |pdu| + 3
            && frame[0] == unit
            && frame[1..|frame| - 2] == pdu
            && ModbusCrc.FrameCheckPasses(frame)
  {
    ModbusCrc.AppendedCrcPasses([unit] + pdu);
  }

  // `expected_rtu_response_length`
  function ExpectedRtuLength(spec: RequestSpec, prefix: seq<byte>, unit: byte): Result<nat, FrameError>
    requires |prefix| == 3
  {
    var fc := spec.functionCode;
    if prefix[0] != unit then Err(WrongUnit)
    else if prefix[1] == ExceptionCode(fc) then Ok(5)
    else if prefix[1] != fc then Err(UnexpectedFunction)
    else match fc
      case 1 => CountedLength(prefix[2], (spec.quantity + 7) / 8)
      case 2 => CountedLength(prefix[2], (spec.quantity + 7) / 8)
      case 3 => CountedLength(prefix[2], 2 * spec.quantity)
      case 4 => CountedLength(prefix[2], 2 * spec.quantity)
      case 5 => Ok(8)
      case 6 => Ok(8)
      case 15 => Ok(8)
      case 16 => Ok(8)
      case _ => Err(UnexpectedFunction)
  }

  function CountedLength(count: byte, expected: nat): Result<nat, FrameError> {
    if count != expected then Err(BadByteCount) else Ok(expected + 5)
  }

  // The master's side of `exchange_rtu`: three bytes, then the length they imply.
  function ReceiveRtu(spec: RequestSpec, unit: byte, stream: seq<byte>): Result<Answer, FrameError> {
    if |stream| < 3 then Err(Truncated) else
    var length := ExpectedRtuLength(spec, stream[..3], unit);
    if length.Err? then Err(length.error) else
    if !(5 <= length.value <= MAX_RTU_FRAME) then Err(BadFrameLength) else
    if |stream| < length.value then Err(Truncated) else
    var frame := stream[..length.value];
    if !ModbusCrc.FrameCheckPasses(frame) then Err(CrcMismatch) else
    match ParseReply(spec, frame[1..|frame| - 2])
    case Ok(answer) => Ok(answer)
    case Err(error) => Err(BadReply(error))
  }

  datatype RtuOutcome = RtuOutcome(unit: byte, response: SlaveResponse, reply: Option<seq<byte>>)

  // `process_slave_rtu_frame` on values: the outcome (none for another unit) and the bank.
  function ServeRtu(bank: Bank, configured: byte, frame: seq<byte>): (Result<Option<RtuOutcome>, FrameError>, Bank) {
    if !(4 <= |frame| <= MAX_RTU_FRAME) then (Err(BadFrameLength), bank)
    else if !ModbusCrc.FrameCheckPasses(frame) then (Err(CrcMismatch), bank)
    else if frame[0] != 0 && frame[0] != configured then (Ok(None), bank)
    else
      var outcome := Process(bank, frame[1..|frame| - 2]);
      if frame[0] == 0 then (Ok(Some(RtuOutcome(0, outcome.response, None))), outcome.bank)
      else match RtuFrame(configured, outcome.response.pdu)
        case Ok(reply) => (Ok(Some(RtuOutcome(frame[0], outcome.response, Some(reply)))), outcome.bank)
        case Err(error) => (Err(error), outcome.bank)
  }

  method ProcessSlaveRtuFrame(bank: SlaveBank, configured: byte, frame: seq<byte>)
    returns (r: Result<Option<RtuOutcome>, FrameError>)
    modifies bank
    ensures (r, bank.View()) == ServeRtu(old(bank.View()), configured, frame)
  {
    if !(4 <= |frame| <= MAX_RTU_FRAME) {
      return Err(BadFrameLength);
    }
    var n := |frame| - 2;
    var expected := ModbusCrc.ModbusCrc16(frame[..n]);
    assert frame == frame[..n] + frame[n..];
    ModbusCrc.RegisterOfPrefix(frame[..n], frame[n..], n);
    if ModbusCrc.FromLittleEndian(frame[n], frame[n + 1]) != expected {
      return Err(CrcMismatch);
    }
    if frame[0] != 0 && frame[0] != configured {
      return Ok(None);
    }
    var response := bank.ProcessSlavePdu(frame[1..n]);
    if frame[0] == 0 {
      return Ok(Some(RtuOutcome(0, response, None)));
    }
    var reply := BuildRtuFrame(configured, response.pdu);
    if reply.Err? {
      return Err(reply.error);
    }
    return Ok(Some(RtuOutcome(frame[0], response, Some(reply.value))));
  }

  // The length the master predicts from three bytes is the length of the real reply,
  // for a normal reply and for any exception reply.
  lemma PredictedLengthIsRight(bank: Bank, spec: RequestSpec, unit: byte)
    requires Accepted(spec)
    ensures var reply := RtuFrame(unit, Process(bank, spec.pdu).response.pdu);
            && reply.Ok?
            && ExpectedRtuLength(spec, reply.value[..3], unit) == Ok(|reply.value|)
            && 5 <= |reply.value| <= MAX_RTU_FRAME
  {
    hide Process, Accepted, RtuFrame, ParseReply, ExpectedAnswer;
    var pdu := Process(bank, spec.pdu).response.pdu;
    RepliesFit(bank, spec.pdu);
    RequestIsAnswered(bank, spec);
    PredictedLengthOfParsed(spec, unit, pdu);
  }

  lemma PredictedLengthOfParsed(spec: RequestSpec, unit: byte, pdu: seq<byte>)
    requires ParseReply(spec, pdu).Ok? && |pdu| <= MAX_PDU
    ensures var reply := RtuFrame(unit, pdu);
            && reply.Ok?
            && ExpectedRtuLength(spec, reply.value[..3], unit) == Ok(|reply.value|)
            && 5 <= |reply.value| <= MAX_RTU_FRAME
  {
    hide RtuFrame, ParseReply;
    ParsedShape(spec, pdu);
    RtuFrameShape(unit, pdu);
    var frame := RtuFrame(unit, pdu).value;
    assert frame[1] == frame[1..|frame| - 2][0] && frame[2] == frame[1..|frame| - 2][1];
  }

  lemma PredictedLengthOfException(spec: RequestSpec, unit: byte, code: byte)
    ensures var reply := RtuFrame(unit, [ExceptionCode(spec.functionCode), code]);
            && reply.Ok?
            && ExpectedRtuLength(spec, reply.value[..3], unit) == Ok(|reply.value|)
  {
    RtuFrameShape(unit, [ExceptionCode(spec.functionCode), code]);
  }

  // A whole RTU exchange with a slave that is addressed, with any bytes after the reply.
  lemma RtuExchange(bank: Bank, spec: RequestSpec, unit: byte, tail: seq<byte>)
    requires Accepted(spec) && unit != 0
    ensures RtuFrame(unit, spec.pdu).Ok?
    ensures var (outcome, after) := ServeRtu(bank, unit, RtuFrame(unit, spec.pdu).value);
            && after == ExpectedBank(bank, spec)
            && outcome.Ok? && outcome.value.Some? && outcome.value.value.reply.Some?
            && ReceiveRtu(spec, unit, outcome.value.value.reply.value + tail) == Ok(ExpectedAnswer(bank, spec))
  {
    hide Process, ExpectedBank, ExpectedAnswer, ParseReply, RtuFrame, ExpectedRtuLength, Accepted, ReceiveRtu;
    hide ModbusCrc.FrameCheckPasses, Start, Quantity, AsBits;
    RequestFields(spec);
    RequestIsAnswered(bank, spec);
    RepliesFit(bank, spec.pdu);
    RtuFrameShape(unit, spec.pdu);
    var pdu := Process(bank, spec.pdu).response.pdu;
    RtuFrameShape(unit, pdu);
    PredictedLengthIsRight(bank, spec, unit);
    ReceivesFrame(spec, unit, pdu, tail);
  }

  // The master cuts a frame of the predicted length off the stream and reads its PDU.
  lemma ReceivesFrame(spec: RequestSpec, unit: byte, pdu: seq<byte>, tail: seq<byte>)
    requires 1 <= |pdu| <= MAX_PDU && RtuFrame(unit, pdu).Ok? && ParseReply(spec, pdu).Ok?
    requires var frame := RtuFrame(unit, pdu).value;
             5 <= |frame| <= MAX_RTU_FRAME && ExpectedRtuLength(spec, frame[..3], unit) == Ok(|frame|)
    ensures ReceiveRtu(spec, unit, RtuFrame(unit, pdu).value + tail) == Ok(ParseReply(spec, pdu).value)
  {
    hide RtuFrame, ParseReply, ExpectedRtuLength, ModbusCrc.FrameCheckPasses;
    RtuFrameShape(unit, pdu);
    var frame := RtuFrame(unit, pdu).value;
    DropJoined(frame, tail, 3);
    DropJoined(frame, tail, |frame|);
    assert frame[..|frame|] == frame;
  }

  // A broadcast write reaches every slave, changes its bank and is never answered; the
  // acknowledgement the master makes up parses as the answer that slave would have given.
  lemma RtuBroadcast(bank: Bank, spec: RequestSpec, configured: byte)
    requires Accepted(spec) && spec.functionCode >= 5
    ensures RtuFrame(0, spec.pdu).Ok? && BroadcastAck(spec).Some?
    ensures var (outcome, after) := ServeRtu(bank, configured, RtuFrame(0, spec.pdu).value);
            && after == ExpectedBank(bank, spec)
            && outcome.Ok? && outcome.value.Some? && outcome.value.value.reply == None
            && ParseReply(spec, BroadcastAck(spec).value) == Ok(ExpectedAnswer(bank, spec))
  {
    hide Process, ExpectedBank, ExpectedAnswer, ParseReply, RtuFrame, Accepted, BroadcastAck;
    RequestFields(spec);
    BroadcastAckIsTheReply(bank, spec);
    RequestIsAnswered(bank, spec);
    RtuFrameShape(0, spec.pdu);
  }

  // A frame for another unit, or one whose check fails, changes nothing and is not answered.
  lemma OtherFramesChangeNothing(bank: Bank, configured: byte, frame: seq<byte>)
    requires |frame| >= 2 ==> !ModbusCrc.FrameCheckPasses(frame) || (frame[0] != 0 && frame[0] != configured)
    ensures ServeRtu(bank, configured, frame).1 == bank
    ensures var outcome := ServeRtu(bank, configured, frame).0; outcome.Err? || outcome.value == None
  {}
}
