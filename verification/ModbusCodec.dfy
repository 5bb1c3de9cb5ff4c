// Modbus requests, the slave that answers them, and the master that reads the answers
// (src-tauri/src/modbus.rs): the request builder, the PDU processor over four register
// tables and the response parser. ModbusFrames carries them.
module ModbusCodec {
  import opened Common
  import opened ModbusBytes
  import opened ModbusPacking

  // ---------------------------------------------------------------- building a request

  datatype RequestError =
    | UnsupportedFunction
    | ZeroQuantity
    | RangeOverflow
    | RangeTooHigh
    | ValueTooLarge
    | QuantityOutOfRange
    | UnexpectedValues
    | WrongValues
    | PduTooLong

  datatype RequestSpec = RequestSpec(
    functionCode: byte,
    startAddress: u16,
    quantity: u16,
    values: seq<u16>,
    pdu: seq<byte>)

  const MAX_PDU: nat := 253

  // `validate_address_range`; the arguments are u32 and the quantity is narrowed.
  function ValidateAddressRange(start: nat, quantity: nat): (r: Result<(u16, u16), RequestError>)
    ensures r.Ok? <==> 0 < quantity && start + quantity <= 0x1_0000
    ensures r.Ok? ==> r.value == (start, quantity % 0x1_0000)
  {
    if quantity == 0 then Err(ZeroQuantity)
    else if start + quantity >= 0x1_0000_0000 then Err(RangeOverflow)
    else if start > 0xffff || start + quantity > 0x1_0000 then Err(RangeTooHigh)
    else Ok((start, quantity % 0x1_0000))
  }

  predicate AllWords(values: seq<nat>) {
    forall i :: 0 <= i < |values| ==> values[i] < 0x1_0000
  }

  function AsWords(values: seq<nat>): (r: seq<u16>)
    requires AllWords(values)
    ensures |r| == |values| && forall i :: 0 <= i < |r| ==> r[i] == values[i]
  {
    seq(|values|, i requires 0 <= i < |values| => values[i])
  }

  function AsBits(values: seq<u16>): (r: seq<bool>)
    ensures |r| == |values|
  {
    seq(|values|, i requires 0 <= i < |values| => values[i] != 0)
  }

  // The quantity limits of the application protocol, per function code.
  function QuantityLimit(functionCode: byte): nat {
    match functionCode
    case 1 => 2000
    case 2 => 2000
    case 3 => 125
    case 4 => 125
    case 5 => 1
    case 6 => 1
    case 15 => 1968
    case 16 => 123
    case _ => 0
  }

  predicate ValuesSuit(functionCode: byte, quantity: nat, values: seq<u16>) {
    match functionCode
    case 5 => |values| == 1 && (values[0] == 0 || values[0] == 1 || values[0] == 0xff00)
    case 6 => |values| == 1
    case 15 => |values| == quantity && forall i :: 0 <= i < |values| ==> values[i] <= 1
    case 16 => |values| == quantity
    case _ => values == []
  }

  // The values the spec keeps: a coil value is normalised to 0 or 0xFF00.
  function KeptValues(functionCode: byte, values: seq<u16>): seq<u16> {
    if functionCode == 5 && |values| == 1 then [if values[0] == 0 then 0 else 0xff00] else values
  }

  // What follows the function code and the start address.
  function RequestTail(functionCode: byte, quantity: u16, values: seq<u16>): seq<byte> {
    if (functionCode == 5 || functionCode == 6) && |values| == 1 then BigEndian(values[0])
    else if functionCode == 15 && BytesForBits(|values|) < 256 then
      BigEndian(quantity) + [BytesForBits(|values|)] + Pack(AsBits(values))
    else if functionCode == 16 && 2 * |values| < 256 then
      BigEndian(quantity) + [2 * |values|] + WordBytes(values)
    else BigEndian(quantity)
  }

  function RequestOf(functionCode: nat, start: nat, quantity: nat, values: seq<nat>)
    : Result<RequestSpec, RequestError>
  {
    if functionCode >= 256 then Err(UnsupportedFunction) else
    var range := ValidateAddressRange(start, quantity);
    if range.Err? then Err(range.error) else
    if !AllWords(values) then Err(ValueTooLarge) else
    var words := AsWords(values);
    var limit := QuantityLimit(functionCode);
    if limit == 0 then Err(UnsupportedFunction) else
    if quantity > limit then Err(QuantityOutOfRange) else
    if !ValuesSuit(functionCode, quantity, words) then
      Err(if functionCode <= 4 then UnexpectedValues else WrongValues) else
    var kept := KeptValues(functionCode, words);
    var pdu := [functionCode] + BigEndian(start) + RequestTail(functionCode, range.value.1, kept);
    if |pdu| > MAX_PDU then Err(PduTooLong) else
    Ok(RequestSpec(functionCode, start, range.value.1, kept, pdu))
  }

  method BuildRequestSpec(functionCode: nat, start: nat, quantity: nat, values: seq<nat>)
    returns (r: Result<RequestSpec, RequestError>)
    ensures r == RequestOf(functionCode, start, quantity, values)
  {
    if functionCode >= 256 {
      return Err(UnsupportedFunction);
    }
    var range := ValidateAddressRange(start, quantity);
    if range.Err? {
      return Err(range.error);
    }
    var words: seq<u16> := [];
    for i := 0 to |values|
      invariant |words| == i
      invariant forall k :: 0 <= k < i ==> values[k] < 0x1_0000 && words[k] == values[k]
    {
      if values[i] >= 0x1_0000 {
        return Err(ValueTooLarge);
      }
      words := words + [values[i]];
    }
    assert words == AsWords(values);
    var pdu: seq<byte> := [functionCode] + BigEndian(start);
    var narrowed := range.value.1;
    match functionCode {
      case 1 | 2 | 3 | 4 =>
        if quantity > QuantityLimit(functionCode) { return Err(QuantityOutOfRange); }
        if words != [] { return Err(UnexpectedValues); }
        pdu := pdu + BigEndian(narrowed);
      case 5 =>
        if quantity > 1 { return Err(QuantityOutOfRange); }
        if |words| != 1 || !(words[0] == 0 || words[0] == 1 || words[0] == 0xff00) { return Err(WrongValues); }
        words := [if words[0] == 0 then 0 else 0xff00];
        pdu := pdu + BigEndian(words[0]);
      case 6 =>
        if quantity > 1 { return Err(QuantityOutOfRange); }
        if |words| != 1 { return Err(WrongValues); }
        pdu := pdu + BigEndian(words[0]);
      case 15 =>
        if quantity > 1968 { return Err(QuantityOutOfRange); }
        if |words| != quantity || exists i :: 0 <= i < |words| && words[i] > 1 { return Err(WrongValues); }
        var data := PackBits(AsBits(words));
        pdu := pdu + (BigEndian(narrowed) + [BytesForBits(quantity)] + data);
      case 16 =>
        if quantity > 123 { return Err(QuantityOutOfRange); }
        if |words| != quantity { return Err(WrongValues); }
        var tail := AppendWords(BigEndian(narrowed) + [2 * |words|], words);
        pdu := pdu + tail;
      case _ =>
        return Err(UnsupportedFunction);
    }
    if |pdu| > MAX_PDU {
      return Err(PduTooLong);
    }
    return Ok(RequestSpec(functionCode, start, narrowed, words, pdu));
  }

  // What an accepted request looks like; nothing else is ever built.
  predicate Accepted(spec: RequestSpec) {
    var fc, n := spec.functionCode, spec.quantity;
    && fc in {1, 2, 3, 4, 5, 6, 15, 16}
    && 1 <= n <= QuantityLimit(fc)
    && spec.startAddress + n <= 0x1_0000
    && ValuesSuit(fc, n, spec.values)
    && (fc == 5 ==> |spec.values| == 1 && (spec.values[0] == 0 || spec.values[0] == 0xff00))
    && spec.pdu == [fc] + BigEndian(spec.startAddress) + RequestTail(fc, n, spec.values)
  }

  // Where a receiver finds the fields of an accepted request.
  lemma RequestFields(spec: RequestSpec)
    requires Accepted(spec)
    ensures 5 <= |spec.pdu| <= MAX_PDU
    ensures spec.pdu[0] == spec.functionCode && Start(spec.pdu) == spec.startAddress
    ensures spec.functionCode <= 6 ==> |spec.pdu| == 5
    ensures spec.functionCode in {5, 6} ==> |spec.values| == 1 && Quantity(spec.pdu) == spec.values[0]
    ensures spec.functionCode !in {5, 6} ==> Quantity(spec.pdu) == spec.quantity
    ensures spec.functionCode == 15 ==>
              |spec.pdu| >= 6 && spec.pdu[5] == BytesForBits(spec.quantity)
                && spec.pdu[6..] == Pack(AsBits(spec.values))
    ensures spec.functionCode == 16 ==>
              |spec.pdu| >= 6 && spec.pdu[5] == 2 * spec.quantity && spec.pdu[6..] == WordBytes(spec.values)
  {
    hide Pack, WordBytes, AsBits;
    var head := [spec.functionCode] + BigEndian(spec.startAddress);
    var tail := RequestTail(spec.functionCode, spec.quantity, spec.values);
    assert spec.pdu[3..] == tail;
  }

  // What the builder asks of its arguments.
  predicate Wellformed(functionCode: nat, start: nat, quantity: nat, values: seq<nat>) {
    && functionCode in {1, 2, 3, 4, 5, 6, 15, 16}
    && 1 <= quantity <= QuantityLimit(functionCode)
    && start + quantity <= 0x1_0000
    && AllWords(values)
    && ValuesSuit(functionCode, quantity, AsWords(values))
  }

  // The builder accepts exactly the well-formed arguments, and puts them, unchanged but
  // for the encoding of a single coil, into an accepted request.
  lemma BuiltRequestsAreAccepted(functionCode: nat, start: nat, quantity: nat, values: seq<nat>)
    ensures RequestOf(functionCode, start, quantity, values).Ok? <==> Wellformed(functionCode, start, quantity, values)
    ensures RequestOf(functionCode, start, quantity, values).Ok? ==>
              var spec := RequestOf(functionCode, start, quantity, values).value;
              && Accepted(spec)
              && spec.functionCode == functionCode && spec.startAddress == start && spec.quantity == quantity
              && |spec.values| == |values|
              && forall i :: 0 <= i < |values| ==>
                   spec.values[i] == if functionCode == 5 && values[i] == 1 then 0xff00 else values[i]
  {
    hide RequestOf, RequestTail, BigEndian, ValuesSuit, KeptValues, AsWords, QuantityLimit;
    AcceptedArguments(functionCode, start, quantity, values);
    if Wellformed(functionCode, start, quantity, values) {
      KeptValuesSuit(functionCode, quantity, AsWords(values));
    }
  }

  lemma AcceptedArguments(functionCode: nat, start: nat, quantity: nat, values: seq<nat>)
    ensures RequestOf(functionCode, start, quantity, values).Ok? <==> Wellformed(functionCode, start, quantity, values)
    ensures Wellformed(functionCode, start, quantity, values) ==>
              var kept := KeptValues(functionCode, AsWords(values));
              RequestOf(functionCode, start, quantity, values).value ==
                RequestSpec(functionCode, start, quantity, kept,
                  [functionCode] + BigEndian(start) + RequestTail(functionCode, quantity, kept))
  {
    BuiltRequestsFit(functionCode, start, quantity, values);
    hide RequestTail, BigEndian, ValuesSuit, KeptValues, AsWords, AllWords;
    if functionCode < 256 {
      SupportedCodes(functionCode);
      hide QuantityLimit;
    }
  }

  lemma KeptValuesSuit(functionCode: byte, quantity: nat, values: seq<u16>)
    requires ValuesSuit(functionCode, quantity, values)
    ensures ValuesSuit(functionCode, quantity, KeptValues(functionCode, values))
    ensures functionCode == 5 ==> var kept := KeptValues(functionCode, values);
              |kept| == 1 && (kept[0] == 0 || kept[0] == 0xff00)
    ensures |KeptValues(functionCode, values)| == |values|
    ensures forall i :: 0 <= i < |values| ==>
              KeptValues(functionCode, values)[i] == if functionCode == 5 && values[i] == 1 then 0xff00 else values[i]
  {}

  lemma SupportedCodes(functionCode: byte)
    ensures QuantityLimit(functionCode) > 0 <==> functionCode in {1, 2, 3, 4, 5, 6, 15, 16}
    ensures QuantityLimit(functionCode) <= 2000
  {}

  // The length check at the end of the builder never fires.
  lemma BuiltRequestsFit(functionCode: nat, start: nat, quantity: nat, values: seq<nat>)
    ensures RequestOf(functionCode, start, quantity, values) != Err(PduTooLong)
  {}

  // ---------------------------------------------------------------- the slave

  datatype Bank = Bank(
    holding: map<u16, u16>,
    coils: map<u16, bool>,
    inputs: map<u16, u16>,
    discretes: map<u16, bool>)

  // `SlavePduResponse`
  datatype SlaveResponse = SlaveResponse(
    pdu: seq<byte>,
    functionCode: byte,
    startAddress: Option<u16>,
    quantity: Option<u16>,
    values: Option<seq<u16>>)

  datatype Outcome = Outcome(response: SlaveResponse, bank: Bank)

  function GetBit(table: map<u16, bool>, address: u16): bool {
    if address in table then table[address] else false
  }

  function GetWord(table: map<u16, u16>, address: u16): u16 {
    if address in table then table[address] else 0
  }

  function ReadBits(table: map<u16, bool>, start: u16, n: nat): (r: seq<bool>)
    requires start + n <= 0x1_0000
    ensures |r| == n
  {
    seq(n, i requires 0 <= i < n => GetBit(table, start + i))
  }

  function ReadWords(table: map<u16, u16>, start: u16, n: nat): (r: seq<u16>)
    requires start + n <= 0x1_0000
    ensures |r| == n
  {
    seq<u16>(n, i requires 0 <= i < n => GetWord(table, start + i))
  }

  predicate InRange(address: u16, start: u16, n: nat) { start <= address < start + n }

  function Range(start: u16, n: nat): set<u16> {
    set a: u16 | InRange(a, start, n)
  }

  // A table after writing `values` at consecutive addresses from `start`.
  function Write<T>(table: map<u16, T>, start: u16, values: seq<T>): (r: map<u16, T>)
    requires start + |values| <= 0x1_0000
    ensures r.Keys == table.Keys + Range(start, |values|)
    ensures forall a :: a in r ==>
              r[a] == if InRange(a, start, |values|) then values[a - start] else table[a]
  {
    map a | a in table.Keys + Range(start, |values|) ::
      if InRange(a, start, |values|) then values[a - start] else table[a]
  }

  // `function_code | 0x80`
  function ExceptionCode(functionCode: byte): byte {
    if functionCode < 128 then functionCode + 128 else functionCode
  }

  function SlaveException(functionCode: byte, code: byte, start: Option<u16>, quantity: Option<u16>): SlaveResponse {
    SlaveResponse([ExceptionCode(functionCode), code], functionCode, start, quantity, None)
  }

  function Start(pdu: seq<byte>): u16
    requires |pdu| >= 5
  {
    FromBigEndian(pdu[1], pdu[2])
  }

  function Quantity(pdu: seq<byte>): u16
    requires |pdu| >= 5
  {
    FromBigEndian(pdu[3], pdu[4])
  }

  // The two checks every ranged request goes through, in the order the slave makes them.
  function RangeProblem(functionCode: byte, pdu: seq<byte>): Option<SlaveResponse>
    requires |pdu| >= 5
  {
    var start, n := Start(pdu), Quantity(pdu);
    if !(1 <= n <= QuantityLimit(functionCode)) then Some(SlaveException(functionCode, 3, Some(start), Some(n)))
    else if start + n > 0x1_0000 then Some(SlaveException(functionCode, 2, Some(start), Some(n)))
    else None
  }

  function ProcessReadBits(bank: Bank, pdu: seq<byte>): SlaveResponse
    requires |pdu| > 0 && pdu[0] in {1, 2}
  {
    var fc := pdu[0];
    if |pdu| != 5 then SlaveException(fc, 3, None, None) else
    var problem := RangeProblem(fc, pdu);
    if problem.Some? then problem.value else
    var start, n := Start(pdu), Quantity(pdu);
    var bits := ReadBits(if fc == 1 then bank.coils else bank.discretes, start, n);
    SlaveResponse([fc, BytesForBits(n)] + Pack(bits), fc, Some(start), Some(n), None)
  }

  function ProcessReadWords(bank: Bank, pdu: seq<byte>): SlaveResponse
    requires |pdu| > 0 && pdu[0] in {3, 4}
  {
    var fc := pdu[0];
    if |pdu| != 5 then SlaveException(fc, 3, None, None) else
    var problem := RangeProblem(fc, pdu);
    if problem.Some? then problem.value else
    var start, n := Start(pdu), Quantity(pdu);
    var words := ReadWords(if fc == 3 then bank.holding else bank.inputs, start, n);
    SlaveResponse([fc, 2 * n] + WordBytes(words), fc, Some(start), Some(n), None)
  }

  function ProcessWriteCoil(bank: Bank, pdu: seq<byte>): Outcome
    requires |pdu| > 0 && pdu[0] == 5
  {
    if |pdu| != 5 then Outcome(SlaveException(5, 3, None, None), bank) else
    var address, encoded := Start(pdu), Quantity(pdu);
    if encoded != 0 && encoded != 0xff00 then Outcome(SlaveException(5, 3, Some(address), Some(1)), bank) else
    var value := encoded == 0xff00;
    Outcome(
      SlaveResponse(pdu, 5, Some(address), Some(1), Some([if value then 1 else 0])),
      bank.(coils := bank.coils[address := value]))
  }

  function ProcessWriteWord(bank: Bank, pdu: seq<byte>): Outcome
    requires |pdu| > 0 && pdu[0] == 6
  {
    if |pdu| != 5 then Outcome(SlaveException(6, 3, None, None), bank) else
    var address, value := Start(pdu), Quantity(pdu);
    Outcome(
      SlaveResponse(pdu, 6, Some(address), Some(1), Some([value])),
      bank.(holding := bank.holding[address := value]))
  }

  function BitsAsWords(bits: seq<bool>): (r: seq<u16>)
    ensures |r| == |bits|
  {
    seq(|bits|, i requires 0 <= i < |bits| => if bits[i] then 1 else 0)
  }

  function ProcessWriteCoils(bank: Bank, pdu: seq<byte>): Outcome
    requires |pdu| > 0 && pdu[0] == 15
  {
    if |pdu| < 6 then Outcome(SlaveException(15, 3, None, None), bank) else
    var problem := RangeProblem(15, pdu);
    if problem.Some? then Outcome(problem.value, bank) else
    var start, n := Start(pdu), Quantity(pdu);
    if pdu[5] != BytesForBits(n) || |pdu| != 6 + pdu[5] then
      Outcome(SlaveException(15, 3, Some(start), Some(n)), bank)
    else
      var bits := Unpack(pdu[6..], n);
      Outcome(
        SlaveResponse([15] + BigEndian(start) + BigEndian(n), 15, Some(start), Some(n), Some(BitsAsWords(bits))),
        bank.(coils := Write(bank.coils, start, bits)))
  }

  function ProcessWriteWords(bank: Bank, pdu: seq<byte>): Outcome
    requires |pdu| > 0 && pdu[0] == 16
  {
    if |pdu| < 6 then Outcome(SlaveException(16, 3, None, None), bank) else
    var problem := RangeProblem(16, pdu);
    if problem.Some? then Outcome(problem.value, bank) else
    var start, n := Start(pdu), Quantity(pdu);
    if pdu[5] != 2 * n || |pdu| != 6 + pdu[5] then
      Outcome(SlaveException(16, 3, Some(start), Some(n)), bank)
    else
      var words := WordsOf(pdu[6..]);
      Outcome(
        SlaveResponse([16] + BigEndian(start) + BigEndian(n), 16, Some(start), Some(n), Some(words)),
        bank.(holding := Write(bank.holding, start, words)))
  }

  // `process_slave_pdu` on values.
  function Process(bank: Bank, pdu: seq<byte>): Outcome {
    if pdu == [] then Outcome(SlaveException(0, 1, None, None), bank)
    else match pdu[0]
      case 1 => Outcome(ProcessReadBits(bank, pdu), bank)
      case 2 => Outcome(ProcessReadBits(bank, pdu), bank)
      case 3 => Outcome(ProcessReadWords(bank, pdu), bank)
      case 4 => Outcome(ProcessReadWords(bank, pdu), bank)
      case 5 => ProcessWriteCoil(bank, pdu)
      case 6 => ProcessWriteWord(bank, pdu)
      case 15 => ProcessWriteCoils(bank, pdu)
      case 16 => ProcessWriteWords(bank, pdu)
      case _ => Outcome(SlaveException(pdu[0], 1, None, None), bank)
  }

  // `ModbusSlaveBank`, whose tables the processor changes in place.
  class SlaveBank {
    var holding: map<u16, u16>
    var coils: map<u16, bool>
    var inputs: map<u16, u16>
    var discretes: map<u16, bool>

    function View(): Bank
      reads this
    {
      Bank(holding, coils, inputs, discretes)
    }

    constructor (bank: Bank)
      ensures View() == bank
    {
      holding, coils, inputs, discretes := bank.holding, bank.coils, bank.inputs, bank.discretes;
    }

    method CollectBits(functionCode: byte, start: u16, n: nat) returns (data: seq<byte>)
      requires functionCode in {1, 2} && start + n <= 0x1_0000
      ensures data == Pack(ReadBits(if functionCode == 1 then coils else discretes, start, n))
    {
      var bits: seq<bool> := [];
      for offset := 0 to n
        invariant |bits| == offset
        invariant forall k :: 0 <= k < offset ==>
                    bits[k] == GetBit(if functionCode == 1 then coils else discretes, start + k)
      {
        bits := bits + [GetBit(if functionCode == 1 then coils else discretes, start + offset)];
      }
      assert bits == ReadBits(if functionCode == 1 then coils else discretes, start, n);
      data := PackBits(bits);
    }

    method CollectWords(functionCode: byte, start: u16, n: nat) returns (data: seq<byte>)
      requires functionCode in {3, 4} && start + n <= 0x1_0000
      ensures data == WordBytes(ReadWords(if functionCode == 3 then holding else inputs, start, n))
    {
      var words: seq<u16> := [];
      for offset := 0 to n
        invariant |words| == offset
        invariant forall k :: 0 <= k < offset ==>
                    words[k] == GetWord(if functionCode == 3 then holding else inputs, start + k)
      {
        words := words + [GetWord(if functionCode == 3 then holding else inputs, start + offset)];
      }
      assert words == ReadWords(if functionCode == 3 then holding else inputs, start, n);
      data := AppendWords([], words);
      assert data == WordBytes(words);
    }

    method WriteCoilRange(start: u16, bits: seq<bool>)
      requires start + |bits| <= 0x1_0000
      modifies this`coils
      ensures coils == Write(old(coils), start, bits)
    {
      for offset := 0 to |bits|
        invariant coils == Write(old(coils), start, bits[..offset])
      {
        coils := coils[start + offset := bits[offset]];
      }
      assert bits[..|bits|] == bits;
    }

    method WriteWordRange(start: u16, words: seq<u16>)
      requires start + |words| <= 0x1_0000
      modifies this`holding
      ensures holding == Write(old(holding), start, words)
    {
      for offset := 0 to |words|
        invariant holding == Write(old(holding), start, words[..offset])
      {
        holding := holding[start + offset := words[offset]];
      }
      assert words[..|words|] == words;
    }

    // `process_slave_pdu`
    method ProcessSlavePdu(pdu: seq<byte>) returns (r: SlaveResponse)
      modifies this
      ensures Outcome(r, View()) == Process(old(View()), pdu)
    {
      if pdu == [] {
        return SlaveException(0, 1, None, None);
      }
      var fc := pdu[0];
      match fc {
        case 1 | 2 =>
          if |pdu| != 5 { return SlaveException(fc, 3, None, None); }
          var problem := RangeProblem(fc, pdu);
          if problem.Some? { return problem.value; }
          var start, n := Start(pdu), Quantity(pdu);
          var data := CollectBits(fc, start, n);
          r := SlaveResponse([fc, BytesForBits(n)] + data, fc, Some(start), Some(n), None);
        case 3 | 4 =>
          if |pdu| != 5 { return SlaveException(fc, 3, None, None); }
          var problem := RangeProblem(fc, pdu);
          if problem.Some? { return problem.value; }
          var start, n := Start(pdu), Quantity(pdu);
          var data := CollectWords(fc, start, n);
          r := SlaveResponse([fc, 2 * n] + data, fc, Some(start), Some(n), None);
        case 5 =>
          if |pdu| != 5 { return SlaveException(fc, 3, None, None); }
          var address, encoded := Start(pdu), Quantity(pdu);
          if encoded != 0 && encoded != 0xff00 { return SlaveException(fc, 3, Some(address), Some(1)); }
          var value := encoded == 0xff00;
          coils := coils[address := value];
          r := SlaveResponse(pdu, fc, Some(address), Some(1), Some([if value then 1 else 0]));
        case 6 =>
          if |pdu| != 5 { return SlaveException(fc, 3, None, None); }
          var address, value := Start(pdu), Quantity(pdu);
          holding := holding[address := value];
          r := SlaveResponse(pdu, fc, Some(address), Some(1), Some([value]));
        case 15 =>
          if |pdu| < 6 { return SlaveException(fc, 3, None, None); }
          var problem := RangeProblem(fc, pdu);
          if problem.Some? { return problem.value; }
          var start, n := Start(pdu), Quantity(pdu);
          if pdu[5] != BytesForBits(n) || |pdu| != 6 + pdu[5] {
            return SlaveException(fc, 3, Some(start), Some(n));
          }
          var bits := Unpack(pdu[6..], n);
          WriteCoilRange(start, bits);
          r := SlaveResponse([fc] + BigEndian(start) + BigEndian(n), fc, Some(start), Some(n), Some(BitsAsWords(bits)));
        case 16 =>
          if |pdu| < 6 { return SlaveException(fc, 3, None, None); }
          var problem := RangeProblem(fc, pdu);
          if problem.Some? { return problem.value; }
          var start, n := Start(pdu), Quantity(pdu);
          if pdu[5] != 2 * n || |pdu| != 6 + pdu[5] {
            return SlaveException(fc, 3, Some(start), Some(n));
          }
          var words := WordsOf(pdu[6..]);
          WriteWordRange(start, words);
          r := SlaveResponse([fc] + BigEndian(start) + BigEndian(n), fc, Some(start), Some(n), Some(words));
        case _ =>
          r := SlaveException(fc, 1, None, None);
      }
    }
  }

  // ---------------------------------------------------------------- every byte string

  predicate IsException(response: SlaveResponse) {
    response.pdu != [] && response.pdu[0] >= 128
  }

  // Whatever bytes arrive, the reply is a legal PDU, so framing it cannot fail.
  lemma RepliesFit(bank: Bank, pdu: seq<byte>)
    ensures 1 <= |Process(bank, pdu).response.pdu| <= MAX_PDU
  {
    hide Pack, WordBytes, ReadBits, ReadWords, WordsOf, Unpack, Write, BitsAsWords;
  }

  // Whatever bytes arrive, an exception reply means nothing was written, and the tables
  // a master may only read are never written.
  lemma ExceptionsWriteNothing(bank: Bank, pdu: seq<byte>)
    ensures IsException(Process(bank, pdu).response) ==> Process(bank, pdu).bank == bank
    ensures Process(bank, pdu).bank.inputs == bank.inputs
    ensures Process(bank, pdu).bank.discretes == bank.discretes
  {
    hide Pack, WordBytes, ReadBits, ReadWords, WordsOf, Unpack, Write, BitsAsWords;
  }

  // ---------------------------------------------------------------- reading a reply

  datatype Answer =
    | Registers(words: seq<u16>)
    | Coils(bits: seq<bool>)
    | Written(count: u16)

  datatype ReplyError =
    | EmptyReply
    | BadExceptionLength
    | SlaveSaid(code: byte)
    | WrongFunction
    | BadLength
    | NotEchoed
    | UnsupportedReply

  // `parse_response_pdu`
  function ParseReply(spec: RequestSpec, pdu: seq<byte>): Result<Answer, ReplyError> {
    var fc, n := spec.functionCode, spec.quantity;
    if pdu == [] then Err(EmptyReply)
    else if pdu[0] == ExceptionCode(fc) then
      if |pdu| != 2 then Err(BadExceptionLength) else Err(SlaveSaid(pdu[1]))
    else if pdu[0] != fc then Err(WrongFunction)
    else match fc
      case 1 => ParseBits(n, pdu)
      case 2 => ParseBits(n, pdu)
      case 3 => ParseWords(n, pdu)
      case 4 => ParseWords(n, pdu)
      case 5 => ParseEcho(spec, pdu)
      case 6 => ParseEcho(spec, pdu)
      case 15 => ParseCount(spec, pdu)
      case 16 => ParseCount(spec, pdu)
      case _ => Err(UnsupportedReply)
  }

  function ParseBits(n: u16, pdu: seq<byte>): Result<Answer, ReplyError> {
    if |pdu| < 2 || pdu[1] != BytesForBits(n) || |pdu| - 2 != pdu[1] then Err(BadLength)
    else Ok(Coils(Unpack(pdu[2..], n)))
  }

  function ParseWords(n: u16, pdu: seq<byte>): Result<Answer, ReplyError> {
    if |pdu| < 2 || pdu[1] != 2 * n || |pdu| - 2 != pdu[1] then Err(BadLength)
    else Ok(Registers(WordsOf(pdu[2..])))
  }

  function ParseEcho(spec: RequestSpec, pdu: seq<byte>): Result<Answer, ReplyError> {
    if |pdu| != 5 then Err(BadLength)
    else if Start(pdu) != spec.startAddress || spec.values == [] || Quantity(pdu) != spec.values[0] then Err(NotEchoed)
    else Ok(Written(1))
  }

  function ParseCount(spec: RequestSpec, pdu: seq<byte>): Result<Answer, ReplyError> {
    if |pdu| != 5 then Err(BadLength)
    else if Start(pdu) != spec.startAddress || Quantity(pdu) != spec.quantity then Err(NotEchoed)
    else Ok(Written(Quantity(pdu)))
  }

  // The register parser is the inverse of the register encoding and accepts nothing else.
  lemma WordRepliesAreExact(spec: RequestSpec, pdu: seq<byte>, words: seq<u16>)
    requires spec.functionCode in {3, 4}
    ensures ParseReply(spec, pdu) == Ok(Registers(words)) <==>
            && |words| == spec.quantity && 2 * |words| < 256
            && pdu == [spec.functionCode, 2 * |words|] + WordBytes(words)
  {
    if |pdu| >= 2 && |pdu| == 2 * spec.quantity + 2 {
      BytesRoundTrip(pdu[2..]);
      assert pdu == pdu[..2] + pdu[2..];
    }
    WordsRoundTrip(words);
  }

  // The coil parser reads every bit from its place and accepts no other length or header.
  lemma CoilRepliesAreExact(spec: RequestSpec, pdu: seq<byte>, bits: seq<bool>)
    requires spec.functionCode in {1, 2}
    ensures ParseReply(spec, pdu) == Ok(Coils(bits)) <==>
            && |bits| == spec.quantity && BytesForBits(|bits|) < 256
            && |pdu| == 2 + BytesForBits(|bits|) && pdu[0] == spec.functionCode && pdu[1] == BytesForBits(|bits|)
            && forall i :: 0 <= i < |bits| ==> bits[i] == Bit(pdu[2 + i / 8], i % 8)
  {
    if |pdu| >= 2 && |bits| == spec.quantity && |pdu| == 2 + BytesForBits(|bits|) {
      var got := Unpack(pdu[2..], spec.quantity);
      assert forall i :: 0 <= i < |bits| ==> got[i] == Bit(pdu[2 + i / 8], i % 8);
      if forall i :: 0 <= i < |bits| ==> bits[i] == Bit(pdu[2 + i / 8], i % 8) {
        assert got == bits;
      }
    }
  }

  // ---------------------------------------------------------------- request and reply

  // What the master is told: the slave's own values for a read, a count for a write.
  function ExpectedAnswer(bank: Bank, spec: RequestSpec): Answer
    requires Accepted(spec)
  {
    var start, n := spec.startAddress, spec.quantity;
    match spec.functionCode
    case 1 => Coils(ReadBits(bank.coils, start, n))
    case 2 => Coils(ReadBits(bank.discretes, start, n))
    case 3 => Registers(ReadWords(bank.holding, start, n))
    case 4 => Registers(ReadWords(bank.inputs, start, n))
    case _ => Written(n)
  }

  // What happens to the bank: a write changes its own table on its own range only.
  function ExpectedBank(bank: Bank, spec: RequestSpec): Bank
    requires Accepted(spec)
  {
    var start := spec.startAddress;
    match spec.functionCode
    case 5 => bank.(coils := Write(bank.coils, start, AsBits(spec.values)))
    case 15 => bank.(coils := Write(bank.coils, start, AsBits(spec.values)))
    case 6 => bank.(holding := Write(bank.holding, start, spec.values))
    case 16 => bank.(holding := Write(bank.holding, start, spec.values))
    case _ => bank
  }

  lemma WriteOne<T>(table: map<u16, T>, start: u16, value: T)
    ensures Write(table, start, [value]) == table[start := value]
  {}

  lemma AnsweredRead(bank: Bank, spec: RequestSpec)
    requires Accepted(spec) && spec.functionCode <= 4
    ensures ParseReply(spec, Process(bank, spec.pdu).response.pdu) == Ok(ExpectedAnswer(bank, spec))
    ensures Process(bank, spec.pdu).bank == bank
  {
    hide Pack, WordBytes, WordsOf, Unpack, ReadBits, ReadWords, RequestTail;
    RequestFields(spec);
    var fc, start, n, pdu := spec.functionCode, spec.startAddress, spec.quantity, spec.pdu;
    var reply := Process(bank, pdu).response.pdu;
    if fc <= 2 {
      var bits := ReadBits(if fc == 1 then bank.coils else bank.discretes, start, n);
      assert reply == [fc, BytesForBits(n)] + Pack(bits);
      assert reply[2..] == Pack(bits);
      UnpackOfPacked(Pack(bits), bits);
    } else {
      var words := ReadWords(if fc == 3 then bank.holding else bank.inputs, start, n);
      assert reply == [fc, 2 * n] + WordBytes(words);
      assert reply[2..] == WordBytes(words);
      WordsRoundTrip(words);
    }
  }

  lemma AnsweredSingleWrite(bank: Bank, spec: RequestSpec)
    requires Accepted(spec) && (spec.functionCode == 5 || spec.functionCode == 6)
    ensures ParseReply(spec, Process(bank, spec.pdu).response.pdu) == Ok(Written(1))
    ensures Process(bank, spec.pdu).bank == ExpectedBank(bank, spec)
  {
    hide RequestTail, Write;
    RequestFields(spec);
    var start := spec.startAddress;
    if spec.functionCode == 5 {
      assert AsBits(spec.values) == [spec.values[0] != 0];
      WriteOne(bank.coils, start, spec.values[0] != 0);
    } else {
      assert spec.values == [spec.values[0]];
      WriteOne(bank.holding, start, spec.values[0]);
    }
  }

  lemma AnsweredManyWrite(bank: Bank, spec: RequestSpec)
    requires Accepted(spec) && (spec.functionCode == 15 || spec.functionCode == 16)
    ensures ParseReply(spec, Process(bank, spec.pdu).response.pdu) == Ok(Written(spec.quantity))
    ensures Process(bank, spec.pdu).bank == ExpectedBank(bank, spec)
  {
    hide Pack, WordBytes, WordsOf, Unpack, Write, BitsAsWords, RequestTail;
    RequestFields(spec);
    if spec.functionCode == 15 {
      UnpackOfPacked(Pack(AsBits(spec.values)), AsBits(spec.values));
    } else {
      WordsRoundTrip(spec.values);
    }
  }

  // For every bank and every request the builder accepts: no exception, the master reads
  // exactly the bank's values or the write count, and the bank changes exactly as asked.
  lemma RequestIsAnswered(bank: Bank, spec: RequestSpec)
    requires Accepted(spec)
    ensures !IsException(Process(bank, spec.pdu).response)
    ensures ParseReply(spec, Process(bank, spec.pdu).response.pdu) == Ok(ExpectedAnswer(bank, spec))
    ensures Process(bank, spec.pdu).bank == ExpectedBank(bank, spec)
  {
    hide Accepted, ExpectedAnswer, ExpectedBank, Process, ParseReply;
    RequestCases(spec);
    if spec.functionCode <= 4 {
      AnsweredRead(bank, spec);
    } else if spec.functionCode <= 6 {
      AnsweredSingleWrite(bank, spec);
    } else {
      AnsweredManyWrite(bank, spec);
    }
    ExpectedOfWrites(bank, spec);
    ParsedShape(spec, Process(bank, spec.pdu).response.pdu);
  }

  lemma RequestCases(spec: RequestSpec)
    requires Accepted(spec)
    ensures spec.functionCode in {1, 2, 3, 4, 5, 6, 15, 16}
  {}

  lemma ExpectedOfWrites(bank: Bank, spec: RequestSpec)
    requires Accepted(spec)
    ensures spec.functionCode in {5, 6} ==> ExpectedAnswer(bank, spec) == Written(1)
    ensures spec.functionCode in {15, 16} ==> ExpectedAnswer(bank, spec) == Written(spec.quantity)
    ensures spec.functionCode <= 4 ==> ExpectedBank(bank, spec) == bank
  {}

  // What a reply that the parser accepts looks like from outside.
  lemma ParsedShape(spec: RequestSpec, pdu: seq<byte>)
    requires ParseReply(spec, pdu).Ok?
    ensures |pdu| >= 2 && pdu[0] == spec.functionCode < 128
    ensures spec.functionCode in {1, 2} ==> pdu[1] == BytesForBits(spec.quantity) && |pdu| - 2 == pdu[1]
    ensures spec.functionCode in {3, 4} ==> pdu[1] == 2 * spec.quantity && |pdu| - 2 == pdu[1]
    ensures spec.functionCode in {5, 6, 15, 16} ==> |pdu| == 5
    ensures spec.functionCode in {1, 2, 3, 4, 5, 6, 15, 16}
  {}

  // ---------------------------------------------------------------- what the slave serves

  function BytesOf(spec: RequestSpec): seq<byte> {
    [spec.functionCode] + BigEndian(spec.startAddress) + RequestTail(spec.functionCode, spec.quantity, spec.values)
  }

  lemma ServedShort(bank: Bank, pdu: seq<byte>) returns (spec: RequestSpec)
    requires pdu != [] && pdu[0] <= 6 && !IsException(Process(bank, pdu).response)
    ensures Accepted(spec) && spec.pdu == pdu
  {
    hide Pack, WordBytes, ReadBits, ReadWords;
    var fc, start, word := pdu[0], Start(pdu), Quantity(pdu);
    spec := if fc <= 4 then RequestSpec(fc, start, word, [], pdu) else RequestSpec(fc, start, 1, [word], pdu);
    assert |BytesOf(spec)| == 5;
    SameFields(BytesOf(spec), pdu);
  }

  lemma ServedWords(bank: Bank, pdu: seq<byte>) returns (spec: RequestSpec)
    requires pdu != [] && pdu[0] == 16 && !IsException(Process(bank, pdu).response)
    ensures Accepted(spec) && spec.pdu == pdu
  {
    hide Pack, WordBytes, WordsOf, Write;
    var start, n := Start(pdu), Quantity(pdu);
    spec := RequestSpec(16, start, n, WordsOf(pdu[6..]), pdu);
    BytesRoundTrip(pdu[6..]);
    assert |pdu| == 6 + 2 * n && pdu[5] == 2 * n;
    assert Accepted(spec) by {
      hide WordBytes, Process, BigEndian;
      HeadAndData(pdu);
    }
  }

  // A request with a byte count, put together from its fields and its data.
  lemma HeadAndData(pdu: seq<byte>)
    requires |pdu| >= 6
    ensures pdu == [pdu[0]] + BigEndian(Start(pdu)) + (BigEndian(Quantity(pdu)) + [pdu[5]] + pdu[6..])
  {
    var start, word := BigEndian(Start(pdu)), BigEndian(Quantity(pdu));
    FiveBytes(pdu[0], Start(pdu), Quantity(pdu));
    SameFields([pdu[0]] + start + word, pdu[..5]);
    hide BigEndian, Start, Quantity;
    assert pdu == pdu[..5] + ([pdu[5]] + pdu[6..]);
    JoinAssociates([pdu[0]] + start, word, [pdu[5]] + pdu[6..]);
    JoinAssociates(word, [pdu[5]], pdu[6..]);
  }

  lemma ServedCoils(bank: Bank, pdu: seq<byte>) returns (spec: RequestSpec)
    requires pdu != [] && pdu[0] == 15 && !IsException(Process(bank, pdu).response)
    ensures Accepted(spec) && Process(bank, spec.pdu) == Process(bank, pdu)
  {
    hide Pack, WordBytes, WordsOf, Unpack, Write;
    var start, n := Start(pdu), Quantity(pdu);
    var bits := Unpack(pdu[6..], n);
    var values := BitsAsWords(bits);
    assert AsBits(values) == bits;
    var bytes := [15] + BigEndian(start) + RequestTail(15, n, values);
    spec := RequestSpec(15, start, n, values, bytes);
    assert Accepted(spec);
    RequestFields(spec);
    hide RequestTail, AsBits, BitsAsWords;
    UnpackOfPacked(Pack(bits), bits);
  }

  // The slave serves exactly the requests the builder can make. Every request it does not
  // refuse is one of them, byte for byte; only the padding bits of a coil write, which no
  // one reads, may differ. That it serves all of them is RequestIsAnswered.
  lemma ServedRequestsAreBuilt(bank: Bank, pdu: seq<byte>) returns (spec: RequestSpec)
    requires !IsException(Process(bank, pdu).response)
    ensures Accepted(spec) && Process(bank, spec.pdu) == Process(bank, pdu)
    ensures pdu != [] && (pdu[0] != 15 ==> spec.pdu == pdu)
  {
    hide ProcessReadBits, ProcessReadWords, ProcessWriteCoil, ProcessWriteWord, ProcessWriteCoils, ProcessWriteWords,
        Accepted;
    if pdu[0] == 15 {
      spec := ServedCoils(bank, pdu);
    } else if pdu[0] == 16 {
      spec := ServedWords(bank, pdu);
    } else {
      spec := ServedShort(bank, pdu);
    }
  }

  // ---------------------------------------------------------------- broadcast

  // `rtu_broadcast_ack_pdu`
  function BroadcastAck(spec: RequestSpec): Option<seq<byte>> {
    match spec.functionCode
    case 5 => Some(spec.pdu)
    case 6 => Some(spec.pdu)
    case 15 => Some([15] + BigEndian(spec.startAddress) + BigEndian(spec.quantity))
    case 16 => Some([16] + BigEndian(spec.startAddress) + BigEndian(spec.quantity))
    case _ => None
  }

  // To a write the master takes one reply and no other: the acknowledgement of that write.
  lemma WriteRepliesAreExact(spec: RequestSpec, pdu: seq<byte>)
    requires Accepted(spec) && spec.functionCode >= 5
    ensures BroadcastAck(spec).Some?
    ensures ParseReply(spec, pdu).Ok? <==> pdu == BroadcastAck(spec).value
  {
    AckFields(spec);
    WriteReplyFields(spec, pdu);
    hide *;
    if |pdu| == 5 {
      SameFields(pdu, BroadcastAck(spec).value);
    }
  }

  // What a write reply repeats of its request.
  function Repeated(spec: RequestSpec): u16 {
    if spec.functionCode <= 6 && |spec.values| == 1 then spec.values[0] else spec.quantity
  }

  lemma AckFields(spec: RequestSpec)
    requires Accepted(spec) && spec.functionCode >= 5
    ensures BroadcastAck(spec).Some?
    ensures var ack := BroadcastAck(spec).value;
            |ack| == 5 && ack[0] == spec.functionCode && Start(ack) == spec.startAddress
              && Quantity(ack) == Repeated(spec)
  {
    RequestFields(spec);
    hide RequestTail;
    if spec.functionCode >= 15 {
      FiveBytes(spec.functionCode, spec.startAddress, spec.quantity);
    }
    hide BigEndian, Start, Quantity;
  }

  lemma FiveBytes(functionCode: byte, start: u16, word: u16)
    ensures var pdu := [functionCode] + BigEndian(start) + BigEndian(word);
            |pdu| == 5 && pdu[0] == functionCode && Start(pdu) == start && Quantity(pdu) == word
  {}

  lemma WriteReplyFields(spec: RequestSpec, pdu: seq<byte>)
    requires Accepted(spec) && spec.functionCode >= 5
    ensures ParseReply(spec, pdu).Ok? <==>
              |pdu| == 5 && pdu[0] == spec.functionCode && Start(pdu) == spec.startAddress
                && Quantity(pdu) == Repeated(spec)
  {
    hide RequestTail, ParseBits, ParseWords;
  }

  lemma SameFields(a: seq<byte>, b: seq<byte>)
    requires |a| == 5 && |b| == 5
    ensures a == b <==> a[0] == b[0] && Start(a) == Start(b) && Quantity(a) == Quantity(b)
  {
    if a[0] == b[0] && Start(a) == Start(b) && Quantity(a) == Quantity(b) {
      assert a[1] == b[1] && a[2] == b[2] && a[3] == b[3] && a[4] == b[4];
    }
  }

  // The reply the master makes up for a broadcast is the reply any slave would have sent.
  lemma BroadcastAckIsTheReply(bank: Bank, spec: RequestSpec)
    requires Accepted(spec)
    ensures BroadcastAck(spec).Some? <==> spec.functionCode >= 5
    ensures BroadcastAck(spec).Some? ==> BroadcastAck(spec).value == Process(bank, spec.pdu).response.pdu
  {
    RequestFields(spec);
    hide RequestTail, Process, ValuesSuit;
    if spec.functionCode in {5, 6} {
      SingleWriteReply(bank, spec);
    } else if spec.functionCode in {15, 16} {
      ManyWriteReply(bank, spec);
    }
  }

  lemma SingleWriteReply(bank: Bank, spec: RequestSpec)
    requires Accepted(spec) && spec.functionCode in {5, 6}
    ensures Process(bank, spec.pdu).response.pdu == spec.pdu
  {
    hide RequestTail;
    RequestFields(spec);
  }

  lemma ManyWriteReply(bank: Bank, spec: RequestSpec)
    requires Accepted(spec) && spec.functionCode in {15, 16}
    ensures Process(bank, spec.pdu).response.pdu ==
            [spec.functionCode] + BigEndian(spec.startAddress) + BigEndian(spec.quantity)
  {
    hide Pack, WordBytes, WordsOf, Unpack, Write, BitsAsWords, RequestTail, BigEndian;
    RequestFields(spec);
  }
}
