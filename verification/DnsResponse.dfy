/** The response parser and its iterator of address records. */
module DnsResponses {
  import opened Bytes
  import opened Wrappers
  import opened DnsNames
  import opened DnsQueries

  const TYPE_A: U16 := 1
  const TYPE_AAAA: U16 := 28

  datatype Address = V4(octets: seq<Byte>) | V6(octets: seq<Byte>)

  datatype Record = Record(address: Address, ttl: U32)

  /** What is left of the packet, and how many answers of it. */
  datatype Cursor = Cursor(buffer: seq<Byte>, count: nat)

  /** A resource record without its name. */
  datatype Raw = Raw(rrType: U16, cls: U16, ttl: U32, data: seq<Byte>)

  /** What one answer means to the iterator: nothing, an address record, or an error. */
  function Interpret(raw: Raw): (r: Option<Result<Record>>)
    ensures r.Some? && r.value.Err? ==> r.value.error == InvalidData
  {
    if raw.cls != C_IN then None
    else if raw.rrType == TYPE_A then
      Some(if |raw.data| == 4 then Ok(Record(V4(raw.data), raw.ttl)) else Err(InvalidData))
    else if raw.rrType == TYPE_AAAA then
      Some(if |raw.data| == 16 then Ok(Record(V6(raw.data), raw.ttl)) else Err(InvalidData))
    else None
  }

  // ----- parsing -----

  /** The bytes after `count` questions; there must be at least one. */
  function SkipQuestions(b: seq<Byte>, count: nat): (r: Result<seq<Byte>>)
    ensures r.Err? ==> r.error == InvalidData
    decreases count
  {
    if count == 0 then Ok(b)
    else
      match NameSize(b)
      case Err(e) => Err(e)
      case Ok(n) => if n + 4 >= |b| then Err(InvalidData) else SkipQuestions(b[n + 4..], count - 1)
  }

  function Parse(b: seq<Byte>): Result<Cursor> {
    if |b| < 12 then Err(InvalidData)
    else
      var flags, questions, answers := U16At(b, 2), U16At(b, 4), U16At(b, 6);
      if flags < 0x8000 then Err(InvalidData)
      else if flags % 16 == 3 || answers == 0 then Err(NotFound)
      else if flags % 16 != 0 then Err(Other)
      else
        match SkipQuestions(b[12..], questions)
        case Err(e) => Err(e)
        case Ok(rest) => Ok(Cursor(rest, answers))
  }

  /** The end of the record whose fields start the buffer. */
  function RecordEnd(b: seq<Byte>): nat
    requires |b| >= 10
  {
    10 + U16At(b, 8) as int
  }

  function RecordAt(b: seq<Byte>): (raw: Raw)
    requires |b| >= 10 && |b| >= RecordEnd(b)
    ensures |raw.data| == RecordEnd(b) - 10 < 0x1_0000
  {
    Raw(U16At(b, 0), U16At(b, 2), U32At(b, 4), b[10..RecordEnd(b)])
  }

  /** Takes one resource record off the buffer.  On failure the name may already be gone. */
  function TakeRecord(c: Cursor): (r: (Cursor, Result<Raw>))
    requires c.count > 0
    ensures |r.0.buffer| <= |c.buffer| && r.0.count <= c.count
    ensures r.0 == c || |r.0.buffer| < |c.buffer|
    ensures r.1.Ok? ==> r.0.count == c.count - 1 && |r.0.buffer| + 11 + |r.1.value.data| <= |c.buffer|
    ensures r.1.Err? ==> r.1.error == InvalidData
  {
    match NameSize(c.buffer)
    case Err(e) => (c, Err(e))
    case Ok(n) =>
      var b := c.buffer[n..];
      if |b| < 10 || |b| < RecordEnd(b) then (Cursor(b, c.count), Err(InvalidData))
      else (Cursor(b[RecordEnd(b)..], c.count - 1), Ok(RecordAt(b)))
  }

  /** One call of the iterator: the cursor after it, and what it returns. */
  function NextAnswer(c: Cursor): (r: (Cursor, Option<Result<Record>>))
    ensures |r.0.buffer| <= |c.buffer| && r.0.count <= c.count
    ensures r.0 == c || |r.0.buffer| < |c.buffer|
    ensures r.1.Some? && r.1.value.Ok? ==> r.0.count < c.count && |r.0.buffer| + 15 <= |c.buffer|
    ensures r.1.Some? && r.1.value.Err? ==> r.1.value.error == InvalidData
    decreases c.count
  {
    if c.count == 0 then (c, None)
    else
      var (c', raw) := TakeRecord(c);
      match raw
      case Err(e) => (c', Some(Err(e)))
      case Ok(raw) =>
        match Interpret(raw)
        case None => NextAnswer(c')
        case answer => (c', answer)
  }

  lemma SkipFrom(b: seq<Byte>, pos: nat, count: nat)
    requires pos <= |b| && count > 0
    ensures SkipQuestions(b[pos..], count) ==
            match NameSize(b[pos..])
            case Err(e) => Err(e)
            case Ok(n) => if pos + n + 4 >= |b| then Err(InvalidData) else SkipQuestions(b[pos + n + 4..], count - 1)
  {
    var size := NameSize(b[pos..]);
    assert size.Ok? && pos + size.value + 4 <= |b| ==> b[pos..][size.value + 4..] == b[pos + size.value + 4..];
  }

  /** Where the questions after the header end. */
  method SkipOver(buffer: seq<Byte>, questionCount: nat) returns (r: Result<nat>)
    requires |buffer| >= 12
    ensures match SkipQuestions(buffer[12..], questionCount)
            case Ok(rest) => r.Ok? && r.value <= |buffer| && buffer[r.value..] == rest
            case Err(e) => r == Err(e)
  {
    hide NameSize;
    var pos := 12;
    for i := 0 to questionCount
      invariant 12 <= pos <= |buffer|
      invariant SkipQuestions(buffer[12..], questionCount) == SkipQuestions(buffer[pos..], questionCount - i)
    {
      SkipFrom(buffer, pos, questionCount - i);
      var size := ScanName(buffer[pos..]);
      match size {
        case Err(e) => return Err(e);
        case Ok(n) =>
          pos := pos + n;
          pos := pos + 4;
          if pos >= |buffer| {
            return Err(InvalidData);
          }
      }
    }
    return Ok(pos);
  }

  method ParseResponsePacket(buffer: seq<Byte>) returns (r: Result<Records>)
    ensures match Parse(buffer)
            case Ok(c) => r.Ok? && fresh(r.value) && r.value.At() == c
            case Err(e) => r == Err(e)
  {
    hide SkipQuestions;
    if |buffer| < 12 {
      return Err(InvalidData);
    }
    var flags := U16At(buffer, 2);
    var questionCount := U16At(buffer, 4);
    var answerCount := U16At(buffer, 6);
    if flags < 0x8000 {
      return Err(InvalidData);
    }
    if flags % 16 == 3 || answerCount == 0 {
      return Err(NotFound);
    }
    if flags % 16 != 0 {
      return Err(Other);
    }
    var pos := SkipOver(buffer, questionCount);
    match pos {
      case Err(e) => return Err(e);
      case Ok(n) =>
        var records := new Records(buffer[n..], answerCount);
        return Ok(records);
    }
  }

  /** The iterator. */
  class Records {
    var buffer: seq<Byte>
    var answerCount: nat

    constructor (buffer: seq<Byte>, answerCount: nat)
      ensures At() == Cursor(buffer, answerCount)
    {
      this.buffer, this.answerCount := buffer, answerCount;
    }

    function At(): Cursor
      reads this
    {
      Cursor(buffer, answerCount)
    }

    method ReadRecord() returns (r: Result<Raw>)
      requires answerCount > 0
      modifies this
      ensures (At(), r) == TakeRecord(old(At()))
    {
      var nameSize := ScanName(buffer);
      match nameSize
      case Err(e) => return Err(e);
      case Ok(n) =>
        buffer := buffer[n..];
        if |buffer| < 10 {
          return Err(InvalidData);
        }
        var rrType, cls, ttl := U16At(buffer, 0), U16At(buffer, 2), U32At(buffer, 4);
        var dataSize: nat := U16At(buffer, 8);
        if |buffer| < 10 + dataSize {
          return Err(InvalidData);
        }
        var data := buffer[10..10 + dataSize];
        buffer := buffer[10 + dataSize..];
        answerCount := answerCount - 1;
        return Ok(Raw(rrType, cls, ttl, data));
    }

    method Next() returns (answer: Option<Result<Record>>)
      modifies this
      ensures (At(), answer) == NextAnswer(old(At()))
    {
      while answerCount > 0
        invariant NextAnswer(At()) == NextAnswer(old(At()))
        decreases answerCount
      {
        var raw := ReadRecord();
        if raw.Err? {
          return Some(Err(raw.error));
        }
        var Raw(rrType, cls, ttl, data) := raw.value;
        if cls != C_IN {
          continue;
        }
        if rrType == TYPE_A {
          if |data| != 4 {
            return Some(Err(InvalidData));
          }
          return Some(Ok(Record(V4(data), ttl)));
        } else if rrType == TYPE_AAAA {
          if |data| != 16 {
            return Some(Err(InvalidData));
          }
          return Some(Ok(Record(V6(data), ttl)));
        }
      }
      return None;
    }
  }
}
