/** Responses as RFC 1035 lays them out (sections 4.1.1 to 4.1.3), against the parser. */
module DnsRoundTrip {
  import opened Bytes
  import opened Wrappers
  import opened DnsNames
  import opened DnsQueries
  import opened DnsResponses

  datatype Question = Question(name: Name, qtype: U16, qclass: U16)

  datatype Answer = Answer(name: Name, raw: Raw)

  datatype Response = Response(id: U16, flags: U16, questions: seq<Question>, answers: seq<Answer>,
                               authority: U16, additional: U16)

  predicate ValidAnswer(a: Answer) {
    WellFormed(a.name) && |a.raw.data| < 0x1_0000
  }

  predicate AllValid(answers: seq<Answer>) {
    forall a | a in answers :: ValidAnswer(a)
  }

  predicate ValidResponse(r: Response) {
    && |r.questions| < 0x1_0000 && 0 < |r.answers| < 0x1_0000
    && r.flags >= 0x8000 && r.flags % 16 == 0
    && (forall q | q in r.questions :: WellFormed(q.name))
    && AllValid(r.answers)
  }

  /** Address records of the right length for their type: class 1 is IN, type 1 is A (RFC 1035, sections
      3.2.2 and 3.2.4), type 28 is AAAA (RFC 3596, section 2.1). */
  predicate GoodAddresses(answers: seq<Answer>) {
    forall a | a in answers && a.raw.cls == 1 ::
      && (a.raw.rrType == 1 ==> |a.raw.data| == 4)
      && (a.raw.rrType == 28 ==> |a.raw.data| == 16)
  }

  function EncodeQuestion(q: Question): seq<Byte> {
    Encode(q.name) + Be16(q.qtype) + Be16(q.qclass)
  }

  function EncodeQuestions(qs: seq<Question>): seq<Byte> {
    if qs == [] then [] else EncodeQuestion(qs[0]) + EncodeQuestions(qs[1..])
  }

  function EncodeRaw(raw: Raw): seq<Byte>
    requires |raw.data| < 0x1_0000
  {
    Be16(raw.rrType) + Be16(raw.cls) + Be32(raw.ttl) + Be16(|raw.data|) + raw.data
  }

  function EncodeAnswer(a: Answer): seq<Byte>
    requires ValidAnswer(a)
  {
    Encode(a.name) + EncodeRaw(a.raw)
  }

  function EncodeAnswers(answers: seq<Answer>): seq<Byte>
    requires AllValid(answers)
  {
    if answers == [] then [] else EncodeAnswer(answers[0]) + EncodeAnswers(answers[1..])
  }

  function EncodeHeader(r: Response): seq<Byte>
    requires ValidResponse(r)
  {
    Be16(r.id) + Be16(r.flags) + Be16(|r.questions|) + Be16(|r.answers|) + Be16(r.authority) + Be16(r.additional)
  }

  function EncodeResponse(r: Response): seq<Byte>
    requires ValidResponse(r)
  {
    EncodeHeader(r) + EncodeQuestions(r.questions) + EncodeAnswers(r.answers)
  }

  // ----- iterating to the end -----

  /** Everything the iterator yields up to its first None or error, and that error if there is one. */
  function Drain(c: Cursor): (seq<Record>, Option<ErrorKind>)
    decreases c.count
  {
    var (c', answer) := NextAnswer(c);
    match answer
    case None => ([], None)
    case Some(Err(e)) => ([], Some(e))
    case Some(Ok(record)) =>
      var (records, end) := Drain(c');
      ([record] + records, end)
  }

  /** What one answer adds in front of what the later ones give. */
  function Prepend(raw: Raw, later: (seq<Record>, Option<ErrorKind>)): (seq<Record>, Option<ErrorKind>) {
    match Interpret(raw)
    case None => later
    case Some(Err(e)) => ([], Some(e))
    case Some(Ok(record)) => ([record] + later.0, later.1)
  }

  /** What the answers call for: the class-IN A and AAAA records, up to the first of the wrong length. */
  function Expected(answers: seq<Answer>): (seq<Record>, Option<ErrorKind>) {
    if answers == [] then ([], None) else Prepend(answers[0].raw, Expected(answers[1..]))
  }

  /** The class-IN A and AAAA records, in order. */
  function AddressRecords(answers: seq<Answer>): seq<Record> {
    if answers == [] then []
    else
      var raw := answers[0].raw;
      (if raw.cls == 1 && raw.rrType == 1 then [Record(V4(raw.data), raw.ttl)]
       else if raw.cls == 1 && raw.rrType == 28 then [Record(V6(raw.data), raw.ttl)]
       else []) + AddressRecords(answers[1..])
  }

  lemma {:induction false} ExpectedOfGood(answers: seq<Answer>)
    requires GoodAddresses(answers)
    ensures Expected(answers) == (AddressRecords(answers), None)
  {
    if answers != [] {
      assert answers[0] in answers;
      ExpectedOfGood(answers[1..]);
      assert [] + AddressRecords(answers[1..]) == AddressRecords(answers[1..]);
    }
  }

  lemma ConcatAssociates(x: seq<Byte>, y: seq<Byte>, z: seq<Byte>)
    ensures x + (y + z) == x + y + z
  {
  }

  /** Draining by way of one record. */
  lemma DrainStep(c: Cursor)
    requires c.count > 0
    ensures
      var (c', raw) := TakeRecord(c);
      Drain(c) == match raw
                  case Err(e) => ([], Some(e))
                  case Ok(raw) => Prepend(raw, Drain(c'))
  {
  }

  lemma RawFields(raw: Raw, after: seq<Byte>)
    requires |raw.data| < 0x1_0000
    ensures
      var b := EncodeRaw(raw) + after;
      |b| >= 10 && RecordEnd(b) == 10 + |raw.data| <= |b| && RecordAt(b) == raw && b[RecordEnd(b)..] == after
  {
    U32OfBe32(raw.ttl);
    var b := EncodeRaw(raw) + after;
    assert b[4..8] == Be32(raw.ttl);
    assert U32At(b, 4) == U32At(b[4..8], 0);
    assert b[10..10 + |raw.data|] == raw.data;
    assert b[10 + |raw.data|..] == after;
  }

  lemma TakeEncoded(a: Answer, after: seq<Byte>, count: nat)
    requires ValidAnswer(a) && count > 0
    ensures TakeRecord(Cursor(EncodeAnswer(a) + after, count)) == (Cursor(after, count - 1), Ok(a.raw))
  {
    var rest := EncodeRaw(a.raw) + after;
    assert EncodeAnswer(a) + after == Encode(a.name) + rest;
    SizeOfEncoded(a.name, rest);
    RawFields(a.raw, after);
  }

  lemma DrainBehind(a: Answer, c: Cursor)
    requires ValidAnswer(a)
    ensures Drain(Cursor(EncodeAnswer(a) + c.buffer, c.count + 1)) == Prepend(a.raw, Drain(c))
  {
    TakeEncoded(a, c.buffer, c.count + 1);
    DrainStep(Cursor(EncodeAnswer(a) + c.buffer, c.count + 1));
  }

  /** Iterating over encoded answers, whatever follows them. */
  lemma {:induction false} DrainOfEncoded(answers: seq<Answer>, after: seq<Byte>)
    requires AllValid(answers)
    ensures Drain(Cursor(EncodeAnswers(answers) + after, |answers|)) == Expected(answers)
  {
    if answers != [] {
      hide Drain, EncodeAnswer, Prepend, ValidAnswer;
      var rest := answers[1..];
      DrainOfEncoded(rest, after);
      ConcatAssociates(EncodeAnswer(answers[0]), EncodeAnswers(rest), after);
      DrainBehind(answers[0], Cursor(EncodeAnswers(rest) + after, |rest|));
    }
  }

  lemma SkipOne(q: Question, later: seq<Byte>)
    requires WellFormed(q.name)
    ensures
      var b := EncodeQuestion(q) + later;
      var n := |Encode(q.name)|;
      NameSize(b) == Ok(n) && |b| == n + 4 + |later| && b[n + 4..] == later
  {
    var tail := Be16(q.qtype) + Be16(q.qclass) + later;
    SizeOfEncoded(q.name, tail);
    assert EncodeQuestion(q) + later == Encode(q.name) + tail;
    assert (Encode(q.name) + tail)[|Encode(q.name)| + 4..] == tail[4..];
  }

  lemma SkipBehind(q: Question, later: seq<Byte>, count: nat)
    requires WellFormed(q.name)
    ensures SkipQuestions(EncodeQuestion(q) + later, count + 1) ==
            if later == [] then Err(InvalidData) else SkipQuestions(later, count)
  {
    SkipOne(q, later);
  }

  lemma {:induction false} SkipEncoded(qs: seq<Question>, after: seq<Byte>)
    requires forall q | q in qs :: WellFormed(q.name)
    requires after != []
    ensures SkipQuestions(EncodeQuestions(qs) + after, |qs|) == Ok(after)
  {
    if qs == [] {
      assert EncodeQuestions(qs) + after == after;
    } else {
      hide SkipQuestions, EncodeQuestion;
      SkipEncoded(qs[1..], after);
      SkipBehind(qs[0], EncodeQuestions(qs[1..]) + after, |qs| - 1);
      ConcatAssociates(EncodeQuestion(qs[0]), EncodeQuestions(qs[1..]), after);
    }
  }

  lemma HeaderFields(r: Response, after: seq<Byte>)
    requires ValidResponse(r)
    ensures
      var b := EncodeHeader(r) + after;
      && U16At(b, 2) == r.flags && U16At(b, 4) == |r.questions| && U16At(b, 6) == |r.answers|
      && b[12..] == after && |EncodeHeader(r)| == 12
  {
  }

  /** The round trip: for every well-formed response followed by anything, parsing and then
      exhausting the iterator yields exactly its class-IN A and AAAA records, in order, and None. */
  lemma ResponseRoundTrip(r: Response, after: seq<Byte>)
    requires ValidResponse(r) && GoodAddresses(r.answers)
    ensures
      var parsed := Parse(EncodeResponse(r) + after);
      && parsed == Ok(Cursor(EncodeAnswers(r.answers) + after, |r.answers|))
      && Drain(parsed.value) == (AddressRecords(r.answers), None)
  {
    assert EncodeAnswers(r.answers) != [];
    hide Drain, EncodeAnswers, EncodeQuestions, SkipQuestions, Expected, AddressRecords;
    var answers := EncodeAnswers(r.answers) + after;
    var body := EncodeQuestions(r.questions) + answers;
    assert EncodeResponse(r) + after == EncodeHeader(r) + body;
    HeaderFields(r, body);
    SkipEncoded(r.questions, answers);
    DrainOfEncoded(r.answers, after);
    ExpectedOfGood(r.answers);
  }

  // ----- truncation -----

  lemma PrefixOfConcat(x: seq<Byte>, y: seq<Byte>, k: nat)
    requires k <= |x| + |y|
    ensures k <= |x| ==> (x + y)[..k] == x[..k]
    ensures k >= |x| ==> (x + y)[..k] == x + y[..k - |x|]
  {
  }

  lemma PrefixOfName(name: Name, tail: seq<Byte>, k: nat)
    requires WellFormed(name) && k <= |Encode(name)| + |tail|
    ensures
      var b := (Encode(name) + tail)[..k];
      if k < |Encode(name)| then NameSize(b) == Err(InvalidData)
      else NameSize(b) == Ok(|Encode(name)|) && b[|Encode(name)|..] == tail[..k - |Encode(name)|]
  {
    var n := |Encode(name)|;
    PrefixOfConcat(Encode(name), tail, k);
    if k < n {
      TruncatedName(name, k);
    } else {
      SizeOfEncoded(name, tail[..k - n]);
      assert Encode(name) + tail[..k - n] == (Encode(name) + tail)[..k];
    }
  }

  lemma TakeTruncated(a: Answer, k: nat, count: nat)
    requires ValidAnswer(a) && k < |EncodeAnswer(a)| && count > 0
    ensures TakeRecord(Cursor(EncodeAnswer(a)[..k], count)).1 == Err(InvalidData)
  {
    var n, raw := |Encode(a.name)|, EncodeRaw(a.raw);
    PrefixOfName(a.name, raw, k);
    if k >= n + 10 {
      RawFields(a.raw, []);
      assert raw + [] == raw;
      assert RecordEnd(raw[..k - n]) == |raw|;
    }
  }

  /** A beginning of the full list, and then InvalidData. */
  predicate CutShort(drained: (seq<Record>, Option<ErrorKind>), full: seq<Record>) {
    drained.1 == Some(InvalidData) && drained.0 <= full
  }

  /** Answers cut short: what comes out is a beginning of the full list, and then InvalidData. */
  lemma {:induction false} DrainOfTruncated(answers: seq<Answer>, k: nat)
    requires AllValid(answers)
    requires k < |EncodeAnswers(answers)|
    ensures CutShort(Drain(Cursor(EncodeAnswers(answers)[..k], |answers|)), Expected(answers).0)
  {
    hide Drain, EncodeAnswer, Prepend, ValidAnswer;
    var first, rest := EncodeAnswer(answers[0]), answers[1..];
    PrefixOfConcat(first, EncodeAnswers(rest), k);
    if k < |first| {
      TakeTruncated(answers[0], k, |answers|);
      DrainStep(Cursor(first[..k], |answers|));
    } else {
      DrainOfTruncated(rest, k - |first|);
      DrainOneMore(answers[0], Cursor(EncodeAnswers(rest)[..k - |first|], |rest|), Expected(rest));
    }
  }

  lemma DrainOneMore(a: Answer, c: Cursor, full: (seq<Record>, Option<ErrorKind>))
    requires ValidAnswer(a) && CutShort(Drain(c), full.0)
    ensures CutShort(Drain(Cursor(EncodeAnswer(a) + c.buffer, c.count + 1)), Prepend(a.raw, full).0)
  {
    DrainBehind(a, c);
    PrependCutShort(a.raw, Drain(c), full);
  }

  lemma PrependCutShort(raw: Raw, x: (seq<Record>, Option<ErrorKind>), y: (seq<Record>, Option<ErrorKind>))
    requires CutShort(x, y.0)
    ensures CutShort(Prepend(raw, x), Prepend(raw, y).0)
  {
  }

  /** Questions cut short, together with the answers after them. */
  lemma {:induction false} SkipTruncated(qs: seq<Question>, after: seq<Byte>, k: nat)
    requires forall q | q in qs :: WellFormed(q.name)
    requires k <= |EncodeQuestions(qs)| + |after|
    ensures
      var n := |EncodeQuestions(qs)|;
      var r := SkipQuestions((EncodeQuestions(qs) + after)[..k], |qs|);
      if qs != [] && k <= n then r == Err(InvalidData)
      else r == Ok(after[..k - n])
  {
    if qs == [] {
      assert EncodeQuestions(qs) + after == after;
    } else {
      hide SkipQuestions, EncodeQuestion;
      var first, rest := EncodeQuestion(qs[0]), EncodeQuestions(qs[1..]);
      ConcatAssociates(first, rest, after);
      PrefixOfConcat(first, rest + after, k);
      if k <= |first| {
        SkipOneTruncated(qs[0], k, |qs|);
      } else {
        SkipTruncated(qs[1..], after, k - |first|);
        SkipBehind(qs[0], (rest + after)[..k - |first|], |qs| - 1);
      }
    }
  }

  lemma SkipOneTruncated(q: Question, k: nat, count: nat)
    requires WellFormed(q.name) && k <= |EncodeQuestion(q)| && count > 0
    ensures SkipQuestions(EncodeQuestion(q)[..k], count) == Err(InvalidData)
  {
    var tail := Be16(q.qtype) + Be16(q.qclass);
    assert EncodeQuestion(q) == Encode(q.name) + tail;
    PrefixOfName(q.name, tail, k);
  }

  lemma ResponseParts(r: Response)
    requires ValidResponse(r)
    ensures |EncodeHeader(r)| == 12
    ensures EncodeResponse(r) == EncodeHeader(r) + (EncodeQuestions(r.questions) + EncodeAnswers(r.answers))
    ensures |EncodeResponse(r)| == 12 + |EncodeQuestions(r.questions)| + |EncodeAnswers(r.answers)|
  {
  }

  /** A response cut short is refused, or parsed with its answers cut short. */
  lemma ParseTruncated(r: Response, k: nat)
    requires ValidResponse(r) && k < |EncodeResponse(r)|
    ensures
      var n := 12 + |EncodeQuestions(r.questions)|;
      match Parse(EncodeResponse(r)[..k])
      case Err(e) => e == InvalidData
      case Ok(c) => k >= n && c == Cursor(EncodeAnswers(r.answers)[..k - n], |r.answers|)
  {
    ResponseParts(r);
    hide SkipQuestions, EncodeResponse, EncodeHeader, EncodeAnswers, EncodeQuestions;
    var header, questions, answers := EncodeHeader(r), EncodeQuestions(r.questions), EncodeAnswers(r.answers);
    if k >= 12 {
      var body := (questions + answers)[..k - 12];
      PrefixOfConcat(header, questions + answers, k);
      SkipTruncated(r.questions, answers, k - 12);
      HeaderFields(r, body);
    }
  }

  /** Truncation never fabricates: a response cut short anywhere is refused with InvalidData, or
      yields a beginning of its full list of records and then InvalidData. */
  lemma TruncatedResponse(r: Response, k: nat)
    requires ValidResponse(r) && GoodAddresses(r.answers) && k < |EncodeResponse(r)|
    ensures
      match Parse(EncodeResponse(r)[..k])
      case Err(e) => e == InvalidData
      case Ok(c) => CutShort(Drain(c), AddressRecords(r.answers))
  {
    ResponseParts(r);
    hide Parse, Drain, EncodeResponse;
    ParseTruncated(r, k);
    ExpectedOfGood(r.answers);
    var n := 12 + |EncodeQuestions(r.questions)|;
    if k >= n {
      DrainOfTruncated(r.answers, k - n);
    }
  }

  // ----- the converse -----

  lemma RawOfFields(b: seq<Byte>)
    requires |b| >= 10 && |b| >= RecordEnd(b)
    ensures b == EncodeRaw(RecordAt(b)) + b[RecordEnd(b)..]
  {
    Be16Inverse(b, 0);
    Be16Inverse(b, 2);
    Be32Inverse(b, 4);
    Be16Inverse(b, 8);
    var end := RecordEnd(b);
    assert b == b[0..2] + b[2..4] + b[4..8] + b[8..10] + b[10..end] + b[end..];
  }

  lemma AnswerOfFields(buffer: seq<Byte>, n: nat, name: Name)
    requires n <= |buffer| && WellFormed(name) && Encode(name) == buffer[..n]
    requires |buffer[n..]| >= 10 && |buffer[n..]| >= RecordEnd(buffer[n..])
    ensures
      var b := buffer[n..];
      buffer == EncodeAnswer(Answer(name, RecordAt(b))) + b[RecordEnd(b)..]
  {
    hide EncodeRaw, RecordAt, RecordEnd, Encode;
    var b := buffer[n..];
    RawOfFields(b);
    ConcatAssociates(buffer[..n], EncodeRaw(RecordAt(b)), b[RecordEnd(b)..]);
  }

  /** Whatever one step takes off the buffer is an encoded answer. */
  lemma TakenIsEncoded(c: Cursor) returns (a: Answer)
    requires c.count > 0 && TakeRecord(c).1.Ok?
    ensures ValidAnswer(a) && TakeRecord(c).1 == Ok(a.raw)
    ensures c.buffer == EncodeAnswer(a) + TakeRecord(c).0.buffer
  {
    var n := NameSize(c.buffer).value;
    EncodeOfDecode(c.buffer);
    AnswerOfFields(c.buffer, n, Decode(c.buffer));
    a := Answer(Decode(c.buffer), RecordAt(c.buffer[n..]));
  }

  lemma AddressRecordsCons(a: Answer, rest: seq<Answer>)
    requires Interpret(a.raw).Some? ==> Interpret(a.raw).value.Ok?
    ensures ([a] + rest)[1..] == rest
    ensures Prepend(a.raw, (AddressRecords(rest), None)) == (AddressRecords([a] + rest), None)
  {
    assert [] + AddressRecords(rest) == AddressRecords(rest);
  }

  /** An iterator that runs to the end without an error has read well-formed answers, all of them
      with good addresses, and has yielded exactly their address records. */
  lemma {:induction false} DrainedIsEncoded(c: Cursor) returns (answers: seq<Answer>, after: seq<Byte>)
    requires Drain(c).1 == None
    ensures |answers| == c.count && GoodAddresses(answers) && AllValid(answers)
    ensures c.buffer == EncodeAnswers(answers) + after
    ensures Drain(c).0 == AddressRecords(answers)
    decreases c.count
  {
    if c.count == 0 {
      answers, after := [], c.buffer;
    } else {
      DrainStep(c);
      var a := TakenIsEncoded(c);
      var c' := TakeRecord(c).0;
      var rest;
      rest, after := DrainedIsEncoded(c');
      answers := [a] + rest;
      ConcatAssociates(EncodeAnswer(a), EncodeAnswers(rest), after);
      AddressRecordsCons(a, rest);
    }
  }

  /** Whatever is skipped is encoded questions. */
  lemma {:induction false} SkippedIsEncoded(b: seq<Byte>, count: nat) returns (qs: seq<Question>)
    requires SkipQuestions(b, count).Ok?
    ensures |qs| == count && forall q | q in qs :: WellFormed(q.name)
    ensures b == EncodeQuestions(qs) + SkipQuestions(b, count).value
    decreases count
  {
    if count == 0 {
      qs := [];
    } else {
      var n := NameSize(b).value;
      var rest := SkippedIsEncoded(b[n + 4..], count - 1);
      var q := Question(Decode(b), U16At(b, n), U16At(b, n + 2));
      qs := [q] + rest;
      EncodeOfDecode(b);
      QuestionOfFields(b, n, q.name);
      assert qs[1..] == rest;
      ConcatAssociates(EncodeQuestion(q), EncodeQuestions(rest), SkipQuestions(b, count).value);
    }
  }

  ghost predicate SkippedBy(b: seq<Byte>, qs: seq<Question>, rest: seq<Byte>) {
    && (forall q | q in qs :: WellFormed(q.name))
    && (qs != [] ==> rest != [])
    && b == EncodeQuestions(qs) + rest
  }

  lemma RestNotEmpty(b: seq<Byte>, count: nat)
    requires SkipQuestions(b, count).Ok? && count > 0
    ensures SkipQuestions(b, count).value != []
  {
    if count > 1 {
      RestNotEmpty(b[NameSize(b).value + 4..], count - 1);
    }
  }

  /** A packet parses exactly when its header is that of a successful response with answers and as
      many encoded questions follow as it declares, with something after them; the iterator then
      starts right after the last question. */
  lemma ParsesExactly(b: seq<Byte>, c: Cursor)
    ensures Parse(b) == Ok(c) <==>
            && |b| >= 12 && U16At(b, 2) >= 0x8000 && U16At(b, 2) % 16 == 0
            && U16At(b, 6) == c.count > 0
            && exists qs :: |qs| == U16At(b, 4) && SkippedBy(b[12..], qs, c.buffer)
  {
    if Parse(b) == Ok(c) {
      var qs := SkippedIsEncoded(b[12..], U16At(b, 4));
      if qs != [] {
        RestNotEmpty(b[12..], U16At(b, 4));
      }
      assert SkippedBy(b[12..], qs, c.buffer);
    }
    if |b| >= 12 && exists qs :: |qs| == U16At(b, 4) && SkippedBy(b[12..], qs, c.buffer) {
      var qs :| |qs| == U16At(b, 4) && SkippedBy(b[12..], qs, c.buffer);
      if qs != [] {
        SkipEncoded(qs, c.buffer);
      } else {
        assert EncodeQuestions(qs) + c.buffer == c.buffer;
      }
    }
  }

  lemma QuestionOfFields(b: seq<Byte>, n: nat, name: Name)
    requires n + 4 <= |b| && Encode(name) == b[..n]
    ensures b == EncodeQuestion(Question(name, U16At(b, n), U16At(b, n + 2))) + b[n + 4..]
  {
    hide Encode, Be16;
    Be16Inverse(b, n);
    Be16Inverse(b, n + 2);
    assert EncodeQuestion(Question(name, U16At(b, n), U16At(b, n + 2))) == b[..n] + b[n..n + 2] + b[n + 2..n + 4];
  }

  lemma HeaderOfFields(b: seq<Byte>)
    requires |b| >= 12
    ensures b == Be16(U16At(b, 0)) + Be16(U16At(b, 2)) + Be16(U16At(b, 4)) + Be16(U16At(b, 6))
               + Be16(U16At(b, 8)) + Be16(U16At(b, 10)) + b[12..]
  {
    Be16Inverse(b, 0);
    Be16Inverse(b, 2);
    Be16Inverse(b, 4);
    Be16Inverse(b, 6);
    Be16Inverse(b, 8);
    Be16Inverse(b, 10);
    assert b == b[0..2] + b[2..4] + b[4..6] + b[6..8] + b[8..10] + b[10..12] + b[12..];
  }

  /** A packet that parses, and whose iterator ends with None, is a well-formed response followed by
      something. */
  lemma ReadIsEncoded(b: seq<Byte>) returns (r: Response, after: seq<Byte>)
    requires Parse(b).Ok? && Drain(Parse(b).value).1 == None
    ensures ValidResponse(r) && GoodAddresses(r.answers) && b == EncodeResponse(r) + after
  {
    var c := Parse(b).value;
    var qs := SkippedIsEncoded(b[12..], U16At(b, 4));
    var answers;
    answers, after := DrainedIsEncoded(c);
    r := Response(U16At(b, 0), U16At(b, 2), qs, answers, U16At(b, 8), U16At(b, 10));
    HeaderOfFields(b);
    ConcatAssociates(EncodeQuestions(qs), EncodeAnswers(answers), after);
    ConcatAssociates(EncodeHeader(r), EncodeQuestions(qs) + EncodeAnswers(answers), after);
    ResponseParts(r);
  }

  /** The parser and its iterator get to the end without an error exactly on the well-formed
      responses, whatever follows them. */
  lemma AcceptedExactly(b: seq<Byte>)
    ensures (Parse(b).Ok? && Drain(Parse(b).value).1 == None) <==>
            exists r, n: nat ::
              n <= |b| && ValidResponse(r) && GoodAddresses(r.answers) && b[..n] == EncodeResponse(r)
  {
    if Parse(b).Ok? && Drain(Parse(b).value).1 == None {
      var r, after := ReadIsEncoded(b);
      assert b[..|EncodeResponse(r)|] == EncodeResponse(r);
    }
    if n: nat, r :| n <= |b| && ValidResponse(r) && GoodAddresses(r.answers) && b[..n] == EncodeResponse(r) {
      ResponseRoundTrip(r, b[n..]);
      assert b == b[..n] + b[n..];
    }
  }

  /** The packet is one whole query by its own header: ID 0; recursion desired, authentic data and no
      response bit; one question, which is skipped exactly, and nothing else. */
  lemma PacketIsOneQuery(name: seq<Byte>, queryType: U16, after: seq<Byte>)
    requires Encodable(name) && after != []
    ensures
      var packet := Packet(name, queryType);
      && |packet| >= 12
      && U16At(packet, 0) == 0 && U16At(packet, 2) == 0x0120
      && U16At(packet, 4) == 1 && U16At(packet, 6) == 0 && U16At(packet, 8) == 0 && U16At(packet, 10) == 0
      && SkipQuestions(packet[12..] + after, U16At(packet, 4)) == Ok(after)
  {
    hide SkipQuestions;
    var q := Question(LabelsName(Labels(name)), queryType, C_IN);
    PacketHeader(name, queryType);
    PacketShape(HEADER, Encode(q.name), queryType);
    assert Packet(name, queryType)[12..] == EncodeQuestion(q);
    SkipBehind(q, after, 0);
    SkipNone(after);
  }

  lemma SkipNone(b: seq<Byte>)
    ensures SkipQuestions(b, 0) == Ok(b)
  {
  }

  /** A reply that repeats the question of a query, and has anything after it, is skipped exactly
      to its answer section. */
  lemma ReplyFitsQuery(name: seq<Byte>, queryType: U16, header: seq<Byte>, after: seq<Byte>)
    requires Encodable(name) && after != []
    requires |header| == 12 && U16At(header, 4) == U16At(Packet(name, queryType), 4)
    requires U16At(header, 2) >= 0x8000 && U16At(header, 2) % 16 == 0 && U16At(header, 6) > 0
    ensures Parse(header + Packet(name, queryType)[12..] + after) == Ok(Cursor(after, U16At(header, 6)))
  {
    PacketIsOneQuery(name, queryType, after);
    ConcatAssociates(header, Packet(name, queryType)[12..], after);
    ParseBehind(header, Packet(name, queryType)[12..] + after);
  }

  lemma ParseBehind(header: seq<Byte>, body: seq<Byte>)
    requires |header| == 12 && U16At(header, 2) >= 0x8000 && U16At(header, 2) % 16 == 0 && U16At(header, 6) > 0
    ensures Parse(header + body) ==
            match SkipQuestions(body, U16At(header, 4))
            case Err(e) => Err(e)
            case Ok(rest) => Ok(Cursor(rest, U16At(header, 6)))
  {
    assert (header + body)[12..] == body;
  }

  // ----- refusals -----

  /** The second field of a header: the response bit, what lies between, and the response code (RFC 1035,
      section 4.1.1). */
  function Flags(response: bool, between: nat, code: nat): U16
    requires between < 0x800 && code < 16
  {
    (if response then 0x8000 else 0) + 16 * between + code
  }

  /** A whole header and what follows it. */
  function WithHeader(id: U16, flags: U16, questions: U16, answers: U16, rest: seq<Byte>): seq<Byte> {
    Be16(id) + Be16(flags) + Be16(questions) + Be16(answers) + rest
  }

  /** How a packet is refused on account of its header, whatever follows: InvalidData without the response
      bit; otherwise NotFound for code 3 (no such name) or no answers; otherwise Other for any code
      but 0.  The next eight bytes at least must be there. */
  lemma RefusedByHeader(id: U16, response: bool, between: nat, code: nat, questions: U16, answers: U16, rest: seq<Byte>)
    requires between < 0x800 && code < 16 && |rest| >= 4
    ensures
      var parsed := Parse(WithHeader(id, Flags(response, between, code), questions, answers, rest));
      && (!response ==> parsed == Err(InvalidData))
      && (response && (code == 3 || answers == 0) ==> parsed == Err(NotFound))
      && (response && code != 3 && code != 0 && answers != 0 ==> parsed == Err(Other))
  {
    var b := WithHeader(id, Flags(response, between, code), questions, answers, rest);
    assert U16At(b, 2) == Flags(response, between, code) && U16At(b, 6) == answers;
  }

  /** A query is no response. */
  lemma QueryIsRefused(name: seq<Byte>, queryType: U16)
    requires Encodable(name)
    ensures Parse(Packet(name, queryType)) == Err(InvalidData)
  {
    PacketIsOneQuery(name, queryType, [0]);
  }

  /** The questions fit: as many as are declared, with something after them. */
  ghost predicate QuestionsFit(b: seq<Byte>)
    requires |b| >= 12
  {
    exists qs, rest :: |qs| == U16At(b, 4) && SkippedBy(b[12..], qs, rest)
  }

  lemma FitIsParsed(b: seq<Byte>)
    requires |b| >= 12 && U16At(b, 2) >= 0x8000 && U16At(b, 2) % 16 == 0 && U16At(b, 6) > 0
    ensures Parse(b).Ok? <==> QuestionsFit(b)
  {
    if Parse(b).Ok? {
      ParsesExactly(b, Parse(b).value);
      var qs :| |qs| == U16At(b, 4) && SkippedBy(b[12..], qs, Parse(b).value.buffer);
    }
    if QuestionsFit(b) {
      var qs, rest :| |qs| == U16At(b, 4) && SkippedBy(b[12..], qs, rest);
      ParsesExactly(b, Cursor(rest, U16At(b, 6)));
    }
  }

  /** A packet is refused as InvalidData exactly if it is shorter than a header, or no response, or the
      header is that of a successful response with answers and its questions do not fit. */
  lemma InvalidExactly(b: seq<Byte>)
    ensures Parse(b) == Err(InvalidData) <==>
            || |b| < 12
            || U16At(b, 2) < 0x8000
            || (U16At(b, 2) % 16 == 0 && U16At(b, 6) > 0 && !QuestionsFit(b))
  {
    if |b| >= 12 && U16At(b, 2) >= 0x8000 && U16At(b, 2) % 16 == 0 && U16At(b, 6) > 0 {
      FitIsParsed(b);
    }
  }
}
