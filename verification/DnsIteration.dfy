/** The iterator on arbitrary bytes, called any number of times. */
module DnsIteration {
  import opened Bytes
  import opened Wrappers
  import opened DnsNames
  import opened DnsResponses
  import opened DnsRoundTrip

  /** The cursor after `n` calls. */
  function After(c: Cursor, n: nat): Cursor
    decreases n
  {
    if n == 0 then c else After(NextAnswer(c).0, n - 1)
  }

  /** What call number `n` returns, counting from 0. */
  function Call(c: Cursor, n: nat): Option<Result<Record>> {
    NextAnswer(After(c, n)).1
  }

  /** How many of the first `n` calls yield a record. */
  function Yields(c: Cursor, n: nat): nat
    decreases n
  {
    if n == 0 then 0
    else
      var (c', answer) := NextAnswer(c);
      (if answer.Some? && answer.value.Ok? then 1 else 0) + Yields(c', n - 1)
  }

  /** A call leaves the cursor where it is exactly when no answers are left or no name can be read;
      it then returns None or InvalidData. */
  lemma FixedExactly(c: Cursor)
    ensures NextAnswer(c).0 == c <==> c.count == 0 || NameSize(c.buffer).Err?
    ensures NextAnswer(c).0 == c ==> NextAnswer(c).1 == if c.count == 0 then None else Some(Err(InvalidData))
  {
    if c.count > 0 && NameSize(c.buffer).Ok? {
      assert |TakeRecord(c).0.buffer| < |c.buffer|;
    }
  }

  lemma {:induction false} StaysFixed(c: Cursor, n: nat)
    requires NextAnswer(c).0 == c
    ensures After(c, n) == c
    decreases n
  {
    if n > 0 {
      StaysFixed(c, n - 1);
    }
  }

  /** Convergence on arbitrary bytes: from a buffer of L bytes, at most L calls change the cursor;
      every later call leaves it alone and returns the same None or InvalidData. */
  lemma {:induction false} Converges(c: Cursor, n: nat)
    requires n >= |c.buffer|
    ensures After(c, n) == After(c, |c.buffer|)
    ensures NextAnswer(After(c, n)).0 == After(c, n)
    ensures Call(c, n) == Call(c, |c.buffer|)
    ensures Call(c, n) == if After(c, n).count == 0 then None else Some(Err(InvalidData))
    decreases n
  {
    hide NextAnswer, NameSize;
    FixedExactly(c);
    var c' := NextAnswer(c).0;
    if c' == c {
      StaysFixed(c, n);
      StaysFixed(c, |c.buffer|);
    } else {
      Converges(c', n - 1);
      Converges(c', |c.buffer| - 1);
      FixedExactly(After(c, n));
    }
  }

  /** Over any number of calls, the records yielded are no more than the answers declared, and each
      takes at least 15 bytes of the buffer. */
  lemma {:induction false} YieldsBounded(c: Cursor, n: nat)
    ensures Yields(c, n) <= c.count && 15 * Yields(c, n) <= |c.buffer|
    decreases n
  {
    if n > 0 {
      YieldsBounded(NextAnswer(c).0, n - 1);
    }
  }

  // ----- on encoded answers -----

  /** What the answers say to the iterator: the class-IN A and AAAA records, each as a record or, if its
      address is of the wrong length, as an error. */
  function Said(answers: seq<Answer>): seq<Result<Record>> {
    if answers == [] then [] else Says(answers[0]) + Said(answers[1..])
  }

  function Says(a: Answer): seq<Result<Record>> {
    match Interpret(a.raw)
    case None => []
    case Some(r) => [r]
  }

  lemma CallShifts(c: Cursor, n: nat)
    ensures Call(c, 0) == NextAnswer(c).1
    ensures n > 0 ==> Call(c, n) == Call(NextAnswer(c).0, n - 1)
  {
  }

  /** The calls see through an answer that says nothing. */
  lemma SilentAnswer(c: Cursor, n: nat)
    requires c.count > 0 && TakeRecord(c).1.Ok? && Interpret(TakeRecord(c).1.value) == None
    ensures NextAnswer(c) == NextAnswer(TakeRecord(c).0) && Call(c, n) == Call(TakeRecord(c).0, n)
  {
    CallShifts(c, n);
    CallShifts(TakeRecord(c).0, n);
  }

  /** The calls on an encoded answer in front of more. */
  lemma CallBehind(a: Answer, c: Cursor, n: nat)
    requires ValidAnswer(a)
    ensures Call(Cursor(EncodeAnswer(a) + c.buffer, c.count + 1), n)
         == match Interpret(a.raw)
            case None => Call(c, n)
            case Some(r) => if n == 0 then Some(r) else Call(c, n - 1)
  {
    var full := Cursor(EncodeAnswer(a) + c.buffer, c.count + 1);
    TakeEncoded(a, c.buffer, c.count + 1);
    if Interpret(a.raw).None? {
      SilentAnswer(full, n);
    } else {
      CallShifts(full, n);
    }
  }

  function SaidAt(answers: seq<Answer>, n: nat): Option<Result<Record>> {
    if n < |Said(answers)| then Some(Said(answers)[n]) else None
  }

  lemma SaidFrom(answers: seq<Answer>, n: nat)
    requires answers != []
    ensures
      SaidAt(answers, n) ==
      match Interpret(answers[0].raw)
      case None => SaidAt(answers[1..], n)
      case Some(r) => if n == 0 then Some(r) else SaidAt(answers[1..], n - 1)
  {
  }

  lemma EncodedFrom(answers: seq<Answer>, after: seq<Byte>)
    requires AllValid(answers) && answers != []
    ensures ValidAnswer(answers[0]) && AllValid(answers[1..])
    ensures EncodeAnswers(answers) + after == EncodeAnswer(answers[0]) + (EncodeAnswers(answers[1..]) + after)
  {
    ConcatAssociates(EncodeAnswer(answers[0]), EncodeAnswers(answers[1..]), after);
  }

  lemma EncodedNone()
    ensures EncodeAnswers([]) == [] && forall n :: SaidAt([], n) == None
  {
  }

  lemma NoneLeft(b: seq<Byte>, n: nat)
    ensures Call(Cursor(b, 0), n) == None
  {
    StaysFixed(Cursor(b, 0), n);
  }

  /** On encoded answers, whatever follows them, the calls return exactly what the answers say, in
      order and errors included, and then None for ever. */
  lemma {:induction false} CallsOfEncoded(answers: seq<Answer>, after: seq<Byte>, n: nat)
    requires AllValid(answers)
    ensures Call(Cursor(EncodeAnswers(answers) + after, |answers|), n) == SaidAt(answers, n)
    decreases |answers|
  {
    hide Call, EncodeAnswer, EncodeAnswers, ValidAnswer, AllValid, Interpret, SaidAt;
    if answers == [] {
      NoneLeft(after, n);
      assert EncodeAnswers([]) + after == after by { EncodedNone(); }
      assert SaidAt([], n) == None by { EncodedNone(); }
    } else {
      EncodedFrom(answers, after);
      var rest := Cursor(EncodeAnswers(answers[1..]) + after, |answers| - 1);
      CallBehind(answers[0], rest, n);
      SaidFrom(answers, n);
      if Interpret(answers[0].raw).None? {
        CallsOfEncoded(answers[1..], after, n);
      } else if n > 0 {
        CallsOfEncoded(answers[1..], after, n - 1);
      }
    }
  }

  // ----- after an error -----

  /** After an error, every later call returns InvalidData and changes nothing, if and only if answers
      are left and no name can be read where the iterator now stands. */
  lemma ErrorIsFinalExactly(c: Cursor)
    requires NextAnswer(c).1.Some? && NextAnswer(c).1.value.Err?
    ensures
      var c' := NextAnswer(c).0;
      (forall n: nat :: After(c', n) == c' && Call(c', n) == Some(Err(InvalidData)))
      <==> c'.count > 0 && NameSize(c'.buffer).Err?
  {
    hide NextAnswer;
    var c' := NextAnswer(c).0;
    FixedExactly(c');
    if c'.count > 0 && NameSize(c'.buffer).Err? {
      forall n: nat
        ensures After(c', n) == c' && Call(c', n) == Some(Err(InvalidData))
      {
        StaysFixed(c', n);
      }
    } else {
      CallShifts(c', 0);
      assert After(c', 1) == After(NextAnswer(c').0, 0) == NextAnswer(c').0;
      assert After(c', 1) != c' || Call(c', 0) != Some(Err(InvalidData));
      assert !(After(c', 1) == c' && Call(c', 1) == Some(Err(InvalidData)))
          || !(After(c', 0) == c' && Call(c', 0) == Some(Err(InvalidData)));
    }
  }

  /** The call reads a name and then finds the record cut short: the name is gone, and the record
      still counts. */
  predicate Tears(c: Cursor)
    decreases c.count
  {
    c.count > 0 &&
    var (c', raw) := TakeRecord(c);
    match raw
    case Err(_) => c' != c
    case Ok(raw) => Interpret(raw).None? && Tears(c')
  }

  /** None of the first `n` calls tears a record. */
  ghost predicate NeverTears(c: Cursor, n: nat) {
    forall j | 0 <= j < n :: !Tears(After(c, j))
  }

  /** The buffer is these answers and then what is left of it. */
  ghost predicate Aligned(c: Cursor, end: Cursor, answers: seq<Answer>) {
    && AllValid(answers)
    && |answers| == c.count - end.count
    && c.buffer == EncodeAnswers(answers) + end.buffer
  }

  lemma AlignedBehind(a: Answer, c: Cursor, end: Cursor, answers: seq<Answer>)
    requires ValidAnswer(a) && Aligned(c, end, answers)
    ensures Aligned(Cursor(EncodeAnswer(a) + c.buffer, c.count + 1), end, [a] + answers)
  {
    assert ([a] + answers)[1..] == answers;
    ConcatAssociates(EncodeAnswer(a), EncodeAnswers(answers), end.buffer);
  }

  /** One call that tears nothing: it takes encoded answers, of which at most the last says something,
      and that is what it returns.  If none does, the iterator is at its end or stuck. */
  lemma {:induction false} CallTakesAnswers(c: Cursor) returns (answers: seq<Answer>)
    requires !Tears(c)
    ensures Aligned(c, NextAnswer(c).0, answers)
    ensures
      var (c', answer) := NextAnswer(c);
      if Said(answers) == [] then c' == NextAnswer(c').0 && answer == NextAnswer(c').1
      else answer.Some? && Said(answers) == [answer.value]
    decreases c.count
  {
    answers := [];
    if c.count > 0 && TakeRecord(c).1.Ok? {
      var a := TakenIsEncoded(c);
      var next := TakeRecord(c).0;
      if Interpret(a.raw).None? {
        answers := CallTakesAnswers(next);
        AlignedBehind(a, next, NextAnswer(c).0, answers);
      } else {
        AlignedBehind(a, next, next, []);
      }
      answers := [a] + answers;
    } else {
      FixedExactly(c);
    }
  }

  lemma {:induction false} EncodedAppend(x: seq<Answer>, y: seq<Answer>)
    requires AllValid(x) && AllValid(y)
    ensures AllValid(x + y) && EncodeAnswers(x + y) == EncodeAnswers(x) + EncodeAnswers(y)
    decreases |x|
  {
    if x == [] {
      assert x + y == y;
    } else {
      hide EncodeAnswer, ValidAnswer;
      EncodedAppend(x[1..], y);
      assert (x + y)[1..] == x[1..] + y;
      ConcatAssociates(EncodeAnswer(x[0]), EncodeAnswers(x[1..]), EncodeAnswers(y));
    }
  }

  lemma SaidNothing()
    ensures Said([]) == []
  {
  }

  lemma SaidCons(a: Answer, rest: seq<Answer>)
    ensures Said([a] + rest) == Says(a) + Said(rest)
  {
    assert ([a] + rest)[1..] == rest;
  }

  lemma {:induction false} SaidAppend(x: seq<Answer>, y: seq<Answer>)
    ensures Said(x + y) == Said(x) + Said(y)
    decreases |x|
  {
    hide Said, Says;
    if x == [] {
      assert x + y == y && Said([]) == [] by { SaidNothing(); }
    } else {
      SaidAppend(x[1..], y);
      SaidCons(x[0], x[1..]);
      SaidCons(x[0], x[1..] + y);
      assert [x[0]] + x[1..] == x && [x[0]] + (x[1..] + y) == x + y;
    }
  }

  lemma AlignedAppend(c: Cursor, mid: Cursor, end: Cursor, x: seq<Answer>, y: seq<Answer>)
    requires Aligned(c, mid, x) && Aligned(mid, end, y)
    ensures Aligned(c, end, x + y)
  {
    EncodedAppend(x, y);
    ConcatAssociates(EncodeAnswers(x), EncodeAnswers(y), end.buffer);
  }

  /** The first calls return what was said, in order; the others one and the same end. */
  ghost predicate Heard(c: Cursor, n: nat, said: seq<Result<Record>>) {
    && |said| <= n
    && (forall j | 0 <= j < n :: Call(c, j) == if j < |said| then Some(said[j]) else NextAnswer(After(c, n)).1)
    && (|said| < n ==> NextAnswer(After(c, n)).0 == After(c, n))
  }

  lemma AfterShifts(c: Cursor, n: nat)
    requires n > 0
    ensures After(c, n) == After(NextAnswer(c).0, n - 1)
  {
  }

  lemma HeardStuck(c: Cursor, n: nat)
    requires n > 0
    requires
      var (c', answer) := NextAnswer(c);
      c' == NextAnswer(c').0 && answer == NextAnswer(c').1
    ensures After(c, n) == NextAnswer(c).0 && Heard(c, n, [])
  {
    hide NextAnswer;
    var c' := NextAnswer(c).0;
    StaysFixed(c', n - 1);
    forall j | 0 <= j < n
      ensures Call(c, j) == NextAnswer(c').1
    {
      CallShifts(c, j);
      if j > 0 {
        StaysFixed(c', j - 1);
      }
    }
  }

  lemma HeardNext(c: Cursor, n: nat, first: Result<Record>, rest: seq<Result<Record>>)
    requires n > 0 && Heard(NextAnswer(c).0, n - 1, rest) && NextAnswer(c).1 == Some(first)
    ensures Heard(c, n, [first] + rest)
  {
    hide NextAnswer, After, Call;
    var c' := NextAnswer(c).0;
    var said := [first] + rest;
    AfterShifts(c, n);
    forall j | 0 <= j < n
      ensures Call(c, j) == if j < |said| then Some(said[j]) else NextAnswer(After(c, n)).1
    {
      CallShifts(c, j);
      if j > 0 {
        assert j < |said| ==> said[j] == rest[j - 1];
      }
    }
  }

  lemma NoCalls(c: Cursor)
    ensures After(c, 0) == c && Aligned(c, c, []) && Heard(c, 0, Said([]))
  {
  }

  /** As long as no call tears a record, errors or not, the calls read the packet's own answers: the
      bytes taken are encoded answers, one for each the count went down by, and what they say
      is what the calls return, in order; any further calls return one and the same end. */
  lemma {:induction false} GenuineUntilTorn(c: Cursor, n: nat) returns (answers: seq<Answer>)
    requires NeverTears(c, n)
    ensures Aligned(c, After(c, n), answers) && Heard(c, n, Said(answers))
    decreases n
  {
    hide NextAnswer, Tears, Aligned, Heard, Said, EncodeAnswers, AllValid;
    if n == 0 {
      answers := [];
      NoCalls(c);
    } else {
      assert !Tears(After(c, 0));
      var c' := NextAnswer(c).0;
      forall j | 0 <= j < n - 1
        ensures !Tears(After(c', j))
      {
        assert After(c, j + 1) == After(c', j);
      }
      answers := CallTakesAnswers(c);
      if Said(answers) == [] {
        HeardStuck(c, n);
      } else {
        var rest := GenuineUntilTorn(c', n - 1);
        AlignedAppend(c, c', After(c, n), answers, rest);
        SaidAppend(answers, rest);
        HeardNext(c, n, Said(answers)[0], Said(rest));
        answers := answers + rest;
      }
    }
  }

  lemma {:induction false} AfterShrinks(c: Cursor, n: nat)
    ensures |After(c, n).buffer| <= |c.buffer| && After(c, n).count <= c.count
    decreases n
  {
    hide NameSize;
    if n > 0 {
      AfterShrinks(NextAnswer(c).0, n - 1);
    }
  }

  /** What is taken off aligned answers is the first of them. */
  lemma FirstOfAligned(c: Cursor, end: Cursor, answers: seq<Answer>)
    requires Aligned(c, end, answers) && answers != []
    ensures c.count > 0 ==>
      TakeRecord(c).1 == Ok(answers[0].raw) && Aligned(TakeRecord(c).0, end, answers[1..])
  {
    EncodedFrom(answers, end.buffer);
    if c.count > 0 {
      TakeEncoded(answers[0], EncodeAnswers(answers[1..]) + end.buffer, c.count);
    }
  }

  /** After a torn record nothing is aligned any more. */
  lemma {:induction false} TornIsNotAligned(c: Cursor, end: Cursor, answers: seq<Answer>)
    requires Tears(c)
    requires |end.buffer| <= |NextAnswer(c).0.buffer|
    ensures !Aligned(c, end, answers)
    decreases c.count
  {
    if Aligned(c, end, answers) && answers != [] {
      FirstOfAligned(c, end, answers);
      TornIsNotAligned(TakeRecord(c).0, end, answers[1..]);
    }
  }

  /** Answers that fit leave the same rest, however they are split. */
  lemma {:induction false} AlignedCancel(c: Cursor, mid: Cursor, end: Cursor, x: seq<Answer>, answers: seq<Answer>)
    requires Aligned(c, mid, x) && Aligned(c, end, answers) && end.count <= mid.count
    ensures |x| <= |answers| && Aligned(mid, end, answers[|x|..])
    decreases |x|
  {
    if x == [] {
      assert answers[0..] == answers;
      assert c.buffer == mid.buffer;
    } else {
      FirstOfAligned(c, mid, x);
      FirstOfAligned(c, end, answers);
      AlignedCancel(TakeRecord(c).0, mid, end, x[1..], answers[1..]);
      assert answers[1..][|x| - 1..] == answers[|x|..];
    }
  }

  lemma {:induction false} AlignedNeverTorn(c: Cursor, n: nat, answers: seq<Answer>)
    requires Aligned(c, After(c, n), answers)
    ensures NeverTears(c, n)
    decreases n
  {
    hide NextAnswer, Tears, Aligned;
    if n > 0 {
      var c' := NextAnswer(c).0;
      assert After(c, n) == After(c', n - 1);
      AfterShrinks(c', n - 1);
      if Tears(c) {
        TornIsNotAligned(c, After(c, n), answers);
      }
      var first := CallTakesAnswers(c);
      AlignedCancel(c, c', After(c, n), first, answers);
      AlignedNeverTorn(c', n - 1, answers[|first|..]);
      forall j | 0 <= j < n
        ensures !Tears(After(c, j))
      {
        assert j > 0 ==> After(c, j) == After(c', j - 1);
      }
    }
  }

  /** The bytes taken by the first calls are encoded answers, one for each the count went down by, if
      and only if none of those calls tore a record. */
  lemma AlignedExactly(c: Cursor, n: nat)
    ensures (exists answers :: Aligned(c, After(c, n), answers)) <==> NeverTears(c, n)
  {
    hide Aligned, Tears, Heard, After, NeverTears;
    if NeverTears(c, n) {
      var answers := GenuineUntilTorn(c, n);
      assert Aligned(c, After(c, n), answers);
    } else if answers :| Aligned(c, After(c, n), answers) {
      AlignedNeverTorn(c, n, answers);
    }
  }

  /** A record cut short after its name: its fields are missing, or its data are. */
  predicate CutAfterName(rest: seq<Byte>) {
    |rest| < 10 || |rest| < 10 + U16At(rest, 8) as int
  }

  /** Where a torn record leaves the iterator: right after the name, with the record still counted. */
  lemma TornStandsAfterName(name: Name, rest: seq<Byte>, count: nat)
    requires WellFormed(name) && count > 0 && CutAfterName(rest)
    ensures Tears(Cursor(Encode(name) + rest, count))
    ensures NextAnswer(Cursor(Encode(name) + rest, count)) == (Cursor(rest, count), Some(Err(InvalidData)))
  {
    SizeOfEncoded(name, rest);
    assert (Encode(name) + rest)[|Encode(name)|..] == rest;
  }

  /** An error need not be the end, and what follows it need not be genuine: a record whose data is
      cut short has lost its name but still counts, and the bytes after the name are then read as a
      record of their own. */
  lemma RecordAfterError() returns (c: Cursor)
    ensures Tears(c) && Call(c, 0) == Some(Err(InvalidData))
    ensures Call(c, 1) == Some(Ok(Record(V4([9, 9, 9, 9]), 1)))
  {
    var b: seq<Byte> := [0, 0, 1, 0, 1, 0, 0, 0, 1, 0, 4, 9, 9, 9, 9];
    c := Cursor([0] + b, 1);
    assert c.buffer[1..] == b && U16At(b, 8) == 0x100;
    assert NextAnswer(c) == (Cursor(b, 1), Some(Err(InvalidData)));
    assert After(c, 1) == After(Cursor(b, 1), 0);
    RecordTaken(b);
  }

  lemma RecordTaken(b: seq<Byte>)
    requires b == [0, 0, 1, 0, 1, 0, 0, 0, 1, 0, 4, 9, 9, 9, 9]
    ensures NextAnswer(Cursor(b, 1)).1 == Some(Ok(Record(V4([9, 9, 9, 9]), 1)))
  {
    var body := b[1..];
    assert body == [0, 1, 0, 1, 0, 0, 0, 1, 0, 4, 9, 9, 9, 9];
    assert body[10..14] == [9, 9, 9, 9] && U32At(body, 4) == 1;
    assert TakeRecord(Cursor(b, 1)).1 == Ok(Raw(1, 1, 1, [9, 9, 9, 9]));
  }
}
