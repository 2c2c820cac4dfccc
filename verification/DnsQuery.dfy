/** The query packet builder. */
module DnsQueries {
  import opened Bytes
  import opened DnsNames

  const DOT: Byte := 46
  const C_IN: U16 := 1

  /** The header fields: ID, flags (recursion desired, authentic data), and the four counts. */
  const FIELDS: seq<U16> := [0, 0x0120, 1, 0, 0, 0]

  const HEADER: seq<Byte> := [0, 0, 1, 0x20, 0, 1, 0, 0, 0, 0, 0, 0]

  type Part = seq<Byte>

  /** The parts of a name between dots; there is always at least one, possibly empty. */
  function Split(name: seq<Byte>): (parts: seq<Part>)
    ensures parts != []
  {
    if name == [] then [[]]
    else
      var parts := Split(name[1..]);
      if name[0] == DOT then [[]] + parts else [[name[0]] + parts[0]] + parts[1..]
  }

  function Join(parts: seq<Part>): seq<Byte>
    requires parts != []
  {
    if |parts| == 1 then parts[0] else parts[0] + [46] + Join(parts[1..])
  }

  /** Splitting cuts the name at its dots, the bytes 46, and nowhere else. */
  lemma {:induction false} JoinOfSplit(name: seq<Byte>)
    ensures Join(Split(name)) == name
    ensures forall part | part in Split(name) :: 46 !in part
  {
    if name != [] {
      JoinOfSplit(name[1..]);
      var parts := Split(name[1..]);
      var all := Split(name);
      if name[0] == DOT {
        assert all[1..] == parts;
        assert Join(all) == [] + [46] + Join(parts);
      } else {
        assert all[1..] == parts[1..];
        assert parts[0] in parts;
        assert Join(all) == [name[0]] + Join(parts);
      }
      assert name == [name[0]] + name[1..];
    }
  }

  function NonEmpty(parts: seq<Part>): seq<Part> {
    if parts == [] then []
    else (if parts[0] == [] then [] else [parts[0]]) + NonEmpty(parts[1..])
  }

  /** The labels of a name: the non-empty parts between dots. */
  function Labels(name: seq<Byte>): seq<Part> {
    NonEmpty(Split(name))
  }

  predicate AllLabels(parts: seq<Part>) {
    forall part | part in parts :: 0 < |part| < 128
  }

  predicate Encodable(name: seq<Byte>) {
    AllLabels(Labels(name))
  }

  lemma {:induction false} AllNonEmpty(parts: seq<Part>)
    requires forall part | part in parts :: part != []
    ensures NonEmpty(parts) == parts
    decreases |parts|
  {
    if parts != [] {
      assert parts[0] in parts && forall part | part in parts[1..] :: part in parts;
      AllNonEmpty(parts[1..]);
      assert parts == [parts[0]] + parts[1..];
    }
  }

  /** A name without empty parts is its labels, in order, with dots between them. */
  lemma LabelsInOrder(name: seq<Byte>)
    requires forall part | part in Split(name) :: part != []
    ensures Labels(name) != [] && Join(Labels(name)) == name
  {
    JoinOfSplit(name);
    AllNonEmpty(Split(name));
  }

  function LabelsName(parts: seq<Part>): (name: Name)
    requires AllLabels(parts)
    ensures WellFormed(name)
  {
    if parts == [] then Root else Labelled(parts[0], LabelsName(parts[1..]))
  }

  /** The packet: header, one question for the name. */
  function Packet(name: seq<Byte>, queryType: U16): seq<Byte>
    requires Encodable(name)
  {
    HEADER + Encode(LabelsName(Labels(name))) + Be16(queryType) + Be16(C_IN)
  }

  // ----- the builder -----

  predicate AllShort(parts: seq<Part>) {
    forall part | part in parts :: |part| < 128
  }

  function LabelBytes(parts: seq<Part>): seq<Byte>
    requires AllShort(parts)
  {
    if parts == [] then [] else [|parts[0]|] + parts[0] + LabelBytes(parts[1..])
  }

  lemma {:induction false} LabelBytesOfName(parts: seq<Part>)
    requires AllLabels(parts)
    ensures Encode(LabelsName(parts)) == LabelBytes(parts) + [0]
  {
    if parts != [] {
      LabelBytesOfName(parts[1..]);
    }
  }

  lemma {:induction false} NonEmptyAppend(x: seq<Part>, y: seq<Part>)
    ensures NonEmpty(x + y) == NonEmpty(x) + NonEmpty(y)
  {
    if x == [] {
      assert x + y == y;
    } else {
      assert (x + y)[1..] == x[1..] + y;
      NonEmptyAppend(x[1..], y);
    }
  }

  lemma {:induction false} LabelBytesAppend(x: seq<Part>, y: seq<Part>)
    requires AllLabels(x) && AllLabels(y)
    ensures LabelBytes(x + y) == LabelBytes(x) + LabelBytes(y)
  {
    if x == [] {
      assert x + y == y;
    } else {
      assert (x + y)[1..] == x[1..] + y;
      LabelBytesAppend(x[1..], y);
    }
  }

  lemma {:induction false} NonEmptyMembers(parts: seq<Part>)
    ensures forall part :: part in NonEmpty(parts) <==> part in parts && part != []
  {
    if parts != [] {
      NonEmptyMembers(parts[1..]);
    }
  }

  /** How the builder ends: it panics when a label is too long or the buffer too small. */
  datatype Outcome = Panicked | Built(size: nat)

  /** The buffer begins with `written`; the rest is as it was. */
  ghost predicate Holds(buffer: array<Byte>, written: seq<Byte>, before: seq<Byte>)
    reads buffer
  {
    |written| <= |before| == buffer.Length && buffer[..] == written + before[|written|..]
  }

  /** Writes `bytes` at the front of what is left of the buffer. */
  method Put(buffer: array<Byte>, pos: nat, bytes: seq<Byte>, ghost written: seq<Byte>, ghost before: seq<Byte>)
    returns (ok: bool)
    requires Holds(buffer, written, before) && pos == |written|
    modifies buffer
    ensures ok <==> pos + |bytes| <= buffer.Length
    ensures ok ==> Holds(buffer, written + bytes, before)
  {
    if pos + |bytes| > buffer.Length {
      return false;
    }
    for i := 0 to |bytes|
      invariant Holds(buffer, written + bytes[..i], before)
    {
      buffer[pos + i] := bytes[i];
      assert bytes[..i + 1] == bytes[..i] + [bytes[i]];
    }
    assert bytes[..|bytes|] == bytes;
    return true;
  }

  lemma HeaderField(i: nat)
    requires i < 6
    ensures HEADER[..2 * i] + Be16(FIELDS[i]) == HEADER[..2 * (i + 1)]
  {
    assert Be16(FIELDS[i]) == HEADER[2 * i..2 * (i + 1)];
  }

  method PutHeader(buffer: array<Byte>) returns (ok: bool)
    modifies buffer
    ensures ok <==> 12 <= buffer.Length
    ensures ok ==> Holds(buffer, HEADER, old(buffer[..]))
  {
    ghost var before := buffer[..];
    for i := 0 to 6
      invariant Holds(buffer, HEADER[..2 * i], before)
    {
      ok := Put(buffer, 2 * i, Be16(FIELDS[i]), HEADER[..2 * i], before);
      if !ok {
        return;
      }
      HeaderField(i);
    }
    ok := true;
  }

  function PartBytes(part: Part): seq<Byte>
    requires |part| < 128
  {
    if part == [] then [] else [|part|] + part
  }

  /** Writes one part, unless it is empty. */
  method PutPart(buffer: array<Byte>, pos: nat, part: Part, ghost written: seq<Byte>, ghost before: seq<Byte>)
    returns (r: Outcome)
    requires Holds(buffer, written, before) && pos == |written|
    modifies buffer
    ensures r.Built? <==> |part| < 128 && pos + |PartBytes(part)| <= buffer.Length
    ensures r.Built? ==> r.size == pos + |PartBytes(part)| && Holds(buffer, written + PartBytes(part), before)
  {
    if part == [] {
      return Built(pos);
    }
    if |part| >= 128 {
      return Panicked;
    }
    var ok := Put(buffer, pos, [|part|], written, before);
    if !ok {
      return Panicked;
    }
    ok := Put(buffer, pos + 1, part, written + [|part|], before);
    if !ok {
      return Panicked;
    }
    assert written + [|part|] + part == written + ([|part|] + part);
    return Built(pos + 1 + |part|);
  }

  /** What is on the wire for the parts so far. */
  function Written(parts: seq<Part>): seq<Byte>
    requires AllShort(parts)
  {
    if parts == [] then [] else Written(parts[..|parts| - 1]) + PartBytes(parts[|parts| - 1])
  }

  lemma OnePart(part: Part)
    requires |part| < 128
    ensures AllLabels(NonEmpty([part])) && LabelBytes(NonEmpty([part])) == PartBytes(part)
  {
    assert [part][1..] == [];
  }

  lemma LabelsAreShort(parts: seq<Part>)
    requires AllShort(parts)
    ensures AllLabels(NonEmpty(parts))
  {
    NonEmptyMembers(parts);
  }

  lemma WrittenLast(parts: seq<Part>)
    requires AllShort(parts)
    ensures parts == [] ==> Written(parts) == LabelBytes(NonEmpty(parts)) == []
    ensures parts != [] ==>
      var before, last := parts[..|parts| - 1], parts[|parts| - 1];
      && AllShort(before) && |last| < 128 && parts == before + [last]
      && Written(parts) == Written(before) + PartBytes(last)
  {
  }

  lemma {:induction false} WrittenIsLabels(parts: seq<Part>)
    requires AllShort(parts)
    ensures AllLabels(NonEmpty(parts)) && Written(parts) == LabelBytes(NonEmpty(parts))
    decreases |parts|
  {
    hide Written, NonEmpty, LabelBytes, PartBytes, AllLabels, AllShort;
    LabelsAreShort(parts);
    WrittenLast(parts);
    if parts != [] {
      var before, last := parts[..|parts| - 1], parts[|parts| - 1];
      WrittenIsLabels(before);
      OnePart(last);
      NonEmptyAppend(before, [last]);
      LabelBytesAppend(NonEmpty(before), NonEmpty([last]));
    }
  }

  lemma {:induction false} WrittenGrows(parts: seq<Part>, i: nat)
    requires i <= |parts| && AllShort(parts)
    ensures |Written(parts[..i])| <= |Written(parts)|
    decreases |parts| - i
  {
    if i == |parts| {
      assert parts[..i] == parts;
    } else {
      assert parts[..i + 1][..i] == parts[..i];
      WrittenGrows(parts, i + 1);
    }
  }

  lemma EncodableParts(name: seq<Byte>)
    ensures Encodable(name) <==> AllShort(Split(name))
  {
    NonEmptyMembers(Split(name));
  }

  /** The packet in terms of the parts of the name. */
  lemma PacketOfParts(name: seq<Byte>, queryType: U16)
    ensures Encodable(name) <==> AllShort(Split(name))
    ensures Encodable(name) ==>
      Packet(name, queryType) == HEADER + Written(Split(name)) + [0] + Be16(queryType) + Be16(C_IN)
  {
    EncodableParts(name);
    if Encodable(name) {
      hide Split, NonEmpty, LabelBytes, Written, Encode, LabelsName, AllShort, AllLabels, Be16;
      WrittenIsLabels(Split(name));
      LabelBytesOfName(Labels(name));
      assert HEADER + (Written(Split(name)) + [0]) == HEADER + Written(Split(name)) + [0];
    }
  }

  method PutParts(buffer: array<Byte>, parts: seq<Part>, ghost before: seq<Byte>) returns (r: Outcome)
    requires Holds(buffer, HEADER, before)
    modifies buffer
    ensures r.Built? <==> AllShort(parts) && 12 + |Written(parts)| <= buffer.Length
    ensures r.Built? ==> r.size == 12 + |Written(parts)| && Holds(buffer, HEADER + Written(parts), before)
  {
    r := Built(12);
    assert HEADER + Written([]) == HEADER;
    for i := 0 to |parts|
      invariant AllShort(parts[..i]) && r == Built(12 + |Written(parts[..i])|)
      invariant Holds(buffer, HEADER + Written(parts[..i]), before)
    {
      AppendPart(HEADER, parts, i);
      r := PutPart(buffer, r.size, parts[i], HEADER + Written(parts[..i]), before);
      if r == Panicked {
        return;
      }
    }
    assert parts[..|parts|] == parts;
  }

  lemma WrittenStep(parts: seq<Part>, i: nat)
    requires i < |parts| && AllShort(parts[..i + 1])
    ensures AllShort(parts[..i]) && |parts[i]| < 128
    ensures Written(parts[..i + 1]) == Written(parts[..i]) + PartBytes(parts[i])
  {
    assert parts[..i + 1][..i] == parts[..i] && parts[..i + 1][i] == parts[i];
  }

  /** One more part; if it does not fit, neither does the whole. */
  lemma AppendPart(start: seq<Byte>, parts: seq<Part>, i: nat)
    requires i < |parts| && AllShort(parts[..i])
    ensures AllShort(parts) ==> |parts[i]| < 128
    ensures |parts[i]| < 128 ==>
      && AllShort(parts[..i + 1])
      && start + Written(parts[..i]) + PartBytes(parts[i]) == start + Written(parts[..i + 1])
    ensures AllShort(parts) ==> |Written(parts[..i])| + |PartBytes(parts[i])| <= |Written(parts)|
  {
    hide Written, PartBytes;
    assert parts[..i + 1] == parts[..i] + [parts[i]];
    if |parts[i]| < 128 {
      WrittenStep(parts, i);
      assert start + Written(parts[..i]) + PartBytes(parts[i]) == start + (Written(parts[..i]) + PartBytes(parts[i]));
    }
    if AllShort(parts) {
      WrittenGrows(parts, i + 1);
    }
  }

  /** Builds the packet at the front of the buffer.  It panics exactly when a label is longer than
      127 bytes or the packet does not fit; otherwise nothing beyond the packet is touched. */
  method MakeQueryPacket(name: seq<Byte>, buffer: array<Byte>, queryType: U16) returns (r: Outcome)
    modifies buffer
    ensures r.Built? <==> Encodable(name) && |Packet(name, queryType)| <= buffer.Length
    ensures r.Built? ==>
      && r.size == |Packet(name, queryType)|
      && buffer[..r.size] == Packet(name, queryType)
      && buffer[r.size..] == old(buffer[r.size..])
  {
    ghost var before := buffer[..];
    PacketOfParts(name, queryType);
    var ok := PutHeader(buffer);
    if !ok {
      return Panicked;
    }
    r := PutParts(buffer, Split(name), before);
    if r.Built? {
      r := PutTail(buffer, r.size, queryType, HEADER + Written(Split(name)), before);
    }
  }

  /** The end of the name, the type and the class. */
  method PutTail(buffer: array<Byte>, pos: nat, queryType: U16, ghost written: seq<Byte>, ghost before: seq<Byte>)
    returns (r: Outcome)
    requires Holds(buffer, written, before) && pos == |written|
    modifies buffer
    ensures r.Built? <==> pos + 5 <= buffer.Length
    ensures r.Built? ==> r.size == pos + 5 && Holds(buffer, written + [0] + Be16(queryType) + Be16(C_IN), before)
  {
    var ok := Put(buffer, pos, [0], written, before);
    if !ok {
      return Panicked;
    }
    ok := Put(buffer, pos + 1, Be16(queryType), written + [0], before);
    if !ok {
      return Panicked;
    }
    ok := Put(buffer, pos + 3, Be16(C_IN), written + [0] + Be16(queryType), before);
    if !ok {
      return Panicked;
    }
    return Built(pos + 5);
  }

  // ----- what the packet says -----

  function Total(parts: seq<Part>): nat {
    if parts == [] then 0 else |parts[0]| + 1 + Total(parts[1..])
  }

  lemma {:induction false} LabelBytesLength(parts: seq<Part>)
    requires AllLabels(parts)
    ensures |LabelBytes(parts)| == Total(parts)
  {
    if parts != [] {
      LabelBytesLength(parts[1..]);
    }
  }

  lemma {:induction false} SplitTotal(name: seq<Byte>)
    ensures Total(Split(name)) == |name| + 1
  {
    if name != [] {
      SplitTotal(name[1..]);
      var parts, all := Split(name[1..]), Split(name);
      assert name[0] == DOT ==> all[1..] == parts;
      assert name[0] != DOT ==> all[1..] == parts[1..];
    }
  }

  lemma {:induction false} NonEmptyTotal(parts: seq<Part>)
    ensures Total(NonEmpty(parts)) <= Total(parts)
  {
    if parts != [] {
      NonEmptyTotal(parts[1..]);
      assert parts[0] == [] ==> NonEmpty(parts) == NonEmpty(parts[1..]);
      assert parts[0] != [] ==> NonEmpty(parts)[1..] == NonEmpty(parts[1..]);
    }
  }

  /** The size of the packet: 17 bytes and one more than its length for each label; never more
      than the name and 18 bytes. */
  lemma PacketSize(name: seq<Byte>, queryType: U16)
    requires Encodable(name)
    ensures |Packet(name, queryType)| == 17 + Total(Labels(name)) <= |name| + 18
  {
    LabelBytesOfName(Labels(name));
    LabelBytesLength(Labels(name));
    SplitTotal(name);
    NonEmptyTotal(Split(name));
  }

  /** The labels of a name that is a list of labels and the root. */
  function NameLabels(name: Name): seq<Part> {
    match name
    case Labelled(text, rest) => [text] + NameLabels(rest)
    case _ => []
  }

  lemma {:induction false} LabelsOfLabelsName(parts: seq<Part>)
    requires AllLabels(parts)
    ensures NameLabels(LabelsName(parts)) == parts
  {
    if parts != [] {
      LabelsOfLabelsName(parts[1..]);
    }
  }

  /** The packet can be read back: the scanner ends at its question's type and class, and decoding
      gives the labels of the name. */
  lemma PacketReadsBack(name: seq<Byte>, queryType: U16)
    requires Encodable(name)
    ensures
      var packet := Packet(name, queryType);
      var size := NameSize(packet[12..]);
      && size.Ok? && size.value + 4 == |packet| - 12
      && NameLabels(Decode(packet[12..])) == Labels(name)
      && U16At(packet, |packet| - 4) == queryType && U16At(packet, |packet| - 2) == 1
  {
    var question := LabelsName(Labels(name));
    var after := Be16(queryType) + Be16(C_IN);
    PacketShape(HEADER, Encode(question), queryType);
    SizeOfEncoded(question, after);
    DecodeOfEncode(question, after);
    LabelsOfLabelsName(Labels(name));
  }

  lemma PacketShape(header: seq<Byte>, encoded: seq<Byte>, queryType: U16)
    requires |header| == 12
    ensures
      var packet := header + encoded + Be16(queryType) + Be16(C_IN);
      && packet[12..] == encoded + (Be16(queryType) + Be16(C_IN))
      && U16At(packet, |packet| - 4) == queryType && U16At(packet, |packet| - 2) == C_IN
  {
  }

  /** The header: ID 0; recursion desired, authentic data and no response bit; one question and
      nothing else. */
  lemma PacketHeader(name: seq<Byte>, queryType: U16)
    requires Encodable(name)
    ensures
      var packet := Packet(name, queryType);
      && |packet| >= 12
      && U16At(packet, 0) == 0 && U16At(packet, 2) == 0x0120
      && U16At(packet, 4) == 1 && U16At(packet, 6) == 0 && U16At(packet, 8) == 0 && U16At(packet, 10) == 0
  {
    HeaderNumbers(Encode(LabelsName(Labels(name))) + Be16(queryType) + Be16(C_IN));
    assert Packet(name, queryType) == HEADER + (Encode(LabelsName(Labels(name))) + Be16(queryType) + Be16(C_IN));
  }

  lemma HeaderNumbers(rest: seq<Byte>)
    ensures
      var packet := HEADER + rest;
      && U16At(packet, 0) == 0 && U16At(packet, 2) == 0x0120
      && U16At(packet, 4) == 1 && U16At(packet, 6) == 0 && U16At(packet, 8) == 0 && U16At(packet, 10) == 0
  {
  }

  /** Two packets are equal exactly when they ask for the same type and the same labels. */
  lemma PacketInjective(x: seq<Byte>, xType: U16, y: seq<Byte>, yType: U16)
    requires Encodable(x) && Encodable(y)
    ensures Packet(x, xType) == Packet(y, yType) <==> xType == yType && Labels(x) == Labels(y)
  {
    PacketReadsBack(x, xType);
    PacketReadsBack(y, yType);
  }
}
