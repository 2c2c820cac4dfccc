/** Bytes and big-endian integers. */
module Bytes {
  type Byte = n: nat | n < 0x100
  type U16 = n: nat | n < 0x1_0000
  type U32 = n: nat | n < 0x1_0000_0000

  function Be16(v: U16): seq<Byte> {
    [v / 0x100, v % 0x100]
  }

  function Be32(v: U32): seq<Byte> {
    Be16(v / 0x1_0000) + Be16(v % 0x1_0000)
  }

  function U16At(b: seq<Byte>, at: nat): U16
    requires at + 2 <= |b|
  {
    var high: int := b[at];
    high * 0x100 + b[at + 1]
  }

  function U32At(b: seq<Byte>, at: nat): U32
    requires at + 4 <= |b|
  {
    var high: int := U16At(b, at);
    high * 0x1_0000 + U16At(b, at + 2)
  }

  lemma Be16Inverse(b: seq<Byte>, at: nat)
    requires at + 2 <= |b|
    ensures Be16(U16At(b, at)) == b[at..at + 2]
  {
  }

  lemma Be32Inverse(b: seq<Byte>, at: nat)
    requires at + 4 <= |b|
    ensures Be32(U32At(b, at)) == b[at..at + 4]
  {
    Be16Inverse(b, at);
    Be16Inverse(b, at + 2);
    assert b[at..at + 4] == b[at..at + 2] + b[at + 2..at + 4];
  }

  lemma U32OfBe32(v: U32)
    ensures U32At(Be32(v), 0) == v
  {
  }
}

/** Domain names on the wire: the program's `name_size` against a grammar of names. */
module DnsNames {
  import opened Bytes
  import opened Wrappers

  type Label = s: seq<Byte> | 0 < |s| < 128 witness [1]

  /** A name is a list of labels, closed by the root or by a two-byte pointer whose first byte has
      its top bit set. */
  datatype Name =
    | Root
    | Pointer(high: Byte, low: Byte)
    | Labelled(text: Label, rest: Name)

  predicate WellFormed(name: Name) {
    match name
    case Root => true
    case Pointer(high, _) => high >= 128
    case Labelled(_, rest) => WellFormed(rest)
  }

  function Encode(name: Name): (b: seq<Byte>)
    ensures |b| >= 1
  {
    match name
    case Root => [0]
    case Pointer(high, low) => [high, low]
    case Labelled(text, rest) => [|text|] + text + Encode(rest)
  }

  function Beyond(n: nat, r: Result<nat>): Result<nat> {
    match r
    case Ok(m) => Ok(n + m)
    case Err(e) => Err(e)
  }

  /** What `name_size` computes, one label at a time. */
  function NameSize(b: seq<Byte>): (r: Result<nat>)
    ensures r.Ok? ==> 1 <= r.value <= |b|
    ensures r.Err? ==> r.error == InvalidData
    decreases |b|
  {
    if b == [] then Err(InvalidData)
    else if b[0] == 0 then Ok(1)
    else if b[0] < 128 then
      if 1 + b[0] > |b| then Err(InvalidData)
      else
        Beyond(1 + b[0], NameSize(b[1 + b[0]..]))
    else if 2 <= |b| then Ok(2)
    else Err(InvalidData)
  }

  lemma ScanLabel(b: seq<Byte>, pos: nat)
    requires pos < |b| && 0 < b[pos] < 128
    ensures NameSize(b[pos..]) == if pos + 1 + b[pos] > |b| then Err(InvalidData)
                                  else Beyond(1 + b[pos], NameSize(b[pos + 1 + b[pos]..]))
  {
    assert pos + 1 + b[pos] <= |b| ==> b[pos..][1 + b[pos]..] == b[pos + 1 + b[pos]..];
  }

  /** The size of the name at the front of the buffer, or InvalidData when there is none. */
  method ScanName(buffer: seq<Byte>) returns (r: Result<nat>)
    ensures r == NameSize(buffer)
  {
    var pos := 0;
    while true
      invariant 0 <= pos
      invariant pos <= |buffer| ==> NameSize(buffer) == Beyond(pos, NameSize(buffer[pos..]))
      invariant pos > |buffer| ==> NameSize(buffer) == Err(InvalidData)
      decreases |buffer| + 128 - pos
    {
      if pos >= |buffer| {
        return Err(InvalidData);
      }
      var byte := buffer[pos];
      assert buffer[pos..][0] == byte;
      pos := pos + 1;
      if byte == 0 {
        return Ok(pos);
      } else if byte < 128 {
        ScanLabel(buffer, pos - 1);
        pos := pos + byte;
      } else if pos + 1 <= |buffer| {
        return Ok(pos + 1);
      } else {
        return Err(InvalidData);
      }
    }
  }

  lemma SkipLabel(text: Label, rest: seq<Byte>, after: seq<Byte>)
    ensures
      var b := [|text|] + text + rest + after;
      b[0] == |text| && b[1..1 + |text|] == text && b[1 + |text|..] == rest + after
  {
  }

  /** The scanner finds exactly the end of an encoded name, whatever follows it. */
  lemma {:induction false} SizeOfEncoded(name: Name, after: seq<Byte>)
    requires WellFormed(name)
    ensures NameSize(Encode(name) + after) == Ok(|Encode(name)|)
  {
    match name
    case Root =>
    case Pointer(_, _) =>
    case Labelled(text, rest) =>
      SizeOfEncoded(rest, after);
      SkipLabel(text, Encode(rest), after);
  }

  /** Reading the name back. */
  function Decode(b: seq<Byte>): Name
    requires NameSize(b).Ok?
    decreases |b|
  {
    if b[0] == 0 then Root
    else if b[0] < 128 then Labelled(b[1..1 + b[0]], Decode(b[1 + b[0]..]))
    else Pointer(b[0], b[1])
  }

  lemma CutLabel(b: seq<Byte>, n: nat, m: nat)
    requires 1 <= n && n + m <= |b|
    ensures b[..n + m] == [b[0]] + b[1..n] + b[n..][..m]
  {
  }

  /** Whatever the scanner accepts is an encoded name. */
  lemma {:induction false} EncodeOfDecode(b: seq<Byte>)
    requires NameSize(b).Ok?
    ensures WellFormed(Decode(b)) && Encode(Decode(b)) == b[..NameSize(b).value]
    decreases |b|
  {
    if 0 < b[0] < 128 {
      var n := 1 + b[0];
      EncodeOfDecode(b[n..]);
      CutLabel(b, n, NameSize(b[n..]).value);
    }
  }

  /** `name_size` answers Ok(n) exactly when the first n bytes are a well-formed name. */
  lemma NameSizeExactly(b: seq<Byte>, n: nat)
    ensures NameSize(b) == Ok(n) <==>
            n <= |b| && exists name :: WellFormed(name) && Encode(name) == b[..n]
  {
    if NameSize(b) == Ok(n) {
      EncodeOfDecode(b);
    }
    if n <= |b| && exists name :: WellFormed(name) && Encode(name) == b[..n] {
      var name :| WellFormed(name) && Encode(name) == b[..n];
      SizeOfEncoded(name, b[n..]);
      assert b[..n] + b[n..] == b;
    }
  }

  /** The answer depends on no byte after the name. */
  lemma NameSizeLocal(x: seq<Byte>, y: seq<Byte>, n: nat)
    requires NameSize(x) == Ok(n) && n <= |y| && x[..n] == y[..n]
    ensures NameSize(y) == Ok(n)
  {
    NameSizeExactly(x, n);
    NameSizeExactly(y, n);
  }

  lemma {:induction false} DecodeOfEncode(name: Name, after: seq<Byte>)
    requires WellFormed(name)
    ensures NameSize(Encode(name) + after).Ok? && Decode(Encode(name) + after) == name
  {
    SizeOfEncoded(name, after);
    match name
    case Root =>
    case Pointer(_, _) =>
    case Labelled(text, rest) =>
      DecodeOfEncode(rest, after);
      SkipLabel(text, Encode(rest), after);
  }

  /** Encodings are a prefix-free code: no name's encoding is the beginning of another's. */
  lemma PrefixFree(x: Name, y: Name)
    requires WellFormed(x) && WellFormed(y) && Encode(x) <= Encode(y)
    ensures x == y
  {
    var after := Encode(y)[|Encode(x)|..];
    assert Encode(y) == Encode(x) + after && Encode(y) == Encode(y) + [];
    DecodeOfEncode(x, after);
    DecodeOfEncode(y, []);
  }

  /** A name cut short is refused. */
  lemma TruncatedName(name: Name, k: nat)
    requires WellFormed(name) && k < |Encode(name)|
    ensures NameSize(Encode(name)[..k]) == Err(InvalidData)
  {
    var b := Encode(name)[..k];
    if NameSize(b).Ok? {
      EncodeOfDecode(b);
      PrefixFree(Decode(b), name);
    }
  }
}
