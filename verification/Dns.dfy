/**
 The DNS wire form of tier1_dns.py (sections 4.1.1 to 4.1.4 of RFC 1035): the question
 parser, the response builder, and an independent reader of responses to hold them against.
 */
module Dns {
  import opened Common

  type byte = x: int | 0 <= x < 256
  type Bytes = seq<byte>

  datatype Error = Overrun | Compressed | TooManyAnswers

  // ---------------------------------------------------------------- names

  function JoinLabels(labels: seq<Bytes>): Bytes {
    if labels == [] then []
    else if |labels| == 1 then labels[0]
    else labels[0] + [46] + JoinLabels(labels[1..])
  }

  /** `parse_qname` from `off` on: the labels, and where the name ends. */
  function ParseLabels(data: Bytes, off: nat): (r: Result<(seq<Bytes>, nat), Error>)
    ensures r.Ok? ==> off < r.value.1 <= |data|
    decreases |data| - off
  {
    if off >= |data| then Err(Overrun)
    else
      var n := data[off];
      if n == 0 then Ok(([], off + 1))
      else if n >= 64 then Err(Compressed)
      else if off + 1 + n > |data| then Err(Overrun)
      else
        match ParseLabels(data, off + 1 + n)
        case Err(e) => Err(e)
        case Ok((rest, next)) => Ok(([data[off + 1..off + 1 + n]] + rest, next))
  }

  /** Python's slice past the end is short, and the overrun is then found on the next turn. */
  method ParseQname(data: Bytes, start: nat) returns (r: Result<(Bytes, nat), Error>)
    ensures ParseLabels(data, start).Ok? ==>
      r == Ok((JoinLabels(ParseLabels(data, start).value.0), ParseLabels(data, start).value.1))
    ensures ParseLabels(data, start).Err? ==> r == Err(ParseLabels(data, start).error)
  {
    var labels: seq<Bytes> := [];
    var off := start;
    while true
      invariant ParseLabels(data, start).Err? <==> ParseLabels(data, off).Err?
      invariant ParseLabels(data, start).Err? ==> ParseLabels(data, start) == ParseLabels(data, off)
      invariant ParseLabels(data, start).Ok? ==>
        && ParseLabels(data, start).value.0 == labels + ParseLabels(data, off).value.0
        && ParseLabels(data, start).value.1 == ParseLabels(data, off).value.1
      decreases |data| + 64 - off
    {
      if off >= |data| {
        return Err(Overrun);
      }
      var n := data[off];
      if n == 0 {
        assert labels + [] == labels;
        return Ok((JoinLabels(labels), off + 1));
      }
      if n >= 64 {
        return Err(Compressed);
      }
      var end := if off + 1 + n <= |data| then off + 1 + n else |data|;
      ghost var before := labels;
      labels := labels + [data[off + 1..end]];
      off := off + 1 + n;
      assert ParseLabels(data, off).Ok? ==>
        before + ([data[off - n..off]] + ParseLabels(data, off).value.0) == labels + ParseLabels(data, off).value.0;
    }
  }

  predicate GoodLabels(labels: seq<Bytes>) {
    forall i :: 0 <= i < |labels| ==> 0 < |labels[i]| < 64
  }

  function EncodeName(labels: seq<Bytes>): Bytes
    requires GoodLabels(labels)
  {
    if labels == [] then [0] else [|labels[0]|] + labels[0] + EncodeName(labels[1..])
  }

  /** Parsing inverts the encoding, wherever in the message the name stands. */
  lemma {:induction false} ParseInvertsEncode(before: Bytes, labels: seq<Bytes>, after: Bytes)
    requires GoodLabels(labels)
    ensures ParseLabels(before + EncodeName(labels) + after, |before|) == Ok((labels, |before + EncodeName(labels)|))
    decreases |labels|
  {
    var data := before + EncodeName(labels) + after;
    if labels != [] {
      var n := |labels[0]|;
      var before' := before + [n] + labels[0];
      assert data == before' + EncodeName(labels[1..]) + after;
      assert data[|before|] == n;
      assert data[|before| + 1..|before| + 1 + n] == labels[0];
      ParseInvertsEncode(before', labels[1..], after);
      assert |before'| == |before| + 1 + n;
      assert [labels[0]] + labels[1..] == labels;
    }
  }

  /** Whatever parses is the encoding of labels of 1 to 63 bytes; nothing else does. */
  lemma {:induction false} ParsedIsEncoded(data: Bytes, off: nat)
    requires ParseLabels(data, off).Ok?
    ensures var (labels, next) := ParseLabels(data, off).value;
      GoodLabels(labels) && data[off..next] == EncodeName(labels)
    decreases |data| - off
  {
    var n := data[off];
    var (labels, next) := ParseLabels(data, off).value;
    if n != 0 {
      ParsedIsEncoded(data, off + 1 + n);
      assert labels[1..] == ParseLabels(data, off + 1 + n).value.0;
      assert data[off..next] == [n] + data[off + 1..off + 1 + n] + data[off + 1 + n..next];
    }
  }

  /** Behind whole labels, a byte of 64 or more is refused as compression and a name that is cut off as an overrun. */
  lemma {:induction false} ParseFails(before: Bytes, labels: seq<Bytes>, after: Bytes)
    requires GoodLabels(labels)
    ensures var data := before + Labels(labels) + after;
      && (after != [] && after[0] >= 64 ==> ParseLabels(data, |before|) == Err(Compressed))
      && (after == [] || (0 < after[0] < 64 && |after| <= after[0]) ==> ParseLabels(data, |before|) == Err(Overrun))
    decreases |labels|
  {
    var data := before + Labels(labels) + after;
    if labels == [] {
      assert data == before + after;
      assert after != [] ==> data[|before|] == after[0];
    } else {
      var n := |labels[0]|;
      var before' := before + [n] + labels[0];
      assert data == before' + Labels(labels[1..]) + after;
      assert data[|before|] == n;
      ParseFails(before', labels[1..], after);
      assert |before'| == |before| + 1 + n;
    }
  }

  /** Encoded labels without the zero that ends a name. */
  function Labels(labels: seq<Bytes>): Bytes
    requires GoodLabels(labels)
  {
    if labels == [] then [] else [|labels[0]|] + labels[0] + Labels(labels[1..])
  }

  /** The pieces of a name between its dots. */
  function SplitDots(name: Bytes): (r: seq<Bytes>)
    ensures r != []
  {
    if name == [] then [[]]
    else
      var rest := SplitDots(name[1..]);
      if name[0] == 46 then [[]] + rest else [[name[0]] + rest[0]] + rest[1..]
  }

  /** Labels that hold no dot can be told from their joined name. */
  lemma {:induction false} SplitInvertsJoin(labels: seq<Bytes>)
    requires labels != [] && forall i :: 0 <= i < |labels| ==> 46 !in labels[i]
    ensures SplitDots(JoinLabels(labels)) == labels
    decreases |labels|
  {
    if |labels| == 1 {
      NoDots(labels[0]);
      assert labels == [labels[0]];
    } else {
      SplitInvertsJoin(labels[1..]);
      FirstPiece(labels[0], JoinLabels(labels[1..]));
      assert [labels[0]] + labels[1..] == labels;
    }
  }

  lemma {:induction false} NoDots(piece: Bytes)
    requires 46 !in piece
    ensures SplitDots(piece) == [piece]
  {
    if piece != [] {
      NoDots(piece[1..]);
      assert [piece[0]] + piece[1..] == piece;
    }
  }

  lemma {:induction false} FirstPiece(piece: Bytes, rest: Bytes)
    requires 46 !in piece
    ensures SplitDots(piece + [46] + rest) == [piece] + SplitDots(rest)
  {
    var name := piece + [46] + rest;
    if piece == [] {
      assert name[1..] == rest && name[0] == 46;
    } else {
      assert name[0] == piece[0] && name[1..] == piece[1..] + [46] + rest;
      FirstPiece(piece[1..], rest);
      assert [piece[0]] + piece[1..] == piece;
    }
  }

  // ---------------------------------------------------------------- building a response

  function Pack16(n: int): Bytes
    requires 0 <= n < 65536
  {
    [n / 256, n % 256]
  }

  function Word(data: Bytes, off: nat): (n: int)
    requires off + 2 <= |data|
    ensures 0 <= n < 65536
  {
    var high: int, low: int := data[off], data[off + 1];
    high * 256 + low
  }

  type Quad = q: Bytes | |q| == 4 witness [0, 0, 0, 0]

  /** `b"\xc0\x0c" + struct.pack(">HHIH", 1, 1, 0, 4) + ip4`. */
  function AnswerRecord(ip: Quad): (r: Bytes)
    ensures |r| == 16
  {
    [192, 12] + [0, 1] + [0, 1] + [0, 0, 0, 0] + [0, 4] + ip
  }

  function AnswerRecords(ips: seq<Quad>): (r: Bytes)
    ensures |r| == 16 * |ips|
  {
    if ips == [] then [] else AnswerRecord(ips[0]) + AnswerRecords(ips[1..])
  }

  /** `0x8000 | 0x0400 | (rd << 8) | (rcode & 0x0F)`. */
  function Flags(rd: int, rcode: nat): int
    requires 0 <= rd < 2
  {
    0x8000 + 0x0400 + rd * 256 + rcode % 16
  }

  /** Where the question section ends: four bytes after the name. */
  function QuestionEnd(query: Bytes): (r: Result<nat, Error>)
    requires |query| >= 12
    ensures r.Ok? ==> r.value >= 17
  {
    match ParseLabels(query, 12)
    case Err(e) => Err(e)
    case Ok((_, next)) => Ok(next + 4)
  }

  function Upto(data: Bytes, from: nat, to: nat): Bytes
    requires from <= |data|
  {
    if to <= |data| && from <= to then data[from..to] else data[from..]
  }

  function Header(query: Bytes, count: nat, rcode: nat): (h: Bytes)
    requires |query| >= 12 && count < 65536
    ensures |h| == 12
  {
    Pack16(Word(query, 0)) + Pack16(Flags(query[2] % 2, rcode)) + Pack16(1) + Pack16(count) + Pack16(0) + Pack16(0)
  }

  function BuildResponse(query: Bytes, answers: seq<Quad>, rcode: nat): Result<Bytes, Error>
    requires |query| >= 12
  {
    match QuestionEnd(query)
    case Err(e) => Err(e)
    case Ok(end) =>
      if |answers| >= 65536 then Err(TooManyAnswers)
      else Ok(Header(query, |answers|, rcode) + Upto(query, 12, end) + AnswerRecords(answers))
  }

  /** The answer loop of `build_response`. */
  method BuildResponseLoop(query: Bytes, answers: seq<Quad>, rcode: nat) returns (r: Result<Bytes, Error>)
    requires |query| >= 12
    ensures r == BuildResponse(query, answers, rcode)
  {
    var name := ParseQname(query, 12);
    if name.Err? {
      return Err(name.error);
    }
    if |answers| >= 65536 {
      return Err(TooManyAnswers);
    }
    var out := Header(query, |answers|, rcode) + Upto(query, 12, name.value.1 + 4);
    ghost var start := out;
    var i := 0;
    assert answers[0..] == answers;
    while i < |answers|
      invariant 0 <= i <= |answers|
      invariant out + AnswerRecords(answers[i..]) == start + AnswerRecords(answers)
    {
      assert answers[i..][1..] == answers[i + 1..];
      assert out + (AnswerRecord(answers[i]) + AnswerRecords(answers[i + 1..]))
          == (out + AnswerRecord(answers[i])) + AnswerRecords(answers[i + 1..]);
      out := out + AnswerRecord(answers[i]);
      i := i + 1;
    }
    assert out + [] == out;
    return Ok(out);
  }

  // ---------------------------------------------------------------- an independent reader of responses

  datatype Resource = Resource(owner: Bytes, rtype: int, rclass: int, ttl: int, rdata: Bytes)

  datatype Message = Message(
    id: int, isResponse: bool, opcode: int, authoritative: bool, truncated: bool, recursionDesired: bool,
    recursionAvailable: bool, reserved: int, rcode: int,
    questions: int, authorities: int, additional: int, question: Bytes, answers: seq<Resource>)

  /** A name that may be a pointer (section 4.1.4): its bytes and where reading goes on. */
  function ReadName(msg: Bytes, off: nat): (r: Option<(Bytes, nat)>)
    ensures r.Some? ==> off < r.value.1
  {
    if off + 2 <= |msg| && msg[off] >= 192 then
      match ParseLabels(msg, Word(msg, off) - 192 * 256)
      case Err(_) => None
      case Ok((labels, _)) => Some((JoinLabels(labels), off + 2))
    else
      match ParseLabels(msg, off)
      case Err(_) => None
      case Ok((labels, next)) => Some((JoinLabels(labels), next))
  }

  function ReadResource(msg: Bytes, off: nat): (r: Option<(Resource, nat)>)
    ensures r.Some? ==> off < r.value.1 <= |msg|
  {
    match ReadName(msg, off)
    case None => None
    case Some((owner, at)) =>
      if at + 10 > |msg| then None
      else
        var length := Word(msg, at + 8);
        if at + 10 + length > |msg| then None
        else
          var ttl := Word(msg, at + 4) * 65536 + Word(msg, at + 6);
          Some((Resource(owner, Word(msg, at), Word(msg, at + 2), ttl, msg[at + 10..at + 10 + length]), at + 10 + length))
  }

  function ReadResources(msg: Bytes, off: nat, count: nat): Option<seq<Resource>>
    decreases count
  {
    if count == 0 then (if off == |msg| then Some([]) else None)
    else
      match ReadResource(msg, off)
      case None => None
      case Some((first, next)) =>
        match ReadResources(msg, next, count - 1)
        case None => None
        case Some(rest) => Some([first] + rest)
  }

  /** A message with one question and nothing after its answers. */
  function ReadMessage(msg: Bytes): Option<Message> {
    if |msg| < 12 then None
    else
      match ParseLabels(msg, 12)
      case Err(_) => None
      case Ok((_, next)) =>
        if next + 4 > |msg| then None
        else
          match ReadResources(msg, next + 4, Word(msg, 6))
          case None => None
          case Some(answers) =>
            Some(Message(Word(msg, 0), msg[2] >= 128, msg[2] / 8 % 16, msg[2] / 4 % 2 == 1, msg[2] / 2 % 2 == 1, msg[2] % 2 == 1,
                         msg[3] >= 128, msg[3] / 16 % 8, msg[3] % 16,
                         Word(msg, 4), Word(msg, 8), Word(msg, 10), msg[12..next + 4], answers))
  }

  // ---------------------------------------------------------------- the response read back

  function Expected(name: Bytes, ips: seq<Quad>): seq<Resource> {
    seq(|ips|, i requires 0 <= i < |ips| => Resource(name, 1, 1, 0, ips[i]))
  }

  /** The name at offset 12 is not disturbed by what follows or precedes it. */
  lemma NameSurvives(query: Bytes, msg: Bytes)
    requires |query| >= 12 && |msg| >= 12 && ParseLabels(query, 12).Ok?
    requires var end := ParseLabels(query, 12).value.1; end <= |msg| && msg[12..end] == query[12..end]
    ensures ParseLabels(msg, 12) == ParseLabels(query, 12)
  {
    hide ParseLabels, EncodeName;
    ParsedIsEncoded(query, 12);
    var (labels, end) := ParseLabels(query, 12).value;
    ParseInvertsEncode(msg[..12], labels, msg[end..]);
    assert msg == msg[..12] + EncodeName(labels) + msg[end..];
  }

  lemma {:induction false} RecordsReadBack(msg: Bytes, off: nat, ips: seq<Quad>, name: Bytes)
    requires off <= |msg| && msg[off..] == AnswerRecords(ips)
    requires |msg| >= 12 && ParseLabels(msg, 12).Ok? && JoinLabels(ParseLabels(msg, 12).value.0) == name
    ensures ReadResources(msg, off, |ips|) == Some(Expected(name, ips))
    decreases |ips|
  {
    hide ParseLabels, JoinLabels;
    if ips == [] {
      assert |msg[off..]| == 0;
    } else {
      var rec := AnswerRecord(ips[0]);
      RecordReadsBack(msg, off, ips[0], name, AnswerRecords(ips[1..]));
      assert msg[off + 16..] == msg[off..][16..] == AnswerRecords(ips[1..]);
      RecordsReadBack(msg, off + 16, ips[1..], name);
      assert [Resource(name, 1, 1, 0, ips[0])] + Expected(name, ips[1..]) == Expected(name, ips);
    }
  }

  lemma RecordReadsBack(msg: Bytes, off: nat, ip: Quad, name: Bytes, rest: Bytes)
    requires off <= |msg| && msg[off..] == AnswerRecord(ip) + rest
    requires |msg| >= 12 && ParseLabels(msg, 12).Ok? && JoinLabels(ParseLabels(msg, 12).value.0) == name
    ensures off + 16 <= |msg| && ReadResource(msg, off) == Some((Resource(name, 1, 1, 0, ip), off + 16))
  {
    hide ParseLabels, JoinLabels;
    var tail := msg[off..];
    var rec := AnswerRecord(ip);
    assert |tail| >= 16;
    RecordBytes(msg, off, ip, rest);
    assert ReadName(msg, off) == Some((name, off + 2));
  }

  lemma RecordBytes(msg: Bytes, off: nat, ip: Quad, rest: Bytes)
    requires off <= |msg| && msg[off..] == AnswerRecord(ip) + rest
    ensures off + 16 <= |msg| && Word(msg, off) == 192 * 256 + 12 && msg[off] == 192
    ensures Word(msg, off + 2) == 1 && Word(msg, off + 4) == 1 && Word(msg, off + 6) == 0 && Word(msg, off + 8) == 0
    ensures Word(msg, off + 10) == 4 && msg[off + 12..off + 16] == ip
  {
    var tail := msg[off..];
    var rec := AnswerRecord(ip);
    assert forall i :: 0 <= i < 16 ==> tail[i] == rec[i];
    assert forall i :: 0 <= i < 16 ==> msg[off + i] == tail[i];
    assert rec[0] == 192 && rec[1] == 12 && rec[2] == 0 && rec[3] == 1 && rec[4] == 0 && rec[5] == 1;
    assert rec[6] == 0 && rec[7] == 0 && rec[8] == 0 && rec[9] == 0 && rec[10] == 0 && rec[11] == 4;
    assert msg[off + 12..off + 16] == tail[12..16] == ip;
  }

  lemma PackWord(n: int)
    requires 0 <= n < 65536
    ensures Word(Pack16(n), 0) == n
  {
  }

  lemma FlagBits(rd: int, rcode: nat)
    requires 0 <= rd < 2
    ensures var f := Pack16(Flags(rd, rcode));
      && f[0] >= 128 && f[0] / 8 % 16 == 0 && f[0] / 4 % 2 == 1 && f[0] / 2 % 2 == 0 && f[0] % 2 == rd
      && f[1] < 128 && f[1] / 16 % 8 == 0 && f[1] % 16 == rcode % 16
  {
  }

  /**
   For a complete question and fewer than 65536 answers, reading the response gives the
   query's id and RD bit, the given code, the question byte for byte and exactly the given
   A records, each owned through its pointer by the name asked about.
   */
  lemma ResponseReadsBack(query: Bytes, answers: seq<Quad>, rcode: nat)
    requires |query| >= 12 && |answers| < 65536
    requires ParseLabels(query, 12).Ok? && ParseLabels(query, 12).value.1 + 4 <= |query|
    ensures BuildResponse(query, answers, rcode).Ok?
    ensures var (labels, next) := ParseLabels(query, 12).value;
      ReadMessage(BuildResponse(query, answers, rcode).value)
        == Some(Message(Word(query, 0), true, 0, true, false, query[2] % 2 == 1, false, 0, rcode % 16, 1, 0, 0, query[12..next + 4],
                        Expected(JoinLabels(labels), answers)))
  {
    hide ParseLabels, JoinLabels, ReadResources, AnswerRecords, Expected, Header, Word, Flags, Pack16, ReadMessage, BuildResponse;
    var (labels, next) := ParseLabels(query, 12).value;
    Built(query, answers, rcode);
    var msg := BuildResponse(query, answers, rcode).value;
    var head := Header(query, |answers|, rcode);
    var question := query[12..next + 4];
    Layout(head, question, AnswerRecords(answers), msg);
    assert msg[12..next] == question[..next - 12] == query[12..next];
    NameSurvives(query, msg);
    RecordsReadBack(msg, next + 4, answers, JoinLabels(labels));
    FlagBits(query[2] % 2, rcode);
    HeaderWords(query, |answers|, rcode);
    ReadsAs(msg, labels, next, Expected(JoinLabels(labels), answers));
  }

  lemma Built(query: Bytes, answers: seq<Quad>, rcode: nat)
    requires |query| >= 12 && |answers| < 65536
    requires ParseLabels(query, 12).Ok? && ParseLabels(query, 12).value.1 + 4 <= |query|
    ensures var (labels, next) := ParseLabels(query, 12).value;
      next >= 12 && BuildResponse(query, answers, rcode)
        == Ok(Header(query, |answers|, rcode) + query[12..next + 4] + AnswerRecords(answers))
  {
    hide ParseLabels, Header, AnswerRecords;
  }

  lemma ReadsAs(msg: Bytes, labels: seq<Bytes>, next: nat, answers: seq<Resource>)
    requires |msg| >= 12 && ParseLabels(msg, 12) == Ok((labels, next)) && 8 <= next && next + 4 <= |msg|
    requires ReadResources(msg, next + 4, Word(msg, 6)) == Some(answers)
    ensures ReadMessage(msg)
      == Some(Message(Word(msg, 0), msg[2] >= 128, msg[2] / 8 % 16, msg[2] / 4 % 2 == 1, msg[2] / 2 % 2 == 1, msg[2] % 2 == 1,
                      msg[3] >= 128, msg[3] / 16 % 8, msg[3] % 16,
                      Word(msg, 4), Word(msg, 8), Word(msg, 10), msg[12..next + 4], answers))
  {
    hide ParseLabels, ReadResources, Word;
  }

  /** The three parts of a response, found again by position. */
  lemma Layout(head: Bytes, question: Bytes, tail: Bytes, msg: Bytes)
    requires |head| == 12 && msg == head + question + tail
    ensures msg[12..12 + |question|] == question && msg[12 + |question|..] == tail
    ensures Word(msg, 0) == Word(head, 0) && Word(msg, 4) == Word(head, 4) && Word(msg, 6) == Word(head, 6)
    ensures Word(msg, 8) == Word(head, 8) && Word(msg, 10) == Word(head, 10)
    ensures msg[2] == head[2] && msg[3] == head[3]
  {
    assert forall i :: 0 <= i < 12 ==> msg[i] == head[i];
  }

  lemma HeaderWords(query: Bytes, count: nat, rcode: nat)
    requires |query| >= 12 && count < 65536
    ensures var h := Header(query, count, rcode);
      && Word(h, 0) == Word(query, 0) && Word(h, 4) == 1 && Word(h, 6) == count && Word(h, 8) == 0 && Word(h, 10) == 0
      && h[2] == Pack16(Flags(query[2] % 2, rcode))[0] && h[3] == Pack16(Flags(query[2] % 2, rcode))[1]
  {
    PackWord(Word(query, 0));
    PackWord(count);
  }
}
