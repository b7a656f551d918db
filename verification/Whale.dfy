/** The streamed reply of whale.py: the message cut into a few pieces, as server-sent events in a chunked body. */
module Whale {
  import opened Common
  import opened Text
  import Chunked

  // ---------------------------------------------------------------- words

  /** `message.split(" ")`. */
  function Split(message: string): (words: seq<string>)
    ensures words != []
  {
    if message == "" then [""]
    else if message[0] == ' ' then [""] + Split(message[1..])
    else
      var rest := Split(message[1..]);
      [[message[0]] + rest[0]] + rest[1..]
  }

  /** `" ".join(words)`. */
  function Join(words: seq<string>): string {
    if words == [] then "" else if |words| == 1 then words[0] else words[0] + " " + Join(words[1..])
  }

  lemma {:induction false} JoinSplit(message: string)
    ensures Join(Split(message)) == message
  {
    if message != "" {
      var rest := Split(message[1..]);
      JoinSplit(message[1..]);
      if message[0] == ' ' {
        assert ([""] + rest)[1..] == rest;
        assert message == " " + message[1..];
      } else {
        assert ([[message[0]] + rest[0]] + rest[1..])[1..] == rest[1..];
        assert message == [message[0]] + message[1..];
      }
    }
  }

  /** A word holds no space, and texts without spaces are the words of their join. */
  lemma {:induction false} SplitWords(message: string)
    ensures forall i :: 0 <= i < |Split(message)| ==> ' ' !in Split(message)[i]
  {
    if message != "" {
      SplitWords(message[1..]);
      var rest := Split(message[1..]);
      if message[0] != ' ' {
        assert Split(message)[0] == [message[0]] + rest[0];
      }
    }
  }

  lemma {:induction false} SplitJoin(words: seq<string>)
    requires words != [] && forall i :: 0 <= i < |words| ==> ' ' !in words[i]
    ensures Split(Join(words)) == words
  {
    if |words| == 1 {
      OneWord(words[0]);
      assert words == [words[0]];
    } else {
      SplitJoin(words[1..]);
      FirstWord(words[0], Join(words[1..]));
      assert [words[0]] + words[1..] == words;
    }
  }

  lemma {:induction false} OneWord(word: string)
    requires ' ' !in word
    ensures Split(word) == [word]
  {
    if word != "" {
      OneWord(word[1..]);
      assert [word[0]] + word[1..] == word;
    }
  }

  lemma {:induction false} FirstWord(word: string, rest: string)
    requires ' ' !in word
    ensures Split(word + " " + rest) == [word] + Split(rest)
  {
    var text := word + " " + rest;
    if word == "" {
      assert text[0] == ' ' && text[1..] == rest;
    } else {
      assert text[0] == word[0] && text[1..] == word[1..] + " " + rest;
      FirstWord(word[1..], rest);
      assert [word[0]] + word[1..] == word;
    }
  }

  lemma {:induction false} JoinConcat(a: seq<string>, b: seq<string>)
    requires a != [] && b != []
    ensures Join(a + b) == Join(a) + " " + Join(b)
  {
    if |a| == 1 {
      assert (a + b)[1..] == b;
    } else {
      assert (a + b)[1..] == a[1..] + b;
      JoinConcat(a[1..], b);
      assert a[0] + " " + (Join(a[1..]) + " " + Join(b)) == a[0] + " " + Join(a[1..]) + " " + Join(b);
    }
  }

  // ---------------------------------------------------------------- pieces

  function Step(words: seq<string>): (step: nat)
    ensures step >= 1
  {
    if |words| / 6 > 1 then |words| / 6 else 1
  }

  function Piece(words: seq<string>, i: nat, step: nat): string
    requires i <= |words|
  {
    (if i > 0 then " " else "") + Join(words[i..if i + step < |words| then i + step else |words|])
  }

  /** The pieces for `i`, `i + step`, and so on. */
  function Pieces(words: seq<string>, i: nat, step: nat): seq<string>
    requires step >= 1
    decreases |words| - i
  {
    if i >= |words| then [] else [Piece(words, i, step)] + Pieces(words, i + step, step)
  }

  function Concat(parts: seq<string>): string {
    if parts == [] then "" else parts[0] + Concat(parts[1..])
  }

  lemma {:induction false} PiecesConcat(words: seq<string>, i: nat, step: nat)
    requires step >= 1 && i < |words|
    ensures Concat(Pieces(words, i, step)) == (if i > 0 then " " else "") + Join(words[i..])
    decreases |words| - i
  {
    FirstPiece(words, i, step);
    hide Concat, Pieces, Join;
    if i + step < |words| {
      PiecesConcat(words, i + step, step);
      JoinConcat(words[i..i + step], words[i + step..]);
      assert words[i..] == words[i..i + step] + words[i + step..];
    } else {
      assert words[i..|words|] == words[i..];
    }
  }

  lemma FirstPiece(words: seq<string>, i: nat, step: nat)
    requires step >= 1 && i < |words|
    ensures Concat(Pieces(words, i, step)) == Piece(words, i, step) + Concat(Pieces(words, i + step, step))
    ensures i + step >= |words| ==> Concat(Pieces(words, i, step)) == Piece(words, i, step)
  {
    hide Piece;
    var first, rest := Piece(words, i, step), Pieces(words, i + step, step);
    assert ([first] + rest)[1..] == rest;
    assert first + "" == first;
  }

  lemma {:induction false} PiecesCount(words: seq<string>, i: nat, step: nat)
    requires step >= 1 && i <= |words|
    ensures (|Pieces(words, i, step)| - 1) * step < |words| - i || i == |words|
    decreases |words| - i
  {
    hide Piece;
    if i + step < |words| {
      PiecesCount(words, i + step, step);
      OneStepMore(|Pieces(words, i + step, step)|, step);
    }
  }

  lemma OneStepMore(k: nat, step: nat)
    ensures k * step == (k - 1) * step + step
  {
  }

  /** Splitting, cutting by `step` and rejoining lose nothing: the pieces spell the message. */
  lemma PiecesSpellMessage(message: string)
    ensures var words := Split(message); Concat(Pieces(words, 0, Step(words))) == message
  {
    var words := Split(message);
    PiecesConcat(words, 0, Step(words));
    JoinSplit(message);
    assert words[0..] == words;
    assert "" + Join(words) == Join(words);
  }

  /** No message needs more than 11 pieces, and one of eleven words needs that many. */
  lemma AtMostEleven(message: string)
    ensures var words := Split(message); 1 <= |Pieces(words, 0, Step(words))| <= 11
    ensures var words := Split(message); |words| <= 11 ==> |Pieces(words, 0, Step(words))| == |words|
  {
    var words := Split(message);
    var n, step := |words|, Step(words);
    var k := |Pieces(words, 0, step)|;
    PiecesCount(words, 0, step);
    ElevenSteps(k - 1, step);
    if n <= 11 {
      OnePerWord(words, 0);
    }
  }

  /** Piece `k` holds the words from the `k`-th step to the next, the last piece what is left. */
  lemma {:induction false} PieceAt(words: seq<string>, i: nat, step: nat, k: nat)
    requires step >= 1 && i <= |words| && k < |Pieces(words, i, step)|
    ensures var at := i + k * step; at < |words| && Pieces(words, i, step)[k] == Piece(words, at, step)
    decreases |words| - i
  {
    hide Piece;
    if k == 0 {
      assert k * step == 0;
    } else if i + step < |words| {
      PieceAt(words, i + step, step, k - 1);
      OneStepMore(k, step);
    }
  }

  /** The piece is the join of `step` words from `at` on, or of what is left, with a space in front unless it is the first. */
  predicate IsPiece(words: seq<string>, at: int, step: nat, first: bool, piece: string) {
    && 0 <= at < |words|
    && piece == (if first then "" else " ") + Join(if at + step < |words| then words[at..at + step] else words[at..])
  }

  lemma PieceIs(words: seq<string>, at: nat, step: nat)
    requires at < |words|
    ensures IsPiece(words, at, step, at == 0, Piece(words, at, step))
  {
    assert words[at..|words|] == words[at..];
  }

  /** A message of n words goes out in steps of n / 6 words, and at least one, until all are sent. */
  lemma PiecesAre(message: string)
    ensures var words := Split(message);
      var step := if |words| < 12 then 1 else |words| / 6;
      var pieces := Pieces(words, 0, Step(words));
      && |pieces| * step >= |words| > (|pieces| - 1) * step
      && forall k :: 0 <= k < |pieces| ==> IsPiece(words, k * step, step, k == 0, pieces[k])
  {
    hide Pieces, Split, Join, Piece;
    var words := Split(message);
    var step := Step(words);
    var pieces := Pieces(words, 0, step);
    PiecesCount(words, 0, step);
    PiecesReach(words, 0, step);
    forall k | 0 <= k < |pieces|
      ensures 0 <= k * step < |words| && IsPiece(words, k * step, step, k == 0, pieces[k])
    {
      PieceAt(words, 0, step, k);
      StepsFromZero(k, step);
      PieceIs(words, k * step, step);
    }
  }

  lemma StepsFromZero(k: nat, step: nat)
    requires step >= 1
    ensures k * step >= 0 && (k * step == 0 <==> k == 0)
  {
  }

  lemma {:induction false} PiecesReach(words: seq<string>, i: nat, step: nat)
    requires step >= 1 && i <= |words|
    ensures i + |Pieces(words, i, step)| * step >= |words|
    decreases |words| - i
  {
    hide Piece;
    if i + step < |words| {
      PiecesReach(words, i + step, step);
      OneStepMore(|Pieces(words, i, step)|, step);
    }
  }

  lemma ElevenSteps(m: int, step: nat)
    ensures m >= 11 ==> m * step >= 11 * step
  {
    if m >= 11 {
      assert m * step == (m - 11) * step + 11 * step;
    }
  }

  lemma {:induction false} OnePerWord(words: seq<string>, i: nat)
    requires i <= |words|
    ensures |Pieces(words, i, 1)| == |words| - i
    decreases |words| - i
  {
    if i < |words| {
      OnePerWord(words, i + 1);
    }
  }

  // ---------------------------------------------------------------- events

  /** What differs between the objects sent: `delta.role`, `delta.content` and `finish_reason`. */
  datatype Event = Event(role: Option<string>, content: Option<string>, finish: Option<string>)

  /** JSON writing, and a reader for it. */
  type Encoder = Event -> Chunked.Bytes
  type Decoder = Chunked.Bytes -> Option<Event>

  /** `json.dumps` escapes line feeds, and an object is not the text "[DONE]". */
  ghost predicate IsJson(enc: Encoder, dec: Decoder) {
    forall e :: dec(enc(e)) == Some(e) && '\n' !in enc(e) && enc(e) != "[DONE]"
  }

  const DONE := "[DONE]"

  function Data(text: Chunked.Bytes): Chunked.Bytes {
    "data: " + text + "\n\n"
  }

  function Content(piece: string): Event {
    Event(None, Some(piece), None)
  }

  function ContentEvents(pieces: seq<string>): seq<Event> {
    if pieces == [] then [] else [Content(pieces[0])] + ContentEvents(pieces[1..])
  }

  function Events(message: string): seq<Event> {
    var words := Split(message);
    [Event(Some("assistant"), Some(""), None)] + ContentEvents(Pieces(words, 0, Step(words))) + [Event(None, None, Some("stop"))]
  }

  function Payloads(es: seq<Event>, enc: Encoder): seq<Chunked.Bytes> {
    if es == [] then [Data(DONE)] else [Data(enc(es[0]))] + Payloads(es[1..], enc)
  }

  function Encoded(es: seq<Event>, enc: Encoder): seq<Chunked.Bytes> {
    if es == [] then [] else [Chunked.Chunk(Data(enc(es[0])))] + Encoded(es[1..], enc)
  }

  lemma {:induction false} ChunksOf(es: seq<Event>, e: Event, enc: Encoder)
    ensures Encoded(es + [e], enc) == Encoded(es, enc) + [Chunked.Chunk(Data(enc(e)))]
  {
    if es != [] {
      assert (es + [e])[1..] == es[1..] + [e];
      ChunksOf(es[1..], e, enc);
    } else {
      assert (es + [e])[1..] == [];
    }
  }

  lemma {:induction false} WholeBody(es: seq<Event>, enc: Encoder)
    ensures Concat(Encoded(es, enc) + [Chunked.Chunk(Data(DONE))] + [Chunked.LAST])
      == Chunked.EncodeAll(Payloads(es, enc)) + Chunked.LAST
  {
    hide Data, Chunked.Chunk;
    var tail := [Chunked.Chunk(Data(DONE))] + [Chunked.LAST];
    assert Encoded(es, enc) + [Chunked.Chunk(Data(DONE))] + [Chunked.LAST] == Encoded(es, enc) + tail;
    if es == [] {
      assert Encoded(es, enc) + tail == tail;
      assert tail[1..] == [Chunked.LAST];
      assert [Chunked.LAST][1..] == [];
      assert Concat([Chunked.LAST]) == Chunked.LAST + "";
      assert Concat(tail) == Chunked.Chunk(Data(DONE)) + Chunked.LAST;
      assert [Data(DONE)][1..] == [];
      assert Chunked.EncodeAll([Data(DONE)]) == Chunked.Chunk(Data(DONE)) + "";
    } else {
      WholeBody(es[1..], enc);
      var first := Chunked.Chunk(Data(enc(es[0])));
      assert ([first] + Encoded(es[1..], enc) + tail)[1..] == Encoded(es[1..], enc) + tail;
      assert Encoded(es[1..], enc) + [Chunked.Chunk(Data(DONE))] + [Chunked.LAST] == Encoded(es[1..], enc) + tail;
      var rest := Payloads(es[1..], enc);
      assert ([Data(enc(es[0]))] + rest)[1..] == rest;
      assert first + (Chunked.EncodeAll(rest) + Chunked.LAST) == first + Chunked.EncodeAll(rest) + Chunked.LAST;
    }
  }

  lemma OneChunk(e: Event, enc: Encoder)
    ensures Encoded([e], enc) == [Chunked.Chunk(Data(enc(e)))]
  {
    ChunksOf([], e, enc);
    assert [] + [e] == [e];
  }

  lemma NextPiece(sent: seq<Event>, words: seq<string>, i: nat, step: nat)
    requires step >= 1 && i < |words|
    ensures sent + ContentEvents(Pieces(words, i, step))
      == sent + [Content(Piece(words, i, step))] + ContentEvents(Pieces(words, i + step, step))
  {
    hide Piece;
    var rest := Pieces(words, i + step, step);
    assert ([Piece(words, i, step)] + rest)[1..] == rest;
  }

  lemma NoPiece(sent: seq<Event>, words: seq<string>, i: nat, step: nat)
    requires step >= 1 && i >= |words|
    ensures sent + ContentEvents(Pieces(words, i, step)) == sent
  {
  }

  /** The body of the streamed reply, built as the source builds it. */
  method BuildSse(message: string, enc: Encoder) returns (body: Chunked.Bytes)
    ensures body == Chunked.EncodeAll(Payloads(Events(message), enc)) + Chunked.LAST
  {
    hide Encoded, Payloads, Data, Chunked.Chunk, Chunked.EncodeAll, Concat, Split, Step, Join, Pieces, ContentEvents;
    var first, last := Event(Some("assistant"), Some(""), None), Event(None, None, Some("stop"));
    ghost var sent := [first];
    var chunks := [Chunked.Chunk(Data(enc(first)))];
    OneChunk(first, enc);
    var words := Split(message);
    var step := Step(words);
    var i := 0;
    while i < |words|
      invariant sent + ContentEvents(Pieces(words, i, step)) + [last] == Events(message)
      invariant chunks == Encoded(sent, enc)
      decreases |words| - i
    {
      var piece := (if i > 0 then " " else "") + Join(words[i..if i + step < |words| then i + step else |words|]);
      NextPiece(sent, words, i, step);
      ChunksOf(sent, Content(piece), enc);
      chunks := chunks + [Chunked.Chunk(Data(enc(Content(piece))))];
      sent := sent + [Content(piece)];
      i := i + step;
    }
    NoPiece(sent, words, i, step);
    ChunksOf(sent, last, enc);
    chunks := chunks + [Chunked.Chunk(Data(enc(last)))];
    WholeBody(Events(message), enc);
    chunks := chunks + [Chunked.Chunk(Data(DONE))] + [Chunked.LAST];
    body := Concat(chunks);
  }

  // ---------------------------------------------------------------- a reader of its own

  /** What a client makes of an event stream: the events up to "[DONE]"; None when it is not one. */
  function ReadStream(text: Chunked.Bytes, dec: Decoder): Option<seq<Event>>
    decreases |text|
  {
    if |text| < 6 || text[..6] != "data: " then None
    else
      var payload := Before(text[6..], '\n');
      var rest := After(text[6..], '\n');
      if rest == "" || rest[0] != '\n' then None
      else if payload == "[DONE]" then Some([])
      else
        match dec(payload)
        case None => None
        case Some(e) =>
          match ReadStream(rest[1..], dec)
          case None => None
          case Some(more) => Some([e] + more)
  }

  /** The text a chat client shows: the content deltas in order. */
  function Shown(es: seq<Event>): string {
    if es == [] then "" else (if es[0].content.Some? then es[0].content.value else "") + Shown(es[1..])
  }

  lemma ReadData(payload: Chunked.Bytes, rest: Chunked.Bytes)
    requires '\n' !in payload
    ensures var text := Data(payload) + rest;
      && |text| >= 6 && text[..6] == "data: " && Before(text[6..], '\n') == payload && After(text[6..], '\n') == "\n" + rest
      && ("\n" + rest)[1..] == rest
  {
    var text := Data(payload) + rest;
    assert text == "data: " + (payload + ['\n'] + ("\n" + rest));
    assert text[..6] == "data: " && text[6..] == payload + ['\n'] + ("\n" + rest);
    PartitionAt(payload, '\n', "\n" + rest);
  }

  lemma {:induction false} StreamReadsBack(es: seq<Event>, enc: Encoder, dec: Decoder)
    requires IsJson(enc, dec)
    ensures ReadStream(Concat(Payloads(es, enc)), dec) == Some(es)
  {
    hide Before, After, Data;
    if es == [] {
      assert [Data(DONE)][1..] == [];
      assert Concat([Data(DONE)]) == Data(DONE) + "";
      ReadData(DONE, "");
    } else {
      var rest := Payloads(es[1..], enc);
      assert ([Data(enc(es[0]))] + rest)[1..] == rest;
      StreamReadsBack(es[1..], enc, dec);
      ReadData(enc(es[0]), Concat(rest));
      assert [es[0]] + es[1..] == es;
    }
  }

  lemma {:induction false} ShownEvents(pieces: seq<string>, last: Event)
    requires last.content == None
    ensures Shown(ContentEvents(pieces) + [last]) == Concat(pieces)
  {
    var es := ContentEvents(pieces) + [last];
    if pieces == [] {
      assert es[1..] == [];
    } else {
      assert es[1..] == ContentEvents(pieces[1..]) + [last];
      ShownEvents(pieces[1..], last);
    }
  }

  lemma {:induction false} MiddleEvents(pieces: seq<string>)
    ensures |ContentEvents(pieces)| == |pieces|
    ensures forall k :: 0 <= k < |pieces| ==> ContentEvents(pieces)[k] == Event(None, Some(pieces[k]), None)
  {
    if pieces != [] {
      MiddleEvents(pieces[1..]);
    }
  }

  /** The assistant's role first, the reason for stopping last, and nothing but content between. */
  predicate EventsFrame(es: seq<Event>) {
    && |es| >= 3 && es[0] == Event(Some("assistant"), Some(""), None) && es[|es| - 1] == Event(None, None, Some("stop"))
    && forall k :: 0 < k < |es| - 1 ==> es[k].role.None? && es[k].content.Some? && es[k].finish.None?
  }

  lemma EventsAre(message: string)
    ensures EventsFrame(Events(message))
  {
    AtMostEleven(message);
    var pieces := Pieces(Split(message), 0, Step(Split(message)));
    hide Pieces, Split, Step, ContentEvents;
    MiddleEvents(pieces);
  }

  lemma {:induction false} PayloadsNonEmpty(es: seq<Event>, enc: Encoder)
    ensures Chunked.NonEmpty(Payloads(es, enc))
  {
    if es != [] {
      PayloadsNonEmpty(es[1..], enc);
    }
  }

  /**
   For every message: de-chunking the streamed body ends normally, the de-chunked text is
   an event stream, and what its content deltas spell is the message.
   */
  lemma StreamSaysMessage(message: string, enc: Encoder, dec: Decoder)
    requires IsJson(enc, dec)
    ensures var body := Chunked.EncodeAll(Payloads(Events(message), enc)) + Chunked.LAST;
      var (chunks, ending) := Chunked.Decode(body);
      && ending.Finished?
      && ReadStream(Concat(chunks), dec) == Some(Events(message))
      && Shown(Events(message)) == message
    ensures EventsFrame(Events(message))
  {
    hide Chunked.Decode, ReadStream, Payloads, EventsFrame;
    EventsAre(message);
    PayloadsNonEmpty(Events(message), enc);
    Chunked.RoundTrip(Payloads(Events(message), enc));
    StreamReadsBack(Events(message), enc, dec);
    var words := Split(message);
    var pieces := Pieces(words, 0, Step(words));
    var last := Event(None, None, Some("stop"));
    ShownEvents(pieces, last);
    assert Events(message)[1..] == ContentEvents(pieces) + [last];
    PiecesSpellMessage(message);
    assert "" + message == message;
  }
}
