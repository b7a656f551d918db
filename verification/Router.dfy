/**
 `Router.handle` of router.py.  A request is a state machine that moves once per
 `await`: the environment says how long the wait took, when it ended and whether the
 client still takes what was written; what the upstream does is a script fixed per
 attempt.  Any number of requests share the counters and the circuit breakers.
 */
module Router {
  import opened Common
  import opened Chunked

  const PRE_TOKEN_DEADLINE := 4.0
  const BREAKER_COOLDOWN := 5.0

  // ---------------------------------------------------------------- upstream scripts

  /**
   `LengthBody(declared, chunks, last)`: the Content-Length as parsed (None when `int`
   raises), what successive reads of the socket return, and what the read after those
   does: `Finished` when the socket has closed, otherwise it raises.
   */
  datatype Body = ChunkedBody(stream: Bytes) | LengthBody(declared: Option<int>, chunks: seq<Bytes>, last: Ending)

  /** How `_open_upstream` comes out when it is not cut off by the deadline. */
  datatype Opened = ConnectionFailed | OpenCrashed | Answered(status: int)

  datatype Upstream = Upstream(answer: Opened, body: Body)

  /** `while remaining > 0: data = await reader.read(min(65536, remaining))`. */
  function LengthPieces(chunks: seq<Bytes>, remaining: int): (ps: seq<Bytes>)
    ensures NonEmpty(ps)
    decreases |chunks|
  {
    if remaining <= 0 || chunks == [] || chunks[0] == "" then []
    else
      var limit := if remaining < 65536 then remaining else 65536;
      var data := if |chunks[0]| <= limit then chunks[0] else chunks[0][..limit];
      [data] + LengthPieces(chunks[1..], remaining - |data|)
  }

  function LengthEnding(chunks: seq<Bytes>, remaining: int, last: Ending): Ending
    decreases |chunks|
  {
    if remaining <= 0 then Finished
    else if chunks == [] then last
    else if chunks[0] == "" then Finished
    else
      var limit := if remaining < 65536 then remaining else 65536;
      LengthEnding(chunks[1..], remaining - (if |chunks[0]| <= limit then |chunks[0]| else limit), last)
  }

  /** What `_read_body` yields and how it ends. */
  function BodyOf(b: Body): (r: (seq<Bytes>, Ending))
    ensures NonEmpty(r.0)
  {
    match b
    case ChunkedBody(stream) =>
      DecodedNonEmpty(stream);
      Decode(stream)
    case LengthBody(declared, chunks, last) =>
      if declared.None? then ([], Uncaught)
      else (LengthPieces(chunks, declared.value), LengthEnding(chunks, declared.value, last))
  }

  lemma {:induction false} DecodedNonEmpty(s: Bytes)
    ensures NonEmpty(Decode(s).0)
    decreases |s|
  {
    hide SizeOf, LineLength;
    if s != "" {
      var n := LineLength(s);
      var size := SizeOf(s[..n]);
      if size.Some? && 0 < size.value <= |s| - n {
        var rest := s[n + size.value..];
        DecodedNonEmpty(rest[LineLength(rest)..]);
        DecodeMore(s, n, size.value);
      }
    }
  }

  function Total(ps: seq<Bytes>): nat {
    if ps == [] then 0 else |ps[0]| + Total(ps[1..])
  }

  /** What a reader that asks for 65536 bytes at a time could get before an empty read. */
  function Available(chunks: seq<Bytes>): nat {
    if chunks == [] || chunks[0] == "" then 0
    else (if |chunks[0]| <= 65536 then |chunks[0]| else 65536) + Available(chunks[1..])
  }

  /**
   A Content-Length body yields as many bytes as were declared or, when fewer came, all
   that came; and if the socket then closes it ends normally in both cases, so a body
   that is too short is not told from a complete one.
   */
  lemma {:induction false} ShortBodyEndsNormally(declared: int, chunks: seq<Bytes>)
    ensures Total(LengthPieces(chunks, declared)) as int
      == if declared <= 0 then 0 else if declared < Available(chunks) then declared else Available(chunks)
    ensures LengthEnding(chunks, declared, Finished) == Finished
    decreases |chunks|
  {
    if declared > 0 && chunks != [] && chunks[0] != "" {
      var limit := if declared < 65536 then declared else 65536;
      var data := if |chunks[0]| <= limit then chunks[0] else chunks[0][..limit];
      ShortBodyEndsNormally(declared - |data|, chunks[1..]);
    }
  }

  function Flat(ps: seq<Bytes>): Bytes {
    if ps == [] then "" else ps[0] + Flat(ps[1..])
  }

  ghost predicate Reads(chunks: seq<Bytes>) {
    forall i :: 0 <= i < |chunks| ==> 0 < |chunks[i]| <= 65536
  }

  /** What is yielded: for non-empty reads of at most 65536 bytes, exactly the first `declared` of the bytes that came, in order. */
  lemma {:induction false} LengthContents(declared: int, chunks: seq<Bytes>)
    requires Reads(chunks)
    ensures Flat(LengthPieces(chunks, declared)) ==
      if declared <= 0 then "" else if declared < |Flat(chunks)| then Flat(chunks)[..declared] else Flat(chunks)
    decreases |chunks|
  {
    if declared > 0 && chunks != [] {
      var data := if |chunks[0]| <= declared then chunks[0] else chunks[0][..declared];
      var rest := LengthPieces(chunks[1..], declared - |data|);
      LengthContents(declared - |data|, chunks[1..]);
      FirstPiece(chunks, declared, data);
      hide LengthPieces;
      assert ([data] + rest)[1..] == rest;
      assert Flat([data] + rest) == data + Flat(rest);
      CutFlat(chunks[0], Flat(chunks[1..]), declared);
    }
  }

  lemma FirstPiece(chunks: seq<Bytes>, declared: int, data: Bytes)
    requires chunks != [] && Reads(chunks) && declared > 0
    requires data == if |chunks[0]| <= declared then chunks[0] else chunks[0][..declared]
    ensures LengthPieces(chunks, declared) == [data] + LengthPieces(chunks[1..], declared - |data|)
  {
  }

  lemma CutFlat(first: Bytes, rest: Bytes, n: nat)
    ensures n <= |first| ==> (first + rest)[..n] == first[..n]
    ensures |first| <= n <= |first + rest| ==> (first + rest)[..n] == first + rest[..n - |first|]
    ensures first[..|first|] + "" == first && forall k :: 0 <= k <= |first| ==> first[..k] + "" == first[..k]
  {
  }

  /** Each piece is what one read returned, only the last perhaps cut; and the socket's ending shows only if bytes are missing. */
  lemma {:induction false} LengthPiecesAre(declared: int, chunks: seq<Bytes>, last: Ending)
    requires Reads(chunks)
    ensures |LengthPieces(chunks, declared)| <= |chunks|
    ensures forall i :: 0 <= i < |LengthPieces(chunks, declared)| ==> LengthPieces(chunks, declared)[i] <= chunks[i]
    ensures forall i :: 0 <= i < |LengthPieces(chunks, declared)| - 1 ==> LengthPieces(chunks, declared)[i] == chunks[i]
    ensures LengthEnding(chunks, declared, last) == if declared <= |Flat(chunks)| then Finished else last
    decreases |chunks|
  {
    if declared > 0 && chunks != [] {
      var data := if |chunks[0]| <= declared then chunks[0] else chunks[0][..declared];
      LengthPiecesAre(declared - |data|, chunks[1..], last);
      FirstPiece(chunks, declared, data);
      if |data| < |chunks[0]| {
        assert LengthPieces(chunks[1..], declared - |data|) == [];
      }
      hide LengthPieces;
    }
  }

  /** An empty read means the socket is closed: whatever is scripted behind it is not looked at. */
  lemma {:induction false} EmptyReadEnds(declared: int, before: seq<Bytes>, after: seq<Bytes>, last: Ending)
    requires forall i :: 0 <= i < |before| ==> before[i] != ""
    ensures LengthEnding(before + [""] + after, declared, last) == Finished
    ensures LengthPieces(before + [""] + after, declared) == LengthPieces(before, declared)
    decreases |before|
  {
    var chunks := before + [""] + after;
    if declared > 0 && before != [] {
      var limit := if declared < 65536 then declared else 65536;
      var data := if |before[0]| <= limit then before[0] else before[0][..limit];
      assert chunks[0] == before[0] && chunks[1..] == before[1..] + [""] + after;
      EmptyReadEnds(declared - |data|, before[1..], after, last);
    }
  }

  lemma OneMore(pieces: seq<Bytes>, data: Bytes, rest: seq<Bytes>)
    ensures pieces + ([data] + rest) == (pieces + [data]) + rest
  {
  }

  /** The Content-Length loop of `_read_body`. */
  method ReadLengthBody(declared: int, chunks: seq<Bytes>, last: Ending) returns (pieces: seq<Bytes>, ending: Ending)
    ensures pieces == LengthPieces(chunks, declared)
    ensures ending == LengthEnding(chunks, declared, last)
  {
    hide NonEmpty;
    pieces := [];
    var remaining := declared;
    var i := 0;
    assert chunks[0..] == chunks && [] + LengthPieces(chunks, declared) == LengthPieces(chunks, declared);
    while remaining > 0
      invariant 0 <= i <= |chunks|
      invariant LengthPieces(chunks, declared) == pieces + LengthPieces(chunks[i..], remaining)
      invariant LengthEnding(chunks, declared, last) == LengthEnding(chunks[i..], remaining, last)
      decreases |chunks| - i
    {
      if i == |chunks| {
        return pieces, last;
      }
      if chunks[i] == "" {
        break;
      }
      var limit := if remaining < 65536 then remaining else 65536;
      var data := if |chunks[i]| <= limit then chunks[i] else chunks[i][..limit];
      assert chunks[i..][1..] == chunks[i + 1..];
      OneMore(pieces, data, LengthPieces(chunks[i + 1..], remaining - |data|));
      remaining := remaining - |data|;
      pieces := pieces + [data];
      i := i + 1;
    }
    ending := Finished;
  }

  // ---------------------------------------------------------------- one request

  /** What the handler has handed to the client's transport. */
  datatype Sent = Head(worker: string, attempt: nat) | Piece(data: Bytes) | Last | Unavailable

  /** How `client_writer.drain()` comes out: fine, an exception the attempt catches, or another one. */
  datatype Drained = Written | ClientGone | DrainCrashed

  /** One resumption: how long the wait was, when it ended, and what a drain would say. */
  datatype Event = Event(delay: real, at: real, drained: Drained)

  datatype How = Served | FailFast | NoCapacity | Escaped

  datatype Pc =
    | Opening              // await wait_for(_open_upstream(...))
    | Reading              // await body_iter.__anext__()
    | DrainPiece           // await drain() after a chunk
    | DrainEnd             // await drain() after the normal terminator
    | DrainAbort           // await drain() after the fail-fast terminator
    | DrainNone            // await drain() after the no-capacity answer
    | Closed(how: How)

  /**
   `stray` counts terminators already written by attempts whose empty body ended
   normally but could not be drained, after which the loop goes on.
   */
  datatype Request = Request(
    plan: seq<string>, ups: seq<Upstream>, attempt: nat, started: nat, committed: bool,
    next: nat, pc: Pc, sent: seq<Sent>, stray: nat, ended: bool, waited: real)

  datatype Stats = Stats(requests: nat, failovers: nat, midstream: nat, noCapacity: nat, ok: nat)

  datatype Shared = Shared(stats: Stats, broken: map<string, real>)

  predicate Planned(plan: seq<string>, ups: seq<Upstream>) {
    |plan| == |ups|
  }

  function Worker(r: Request): string
    requires r.attempt < |r.plan|
  {
    r.plan[r.attempt]
  }

  function Trip(sh: Shared, worker: string, at: real): Shared {
    sh.(broken := sh.broken[worker := at + BREAKER_COOLDOWN])
  }

  function Arrive(sh: Shared, plan: seq<string>, ups: seq<Upstream>): (Request, Shared) {
    var stats := sh.stats.(requests := sh.stats.requests + 1);
    if plan == [] then
      (Request(plan, ups, 0, 0, false, 0, DrainNone, [Unavailable], 0, false, 0.0),
       sh.(stats := stats.(noCapacity := stats.noCapacity + 1)))
    else
      (Request(plan, ups, 0, 1, false, 0, Opening, [], 0, false, 0.0), sh.(stats := stats))
  }

  /** The two places that give up an attempt before the first token and `continue`. */
  function NextAttempt(r: Request, sh: Shared, at: real): (Request, Shared)
    requires r.attempt < |r.plan|
  {
    var tripped := Trip(sh, Worker(r), at);
    if r.attempt + 1 < |r.plan| then
      (r.(attempt := r.attempt + 1, started := r.started + 1, next := 0, pc := Opening),
       tripped.(stats := tripped.stats.(failovers := tripped.stats.failovers + 1)))
    else
      (r.(pc := DrainNone, sent := r.sent + [Unavailable]),
       tripped.(stats := tripped.stats.(noCapacity := tripped.stats.noCapacity + 1)))
  }

  /** The `except` branch: truncate a stream that has begun, retry one that has not. */
  function Caught(r: Request, sh: Shared, at: real): (Request, Shared)
    requires r.attempt < |r.plan|
  {
    if r.committed then
      var tripped := Trip(sh, Worker(r), at);
      (r.(pc := DrainAbort, sent := r.sent + [Last]),
       tripped.(stats := tripped.stats.(midstream := tripped.stats.midstream + 1)))
    else NextAttempt(r, sh, at)
  }

  function Escape(r: Request): Request {
    r.(pc := Closed(Escaped))
  }

  function Bounded(delay: real): real {
    if delay <= PRE_TOKEN_DEADLINE then delay else PRE_TOKEN_DEADLINE
  }

  /** A wait under the pre-token deadline adds at most the deadline. */
  function Waiting(r: Request, e: Event): Request {
    if r.committed then r else r.(waited := r.waited + Bounded(e.delay))
  }

  function OpenStep(r: Request, sh: Shared, e: Event): (Request, Shared)
    requires r.attempt < |r.plan| == |r.ups|
  {
    if e.delay > PRE_TOKEN_DEADLINE then Caught(r, sh, e.at)
    else
      match r.ups[r.attempt].answer
      case ConnectionFailed => Caught(r, sh, e.at)
      case OpenCrashed => (Escape(r), sh)
      case Answered(status) =>
        if status != 200 then NextAttempt(r, sh, e.at) else (r.(pc := Reading, next := 0), sh)
  }

  function ReadStep(r: Request, sh: Shared, e: Event): (Request, Shared)
    requires r.attempt < |r.plan| == |r.ups|
  {
    var (pieces, ending) := BodyOf(r.ups[r.attempt].body);
    if !r.committed && e.delay > PRE_TOKEN_DEADLINE then Caught(r, sh, e.at)
    else if r.next < |pieces| then
      var head := if r.committed then [] else [Head(Worker(r), r.attempt)];
      (r.(committed := true, next := r.next + 1, pc := DrainPiece, sent := r.sent + head + [Piece(pieces[r.next])]), sh)
    else
      match ending
      case Finished => (r.(pc := DrainEnd, sent := r.sent + [Last]), sh)
      case Dropped => Caught(r, sh, e.at)
      case Incomplete => Caught(r, sh, e.at)
      case Uncaught => (Escape(r), sh)
  }

  function EndStep(r: Request, sh: Shared, e: Event): (Request, Shared)
    requires r.attempt < |r.plan|
  {
    match e.drained
    case Written => (r.(pc := Closed(Served)), sh.(stats := sh.stats.(ok := sh.stats.ok + 1)))
    case ClientGone => Caught(if r.committed then r.(ended := true) else r.(stray := r.stray + 1), sh, e.at)
    case DrainCrashed => (Escape(r), sh)
  }

  function PieceStep(r: Request, sh: Shared, e: Event): (Request, Shared)
    requires r.attempt < |r.plan|
  {
    match e.drained
    case Written => (r.(pc := Reading), sh)
    case ClientGone => Caught(r, sh, e.at)
    case DrainCrashed => (Escape(r), sh)
  }

  /** One resumption of the handler, up to its next `await`. */
  function Resume(r: Request, sh: Shared, e: Event): (Request, Shared)
    requires r.plan != [] ==> r.attempt < |r.plan| == |r.ups|
    requires r.plan == [] ==> r.pc.DrainNone? || r.pc.Closed?
  {
    match r.pc
    case Opening => OpenStep(Waiting(r, e), sh, e)
    case Reading => ReadStep(Waiting(r, e), sh, e)
    case DrainPiece => PieceStep(r, sh, e)
    case DrainEnd => EndStep(r, sh, e)
    case DrainAbort => (r.(pc := Closed(FailFast)), sh)
    case DrainNone => (r.(pc := Closed(NoCapacity)), sh)
    case Closed(_) => (r, sh)
  }

  // ---------------------------------------------------------------- what every request keeps

  function Lasts(n: nat): seq<Sent> {
    seq(n, _ => Last)
  }

  function Pieces(cs: seq<Bytes>): seq<Sent> {
    seq(|cs|, i requires 0 <= i < |cs| => Piece(cs[i]))
  }

  /** The chunks of the current attempt's upstream that have been forwarded. */
  function Forwarded(r: Request): seq<Bytes>
    requires r.attempt < |r.ups| && r.next <= |BodyOf(r.ups[r.attempt].body).0|
  {
    BodyOf(r.ups[r.attempt].body).0[..r.next]
  }

  /** What was sent once the head is out: it names one worker, whose chunks follow in order. */
  function Stream(r: Request): seq<Sent>
    requires r.attempt < |r.plan| == |r.ups| && r.next <= |BodyOf(r.ups[r.attempt].body).0|
  {
    if r.committed then [Head(Worker(r), r.attempt)] + Pieces(Forwarded(r)) else []
  }

  function Tail(pc: Pc, ended: bool): seq<Sent> {
    match pc
    case DrainEnd => [Last]
    case DrainAbort => if ended then [Last, Last] else [Last]
    case DrainNone => [Unavailable]
    case Closed(how) =>
      (match how
       case Served => [Last]
       case FailFast => if ended then [Last, Last] else [Last]
       case NoCapacity => [Unavailable]
       case Escaped => [])
    case _ => []
  }

  ghost predicate WaitBound(r: Request) {
    r.waited <= 2.0 * PRE_TOKEN_DEADLINE * (r.attempt as real)
      + (if r.pc.Opening? then 0.0
         else if r.pc.Reading? && !r.committed then PRE_TOKEN_DEADLINE
         else 2.0 * PRE_TOKEN_DEADLINE)
  }

  /** Everything one request keeps, whatever its upstreams and its client do. */
  ghost predicate Keeps(r: Request) {
    && |r.plan| == |r.ups|
    && (r.plan == [] ==> (r.pc.DrainNone? || r.pc == Closed(NoCapacity)) && r.started == 0 && r.attempt == 0
                         && !r.committed && r.sent == [Unavailable] && r.waited == 0.0)
    && (r.plan != [] ==>
          && r.attempt < |r.plan| && r.started == r.attempt + 1
          && r.next <= |BodyOf(r.ups[r.attempt].body).0|
          && (r.committed <==> r.next > 0)
          && (r.pc.Opening? ==> !r.committed)
          && (r.pc.DrainPiece? || r.pc.DrainAbort? || r.pc == Closed(FailFast) ==> r.committed)
          && (r.pc.DrainNone? || r.pc == Closed(NoCapacity) ==> !r.committed)
          && (r.ended ==> r.committed && (r.pc.DrainAbort? || r.pc == Closed(FailFast)))
          && (r.committed || r.pc.Reading? || r.pc.DrainEnd? || r.pc == Closed(Served) ==>
                r.ups[r.attempt].answer == Answered(200))
          && (r.pc.DrainEnd? || r.pc == Closed(Served) ==>
                r.next == |BodyOf(r.ups[r.attempt].body).0| && BodyOf(r.ups[r.attempt].body).1 == Finished)
          && (r.pc != Closed(Escaped) ==> r.sent == Lasts(r.stray) + Stream(r) + Tail(r.pc, r.ended))
          && (r.pc == Closed(Escaped) ==>
                r.sent == Lasts(r.stray) + Stream(r) || r.sent == Lasts(r.stray) + Stream(r) + [Last])
          && WaitBound(r))
  }

  lemma ArriveKeeps(sh: Shared, plan: seq<string>, ups: seq<Upstream>)
    requires Planned(plan, ups)
    ensures Keeps(Arrive(sh, plan, ups).0)
  {
    assert Lasts(0) + [] + [] == [];
  }

  /** An attempt that fails before the first token leaves nothing of itself on the wire. */
  lemma GiveUpKeeps(w: Request, sh: Shared, at: real)
    requires w.attempt < |w.plan| == |w.ups| && w.started == w.attempt + 1 && !w.committed && w.next == 0
    requires w.sent == Lasts(w.stray)
    requires w.waited <= 2.0 * PRE_TOKEN_DEADLINE * (w.attempt as real) + 2.0 * PRE_TOKEN_DEADLINE && !w.ended
    ensures Keeps(NextAttempt(w, sh, at).0)
  {
    hide BodyOf;
    var r' := NextAttempt(w, sh, at).0;
    assert r'.sent == Lasts(r'.stray) + Stream(r') + Tail(r'.pc, r'.ended);
  }

  lemma UncommittedSent(r: Request)
    requires Keeps(r) && r.plan != [] && !r.committed && r.pc != Closed(Escaped)
    ensures r.next == 0 && r.sent == Lasts(r.stray) + Tail(r.pc, r.ended)
  {
    assert Lasts(r.stray) + [] == Lasts(r.stray);
  }

  lemma OpenKeeps(r: Request, sh: Shared, e: Event)
    requires Keeps(r) && r.pc.Opening?
    ensures Keeps(Resume(r, sh, e).0)
  {
    hide BodyOf;
    UncommittedSent(r);
    var w := Waiting(r, e);
    assert r.sent == Lasts(r.stray);
    GiveUpKeeps(w, sh, e.at);
    var r' := Resume(r, sh, e).0;
    var waiting := w.(pc := Reading, next := 0);
    assert Lasts(r.stray) + Stream(waiting) + [] == Lasts(r.stray);
  }

  lemma ReadKeeps(r: Request, sh: Shared, e: Event)
    requires Keeps(r) && r.pc.Reading?
    ensures Keeps(Resume(r, sh, e).0)
  {
    hide BodyOf;
    var w := Waiting(r, e);
    var pieces := BodyOf(r.ups[r.attempt].body).0;
    var r' := Resume(r, sh, e).0;
    assert r.sent == Lasts(r.stray) + Stream(r);
    if !r.committed {
      UncommittedSent(r);
      assert r.sent == Lasts(r.stray);
      GiveUpKeeps(w, sh, e.at);
    }
    if r'.pc.DrainPiece? {
      assert pieces[..r.next + 1] == pieces[..r.next] + [pieces[r.next]];
      assert Pieces(pieces[..r.next + 1]) == Pieces(pieces[..r.next]) + [Piece(pieces[r.next])];
      assert Pieces(pieces[..0]) == [];
      assert r'.sent == Lasts(r'.stray) + Stream(r') + [];
    }
  }

  lemma DrainKeeps(r: Request, sh: Shared, e: Event)
    requires Keeps(r) && (r.pc.DrainPiece? || r.pc.DrainEnd?)
    ensures Keeps(Resume(r, sh, e).0)
  {
    hide BodyOf;
    var r' := Resume(r, sh, e).0;
    if !r.committed {
      UncommittedSent(r);
      assert Lasts(r.stray) + [Last] == Lasts(r.stray + 1);
      GiveUpKeeps(r.(stray := r.stray + 1), sh, e.at);
    } else {
      assert Lasts(r.stray) + Stream(r) + [] == Lasts(r.stray) + Stream(r);
      assert Lasts(r.stray) + Stream(r) + [Last] + [Last] == Lasts(r.stray) + Stream(r) + [Last, Last];
    }
  }

  lemma AbortKeeps(r: Request, sh: Shared, e: Event)
    requires Keeps(r) && r.pc.DrainAbort?
    ensures Keeps(Resume(r, sh, e).0)
  {
    hide BodyOf;
    var q := Resume(r, sh, e).0;
    assert r.plan != [] && q.pc == Closed(FailFast);
    assert Stream(q) == Stream(r) && WaitBound(q);
    assert q.sent == Lasts(q.stray) + Stream(q) + Tail(q.pc, q.ended);
  }

  lemma ResumeKeeps(r: Request, sh: Shared, e: Event)
    requires Keeps(r)
    ensures Keeps(Resume(r, sh, e).0)
  {
    hide BodyOf;
    match r.pc {
      case Opening => OpenKeeps(r, sh, e);
      case Reading => ReadKeeps(r, sh, e);
      case DrainPiece => DrainKeeps(r, sh, e);
      case DrainEnd => DrainKeeps(r, sh, e);
      case DrainAbort =>
        AbortKeeps(r, sh, e);
      case DrainNone => assert r.plan != [] ==> Stream(Resume(r, sh, e).0) == Stream(r);
      case Closed(_) => assert Resume(r, sh, e).0 == r;
    }
  }

  // ---------------------------------------------------------------- the first-token contract

  /** The latch is one-way, and once it is set the attempt never changes again (router.py:117-164). */
  lemma LatchHolds(r: Request, sh: Shared, e: Event)
    requires Keeps(r) && r.committed
    ensures var r' := Resume(r, sh, e).0;
      && r'.committed && r'.attempt == r.attempt && r'.started == r.started
      && r.next <= r'.next && r.sent <= r'.sent
  {
    hide BodyOf;
  }

  /** A resumption of one request, over and over: `es` is what the environment answers. */
  function ResumeAll(r: Request, sh: Shared, es: seq<Event>): (out: (Request, Shared))
    requires Keeps(r)
    ensures Keeps(out.0)
    decreases |es|
  {
    ResumeKeeps(r, sh, if es == [] then Event(0.0, 0.0, Written) else es[0]);
    if es == [] then (r, sh)
    else
      var (r1, sh1) := Resume(r, sh, es[0]);
      ResumeAll(r1, sh1, es[1..])
  }

  /** A chunk that has reached the client stays the last attempt's, over the whole rest of the run. */
  lemma {:induction false} NoAttemptAfterFirstToken(r: Request, sh: Shared, es: seq<Event>)
    requires Keeps(r) && r.committed
    ensures var r' := ResumeAll(r, sh, es).0;
      r'.committed && r'.attempt == r.attempt && r'.started == r.started && r.sent <= r'.sent
    decreases |es|
  {
    hide Resume;
    if es != [] {
      LatchHolds(r, sh, es[0]);
      ResumeKeeps(r, sh, es[0]);
      NoAttemptAfterFirstToken(Resume(r, sh, es[0]).0, Resume(r, sh, es[0]).1, es[1..]);
    }
  }

  function Heads(sent: seq<Sent>): seq<Sent> {
    if sent == [] then [] else (if sent[0].Head? then [sent[0]] else []) + Heads(sent[1..])
  }

  function Payload(sent: seq<Sent>): seq<Bytes> {
    if sent == [] then [] else (if sent[0].Piece? then [sent[0].data] else []) + Payload(sent[1..])
  }

  lemma {:induction false} SplitSent(a: seq<Sent>, b: seq<Sent>)
    ensures Heads(a + b) == Heads(a) + Heads(b) && Payload(a + b) == Payload(a) + Payload(b)
  {
    if a == [] {
      assert a + b == b;
    } else {
      assert (a + b)[1..] == a[1..] + b && (a + b)[0] == a[0];
      SplitSent(a[1..], b);
      var h := if a[0].Head? then [a[0]] else [];
      assert h + (Heads(a[1..]) + Heads(b)) == h + Heads(a[1..]) + Heads(b);
      var d := if a[0].Piece? then [a[0].data] else [];
      assert d + (Payload(a[1..]) + Payload(b)) == d + Payload(a[1..]) + Payload(b);
    }
  }

  lemma {:induction false} OnlyLasts(n: nat)
    ensures Heads(Lasts(n)) == [] && Payload(Lasts(n)) == []
  {
    if n > 0 {
      assert Lasts(n)[1..] == Lasts(n - 1);
      OnlyLasts(n - 1);
    }
  }

  lemma {:induction false} OnlyPieces(cs: seq<Bytes>)
    ensures Heads(Pieces(cs)) == [] && Payload(Pieces(cs)) == cs
  {
    if cs != [] {
      assert Pieces(cs)[1..] == Pieces(cs[1..]);
      OnlyPieces(cs[1..]);
      assert [cs[0]] + cs[1..] == cs;
    }
  }

  lemma TailPlain(pc: Pc, ended: bool)
    ensures Heads(Tail(pc, ended)) == [] && Payload(Tail(pc, ended)) == []
  {
    assert [Last, Last][1..] == [Last];
  }

  /**
   The first-token contract: at every moment, also after an exception has ended the
   request, the payload the client has been sent is a prefix of what one single worker's
   body yields, and at most one head has been sent, naming that worker, whose answer was 200.
   */
  lemma FirstTokenContract(r: Request)
    requires Keeps(r) && r.plan != []
    ensures r.committed ==> r.ups[r.attempt].answer == Answered(200)
    ensures Payload(r.sent) == if r.committed then Forwarded(r) else []
    ensures Heads(r.sent) == if r.committed then [Head(Worker(r), r.attempt)] else []
    ensures Forwarded(r) <= BodyOf(r.ups[r.attempt].body).0
  {
    hide BodyOf, WaitBound, Lasts, Stream, Tail, Heads, Payload;
    var tail := AfterStream(r);
    hide Keeps;
    SplitSent(Lasts(r.stray) + Stream(r), tail);
    SplitSent(Lasts(r.stray), Stream(r));
    OnlyLasts(r.stray);
    StreamIsOneWorkers(r);
  }

  lemma AfterStream(r: Request) returns (tail: seq<Sent>)
    requires Keeps(r) && r.plan != []
    ensures r.attempt < |r.plan| == |r.ups| && r.next <= |BodyOf(r.ups[r.attempt].body).0|
    ensures r.sent == Lasts(r.stray) + Stream(r) + tail && Heads(tail) == [] && Payload(tail) == []
  {
    hide BodyOf, WaitBound, Lasts, Stream;
    TailPlain(r.pc, r.ended);
    var a := Lasts(r.stray) + Stream(r);
    var nothing: seq<Sent> := [];
    assert a + nothing == a;
    tail := if r.pc != Closed(Escaped) then Tail(r.pc, r.ended) else if r.sent == a then nothing else [Last];
    assert [Last][1..] == nothing;
  }

  lemma StreamIsOneWorkers(r: Request)
    requires r.attempt < |r.plan| == |r.ups| && r.next <= |BodyOf(r.ups[r.attempt].body).0|
    ensures Payload(Stream(r)) == if r.committed then Forwarded(r) else []
    ensures Heads(Stream(r)) == if r.committed then [Head(Worker(r), r.attempt)] else []
  {
    hide BodyOf, Pieces, Forwarded;
    if r.committed {
      var head := [Head(Worker(r), r.attempt)];
      SplitSent(head, Pieces(Forwarded(r)));
      OnlyPieces(Forwarded(r));
      assert head[1..] == [];
    }
  }

  /**
   A request counted `ok` got no head if and only if its last upstream's body yielded
   nothing; the client then got terminators only.
   */
  lemma OkWithoutHead(r: Request)
    requires Keeps(r) && r.plan != [] && r.pc == Closed(Served)
    ensures Heads(r.sent) == [] <==> BodyOf(r.ups[r.attempt].body).0 == []
    ensures BodyOf(r.ups[r.attempt].body).0 == [] ==> r.sent == Lasts(r.stray + 1)
  {
    hide BodyOf;
    FirstTokenContract(r);
    if !r.committed {
      UncommittedSent(r);
      assert Lasts(r.stray) + [Last] == Lasts(r.stray + 1);
    }
  }

  const PROMPT := Event(0.0, 0.0, Written)

  const EMPTY := Upstream(Answered(200), LengthBody(Some(0), [], Finished))

  /** Where the request on one worker with an empty body stands after each of its three waits. */
  function EmptyRequest(pc: Pc, sent: seq<Sent>): Request {
    Request(["w"], [EMPTY], 0, 1, false, 0, pc, sent, 0, false, 0.0)
  }

  lemma EmptyBody()
    ensures BodyOf(EMPTY.body) == ([], Finished)
  {
  }

  lemma EmptyArrives(sh: Shared)
    ensures Arrive(sh, ["w"], [EMPTY])
      == (EmptyRequest(Opening, []), sh.(stats := sh.stats.(requests := sh.stats.requests + 1)))
  {
  }

  lemma NoWait(r: Request, e: Event)
    requires e.delay == 0.0
    ensures Waiting(r, e) == r
  {
  }

  lemma EmptyOpens(sh: Shared)
    ensures Resume(EmptyRequest(Opening, []), sh, PROMPT) == (EmptyRequest(Reading, []), sh)
  {
    hide Resume, Waiting, BodyOf;
    var r := EmptyRequest(Opening, []);
    NoWait(r, PROMPT);
    Opens(r, sh, PROMPT);
  }

  lemma Opens(r: Request, sh: Shared, e: Event)
    requires r.attempt < |r.plan| == |r.ups| && r.pc.Opening? && e.delay <= PRE_TOKEN_DEADLINE
    requires r.ups[r.attempt].answer == Answered(200)
    ensures Resume(r, sh, e) == (Waiting(r, e).(pc := Reading, next := 0), sh)
  {
    hide ReadStep, PieceStep, EndStep, BodyOf, Caught, NextAttempt;
  }

  lemma EmptyEnds(sh: Shared)
    ensures Resume(EmptyRequest(Reading, []), sh, PROMPT) == (EmptyRequest(DrainEnd, [Last]), sh)
  {
    hide Resume, Waiting, BodyOf;
    EmptyBody();
    var r := EmptyRequest(Reading, []);
    NoWait(r, PROMPT);
    BodyEnds(r, sh, PROMPT);
    assert r.sent + [Last] == [Last];
  }

  lemma BodyEnds(r: Request, sh: Shared, e: Event)
    requires r.attempt < |r.plan| == |r.ups| && r.pc.Reading? && e.delay <= PRE_TOKEN_DEADLINE
    requires r.next == |BodyOf(r.ups[r.attempt].body).0| && BodyOf(r.ups[r.attempt].body).1 == Finished
    ensures Resume(r, sh, e) == (Waiting(r, e).(pc := DrainEnd, sent := r.sent + [Last]), sh)
  {
    hide OpenStep, PieceStep, EndStep, BodyOf, Caught, NextAttempt;
  }

  lemma EmptyDrains(sh: Shared)
    ensures Resume(EmptyRequest(DrainEnd, [Last]), sh, PROMPT)
      == (EmptyRequest(Closed(Served), [Last]), sh.(stats := sh.stats.(ok := sh.stats.ok + 1)))
  {
    hide OpenStep, ReadStep, PieceStep, BodyOf;
  }

  /** Such a request: one worker answers 200 with `Content-Length: 0`; it is counted `ok`, and no head was written. */
  lemma OkWithoutHeadHappens(sh: Shared)
    ensures Keeps(Arrive(sh, ["w"], [EMPTY]).0)
    ensures var (r, sh') := ResumeAll(Arrive(sh, ["w"], [EMPTY]).0, Arrive(sh, ["w"], [EMPTY]).1, [PROMPT, PROMPT, PROMPT]);
      r.pc == Closed(Served) && r.sent == [Last] && Heads(r.sent) == [] && sh'.stats.ok == sh.stats.ok + 1
  {
    hide Keeps, Resume, Arrive, ResumeAll;
    ArriveKeeps(sh, ["w"], [EMPTY]);
    EmptyArrives(sh);
    EmptyBodyServed(Arrive(sh, ["w"], [EMPTY]).1);
    assert [Last][1..] == [];
  }

  lemma EmptyBodyServed(sh: Shared)
    requires Keeps(EmptyRequest(Opening, []))
    ensures ResumeAll(EmptyRequest(Opening, []), sh, [PROMPT, PROMPT, PROMPT])
      == (EmptyRequest(Closed(Served), [Last]), sh.(stats := sh.stats.(ok := sh.stats.ok + 1)))
  {
    hide Keeps, Resume, ResumeAll, EmptyRequest;
    EmptyOpens(sh);
    EmptyEnds(sh);
    EmptyDrains(sh);
    ThreeEvents(EmptyRequest(Opening, []), sh, PROMPT, PROMPT, PROMPT);
  }

  lemma ThreeEvents(r: Request, sh: Shared, a: Event, b: Event, c: Event)
    requires Keeps(r)
    ensures Keeps(Resume(r, sh, a).0)
    ensures Keeps(Resume(Resume(r, sh, a).0, Resume(r, sh, a).1, b).0)
    ensures var (r1, sh1) := Resume(r, sh, a);
      var (r2, sh2) := Resume(r1, sh1, b);
      ResumeAll(r, sh, [a, b, c]) == Resume(r2, sh2, c)
  {
    hide Resume, BodyOf, Stream, WaitBound, Lasts, Tail;
    ResumeKeeps(r, sh, a);
    var (r1, sh1) := Resume(r, sh, a);
    ResumeKeeps(r1, sh1, b);
    var (r2, sh2) := Resume(r1, sh1, b);
    ResumeKeeps(r2, sh2, c);
    var (r3, sh3) := Resume(r2, sh2, c);
    hide Keeps;
    assert [a, b, c][1..] == [b, c] && [b, c][1..] == [c] && [c][1..] == [];
    assert ResumeAll(r3, sh3, []) == (r3, sh3);
    assert ResumeAll(r2, sh2, [c]) == ResumeAll(r3, sh3, []);
    assert ResumeAll(r1, sh1, [b, c]) == ResumeAll(r2, sh2, [c]);
  }

  // ---------------------------------------------------------------- what one resumption does

  /**
   An attempt given up before the first token: exactly its worker is tripped, for five
   seconds from then, nothing of the attempt is sent, and the next attempt is started as a
   failover or, after the last, the request is out of capacity.
   */
  ghost predicate GivenUp(r: Request, sh: Shared, at: real, r': Request, sh': Shared)
    requires r.attempt < |r.plan|
  {
    && sh'.broken == sh.broken[r.plan[r.attempt] := at + 5.0]
    && !r'.committed && r'.stray == r.stray && r'.plan == r.plan && r'.ups == r.ups
    && (if r.attempt + 1 < |r.plan| then
          && r'.pc.Opening? && r'.attempt == r.attempt + 1 && r'.started == r.started + 1 && r'.sent == r.sent
          && sh'.stats == sh.stats.(failovers := sh.stats.failovers + 1)
        else
          && r'.pc.DrainNone? && r'.attempt == r.attempt && r'.started == r.started && r'.sent == r.sent + [Unavailable]
          && sh'.stats == sh.stats.(noCapacity := sh.stats.noCapacity + 1))
  }

  /** Connecting: only a 200 within four seconds is read from; anything else caught gives the attempt up. */
  lemma ConnectOutcome(r: Request, sh: Shared, e: Event)
    requires Keeps(r) && r.pc.Opening?
    ensures var (r', sh') := Resume(r, sh, e);
      var answer := r.ups[r.attempt].answer;
      && r'.waited == r.waited + (if e.delay <= 4.0 then e.delay else 4.0)
      && (e.delay > 4.0 || answer.ConnectionFailed? || (answer.Answered? && answer.status != 200) ==> GivenUp(r, sh, e.at, r', sh'))
      && (e.delay <= 4.0 && answer == Answered(200) ==>
            sh' == sh && r' == r.(pc := Reading, next := 0, waited := r'.waited))
      && (e.delay <= 4.0 && answer.OpenCrashed? ==> sh' == sh && r' == r.(pc := Closed(Escaped), waited := r'.waited))
  {
    hide BodyOf, Stream, WaitBound, Lasts, Tail;
  }

  /**
   Reading: a piece is forwarded, behind the head if it is the first; before the first
   piece four seconds or a caught error give the attempt up, after it a caught error ends
   the stream with a terminator, a trip and one more mid-stream failure.
   */
  lemma ReadOutcome(r: Request, sh: Shared, e: Event)
    requires Keeps(r) && r.pc.Reading?
    ensures var (r', sh') := Resume(r, sh, e);
      var (pieces, ending) := BodyOf(r.ups[r.attempt].body);
      var late := !r.committed && e.delay > 4.0;
      && r'.waited == r.waited + (if r.committed then 0.0 else if e.delay <= 4.0 then e.delay else 4.0)
      && (late ==> GivenUp(r, sh, e.at, r', sh'))
      && (!late && r.next < |pieces| ==>
            && sh' == sh && r'.pc.DrainPiece? && r'.next == r.next + 1 && r'.committed && r'.attempt == r.attempt
            && r'.sent == r.sent + (if r.committed then [] else [Head(r.plan[r.attempt], r.attempt)]) + [Piece(pieces[r.next])])
      && (!late && r.next == |pieces| && ending.Finished? ==>
            sh' == sh && r'.pc.DrainEnd? && r'.sent == r.sent + [Last] && r'.attempt == r.attempt)
      && (!late && r.next == |pieces| && (ending.Dropped? || ending.Incomplete?) ==>
            if !r.committed then GivenUp(r, sh, e.at, r', sh')
            else
              && sh'.broken == sh.broken[r.plan[r.attempt] := e.at + 5.0]
              && sh'.stats == sh.stats.(midstream := sh.stats.midstream + 1)
              && r'.pc.DrainAbort? && r'.sent == r.sent + [Last] && r'.attempt == r.attempt)
  {
    hide BodyOf, Stream, WaitBound, Lasts, Tail;
  }

  /** Drains that succeed: the next piece is awaited, or the request is served and counted. */
  lemma DrainOutcome(r: Request, sh: Shared, e: Event)
    requires Keeps(r) && (r.pc.DrainPiece? || r.pc.DrainEnd?) && e.drained.Written?
    ensures var (r', sh') := Resume(r, sh, e);
      && (r.pc.DrainPiece? ==> r' == r.(pc := Reading) && sh' == sh)
      && (r.pc.DrainEnd? ==> r' == r.(pc := Closed(Served)) && sh' == sh.(stats := sh.stats.(ok := sh.stats.ok + 1)))
  {
    hide BodyOf, Stream, WaitBound, Lasts, Tail;
  }

  // ---------------------------------------------------------------- exceptions and clients that go away

  /**
   Exactly when one resumption lets an exception out of the attempt loop to the outer
   handler: an uncaught one on connecting in time, one from the body when its turn comes
   in time, or one from draining a piece or the terminator.  Nothing is counted then.
   */
  lemma EscapesIff(r: Request, sh: Shared, e: Event)
    requires Keeps(r) && !r.pc.Closed?
    ensures Resume(r, sh, e).0.pc == Closed(Escaped) <==>
      || (r.pc.Opening? && e.delay <= PRE_TOKEN_DEADLINE && r.ups[r.attempt].answer.OpenCrashed?)
      || (r.pc.Reading? && (r.committed || e.delay <= PRE_TOKEN_DEADLINE)
          && r.next == |BodyOf(r.ups[r.attempt].body).0| && BodyOf(r.ups[r.attempt].body).1.Uncaught?)
      || ((r.pc.DrainPiece? || r.pc.DrainEnd?) && e.drained.DrainCrashed?)
    ensures Resume(r, sh, e).0.pc == Closed(Escaped) ==> Resume(r, sh, e).1 == sh
  {
    hide BodyOf, Stream, WaitBound, Lasts, Tail;
  }

  /** The body's exception comes from a negative size after any chunks, or from a Content-Length that is no number. */
  lemma UncaughtBodies(cs: seq<Bytes>, rest: Bytes, chunks: seq<Bytes>, last: Ending)
    requires NonEmpty(cs)
    ensures BodyOf(ChunkedBody(EncodeAll(cs) + ("-1\r\n" + rest))) == (cs, Uncaught)
    ensures BodyOf(LengthBody(None, chunks, last)) == ([], Uncaught)
  {
    NegativeSizeEscapes(cs, rest);
    hide Decode, EncodeAll;
  }

  /**
   A client that goes away while something is drained to it costs the worker its breaker.
   The request is counted as a mid-stream failure if and only if a chunk had been
   forwarded; otherwise, with an empty body's terminator already written, the next
   attempt is started or the request is answered as out of capacity.
   */
  lemma GoneClientTripsWorker(r: Request, sh: Shared, e: Event)
    requires Keeps(r) && (r.pc.DrainPiece? || r.pc.DrainEnd?) && e.drained.ClientGone?
    ensures var (r', sh') := Resume(r, sh, e);
      && sh'.broken == sh.broken[r.plan[r.attempt] := e.at + 5.0]
      && sh'.stats.midstream == sh.stats.midstream + (if r.next > 0 then 1 else 0)
      && sh'.stats.ok == sh.stats.ok
      && (r.next > 0 ==> r'.pc == DrainAbort && r'.started == r.started)
      && (r.next == 0 ==>
            && r'.stray == r.stray + 1 && r'.started == r.started + (if r.attempt + 1 < |r.plan| then 1 else 0)
            && sh'.stats.noCapacity == sh.stats.noCapacity + (if r.attempt + 1 < |r.plan| then 0 else 1))
  {
    hide BodyOf, Stream, WaitBound, Lasts, Tail;
  }

  // ---------------------------------------------------------------- the bytes after the head

  /** The bytes of the body part of what was sent. */
  function Wire(sent: seq<Sent>): Bytes {
    if sent == [] then ""
    else
      (match sent[0]
       case Piece(data) => Chunk(data)
       case Last => LAST
       case Head(_, _) => ""
       case Unavailable => "") + Wire(sent[1..])
  }

  /** The bytes after the head: the forwarded chunks, then as many terminators as were written. */
  lemma {:induction false} WireOf(cs: seq<Bytes>, n: nat)
    ensures Wire(Pieces(cs) + Lasts(n)) == EncodeAll(cs) + Wire(Lasts(n))
  {
    hide Chunk;
    if cs == [] {
      assert Pieces(cs) + Lasts(n) == Lasts(n);
    } else {
      assert (Pieces(cs) + Lasts(n))[1..] == Pieces(cs[1..]) + Lasts(n);
      WireOf(cs[1..], n);
      assert Chunk(cs[0]) + (EncodeAll(cs[1..]) + Wire(Lasts(n))) == EncodeAll(cs) + Wire(Lasts(n));
    }
  }

  /** How many terminators follow the forwarded chunks. */
  function Terminators(r: Request): nat
    requires Keeps(r) && r.committed
  {
    |r.sent| - r.stray - 1 - r.next
  }

  /**
   Truncation is clean: however a stream that had begun stands or ended, what follows its
   head decodes at the client to exactly the chunks forwarded, a prefix of one worker's,
   and it ends normally if and only if a terminator was written; every served or cut-off
   stream has one.
   */
  lemma ClientDecodesAPrefix(r: Request)
    requires Keeps(r) && r.committed
    ensures var (pieces, ending) := BodyOf(r.ups[r.attempt].body);
      && r.next <= |pieces|
      && r.sent == Lasts(r.stray) + [Head(Worker(r), r.attempt)] + (Pieces(pieces[..r.next]) + Lasts(Terminators(r)))
      && Decode(Wire(Pieces(pieces[..r.next]) + Lasts(Terminators(r)))).0 == pieces[..r.next]
      && (Decode(Wire(Pieces(pieces[..r.next]) + Lasts(Terminators(r)))).1 == Finished <==> Terminators(r) > 0)
    ensures r.pc == Closed(Served) || r.pc == Closed(FailFast) ==> Terminators(r) > 0
  {
    hide Decode, BodyOf, WaitBound;
    var pieces := BodyOf(r.ups[r.attempt].body).0;
    var n := Terminators(r);
    TerminatorsFollow(r, n);
    WireOf(pieces[..r.next], n);
    DecodeInFront(pieces[..r.next], Wire(Lasts(n)));
    if n > 0 {
      assert Lasts(n)[1..] == Lasts(n - 1);
      TerminatorEnds(Wire(Lasts(n - 1)));
    } else {
      DecodeNothing();
    }
    assert pieces[..r.next] + [] == pieces[..r.next];
  }

  lemma TerminatorsFollow(r: Request, n: nat)
    requires Keeps(r) && r.committed && n == Terminators(r)
    ensures r.sent == Lasts(r.stray) + [Head(Worker(r), r.attempt)] + (Pieces(Forwarded(r)) + Lasts(n))
  {
    hide BodyOf, WaitBound;
    var a := Lasts(r.stray) + Stream(r);
    var tail := r.sent[|a|..];
    assert r.sent == a + tail;
    assert |a| == r.stray + 1 + r.next;
    assert tail == Tail(r.pc, r.ended) || tail == [] || tail == [Last];
    assert tail == Lasts(n);
    assert a + tail == Lasts(r.stray) + [Head(Worker(r), r.attempt)] + (Pieces(Forwarded(r)) + tail);
  }

  /** Waiting on upstreams before the first token, or before giving up, costs at most two deadlines per attempt. */
  lemma PreTokenBound(r: Request)
    requires Keeps(r)
    ensures r.waited <= 2.0 * PRE_TOKEN_DEADLINE * (|r.plan| as real)
    ensures |r.plan| <= 3 ==> r.waited <= 24.0
  {
    hide BodyOf, Stream;
    if r.plan != [] {
      assert r.attempt as real + 1.0 <= |r.plan| as real;
    }
  }
}
