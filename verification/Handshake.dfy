/** The temporary handshake of home-protocol: each side writes the length of its announcement as a
    little-endian u32 and the announcement, then reads the same from its peer. Writes and reads
    move any number of bytes at a time over two FIFO byte streams. */
module Handshake {
  import opened Bytes
  import opened Prelude
  import opened Relation

  /** The announced identity. */
  datatype Auth = Auth(id: ProfileId, key: PublicKey)

  /** The serialisation of announcements. */
  datatype Codec = Codec(encode: Auth -> Blob, decode: Blob -> Option<Auth>) {
    ghost predicate Faithful() {
      forall a :: decode(encode(a)) == Some(a)
    }
  }

  datatype Phase = Writing | ReadingSize | ReadingPayload(size: nat) | Done(peer: Auth) | Broken

  datatype Side = Side(
    me: Auth,
    toWrite: Blob,       // rest of the frame still to be written
    phase: Phase,
    consumed: Blob)      // everything read from the peer's stream so far

  /** `sent[i]` is everything side `i` has written, `sides[i].consumed` what it has read of
      `sent[1 - i]`. */
  datatype Conn = Conn(sides: seq<Side>, sent: seq<Blob>)

  datatype Action =
    | Write(i: nat, count: nat)
    | Read(i: nat, count: nat)
    | Extra(i: nat, bytes: Blob)     // what a side writes after its handshake is over
    | Fail(i: nat)

  /** The size is the length cut to 32 bits. */
  function Frame(codec: Codec, a: Auth): Blob {
    var payload := codec.encode(a);
    ToLittleEndian(|payload| % U32_RANGE, U32_BYTES) + payload
  }

  function Start(codec: Codec, a: Auth, b: Auth): Conn {
    Conn([Side(a, Frame(codec, a), Writing, []), Side(b, Frame(codec, b), Writing, [])], [[], []])
  }

  // ------------------------------------------------------------------ steps

  function Min(a: nat, b: nat): nat {
    if a < b then a else b
  }

  /** How many bytes the current `read_exact` still needs. */
  function Needed(s: Side): nat {
    match s.phase
    case ReadingSize => if |s.consumed| < U32_BYTES then U32_BYTES - |s.consumed| else 0
    case ReadingPayload(size) => if |s.consumed| < U32_BYTES + size then U32_BYTES + size - |s.consumed| else 0
    case _ => 0
  }

  function WriteChunk(s: Side, count: nat): Blob {
    if s.phase.Writing? then s.toWrite[..Min(count, |s.toWrite|)] else []
  }

  function AfterWrite(s: Side, count: nat): Side {
    if !s.phase.Writing? then s else
    var rest := s.toWrite[Min(count, |s.toWrite|)..];
    s.(toWrite := rest, phase := if rest == [] then ReadingSize else Writing)
  }

  /** A completed announcement is decoded. */
  function Finish(codec: Codec, s: Side): Side
    requires |s.consumed| >= U32_BYTES
  {
    match codec.decode(s.consumed[U32_BYTES..])
    case None => s.(phase := Broken)
    case Some(peer) => s.(phase := Done(peer))
  }

  function AfterRead(codec: Codec, s: Side, chunk: Blob): Side {
    var s1 := s.(consumed := s.consumed + chunk);
    if Needed(s1) > 0 then s1 else
    match s.phase
    case ReadingSize =>
      if |s1.consumed| < U32_BYTES then s1 else
      var size := FromLittleEndian(s1.consumed[..U32_BYTES]);
      if size == 0 then Finish(codec, s1) else s1.(phase := ReadingPayload(size))
    case ReadingPayload(_) => if |s1.consumed| < U32_BYTES then s1 else Finish(codec, s1)
    case _ => s
  }

  /** What a read of at most `count` bytes takes off the stream. */
  function ReadChunk(s: Side, stream: Blob, count: nat): Blob {
    if |s.consumed| > |stream| then [] else
    var n := Min(Min(count, Needed(s)), |stream| - |s.consumed|);
    stream[|s.consumed|..|s.consumed| + n]
  }

  function Step(codec: Codec, c: Conn, a: Action): Conn
    requires |c.sides| == 2 && |c.sent| == 2
  {
    if a.i >= 2 then c else
    var s := c.sides[a.i];
    match a
    case Write(i, count) =>
      Conn(c.sides[i := AfterWrite(s, count)], c.sent[i := c.sent[i] + WriteChunk(s, count)])
    case Read(i, count) =>
      var chunk := ReadChunk(s, c.sent[1 - i], count);
      if chunk == [] then c else c.(sides := c.sides[i := AfterRead(codec, s, chunk)])
    case Extra(i, bytes) =>
      if s.phase.Done? then c.(sent := c.sent[i := c.sent[i] + bytes]) else c
    case Fail(i) =>
      if s.phase.Done? then c else c.(sides := c.sides[i := s.(phase := Broken)])
  }

  function Run(codec: Codec, a: Auth, b: Auth, run: seq<Action>): (c: Conn)
    ensures |c.sides| == 2 && |c.sent| == 2
  {
    if run == [] then Start(codec, a, b) else Step(codec, Run(codec, a, b, run[..|run| - 1]), run[|run| - 1])
  }

  // ------------------------------------------------------------------ invariant

  /** What side `s` has written, given what it has still to write. */
  ghost predicate WriteSound(codec: Codec, s: Side, sent: Blob) {
    match s.phase
    case Writing => sent + s.toWrite == Frame(codec, s.me) && s.toWrite != []
    case Done(_) => Frame(codec, s.me) <= sent
    case Broken => sent <= Frame(codec, s.me)
    case _ => sent == Frame(codec, s.me)
  }

  /** The size announced in the first four bytes. */
  function Announced(consumed: Blob): nat
    requires |consumed| >= U32_BYTES
  {
    FromLittleEndian(consumed[..U32_BYTES])
  }

  ghost predicate ReadSound(codec: Codec, s: Side, stream: Blob) {
    && s.consumed <= stream
    && match s.phase
       case Writing => s.consumed == []
       case ReadingSize => |s.consumed| < U32_BYTES
       case ReadingPayload(size) => U32_BYTES <= |s.consumed| < U32_BYTES + size && size == Announced(s.consumed)
       case Done(peer) =>
         && |s.consumed| >= U32_BYTES && |s.consumed| == U32_BYTES + Announced(s.consumed)
         && codec.decode(s.consumed[U32_BYTES..]) == Some(peer)
       case Broken => true
  }

  ghost predicate Invariant(codec: Codec, a: Auth, b: Auth, c: Conn) {
    && |c.sides| == 2 && |c.sent| == 2 && c.sides[0].me == a && c.sides[1].me == b
    && (forall i :: 0 <= i < 2 ==> WriteSound(codec, c.sides[i], c.sent[i]))
    && (forall i :: 0 <= i < 2 ==> ReadSound(codec, c.sides[i], c.sent[1 - i]))
  }

  lemma WriteKeeps(codec: Codec, s: Side, sent: Blob, stream: Blob, count: nat)
    requires WriteSound(codec, s, sent) && ReadSound(codec, s, stream)
    ensures WriteSound(codec, AfterWrite(s, count), sent + WriteChunk(s, count))
    ensures ReadSound(codec, AfterWrite(s, count), stream)
  {
    if s.phase.Writing? {
      var n := Min(count, |s.toWrite|);
      assert s.toWrite == s.toWrite[..n] + s.toWrite[n..];
      assert sent + s.toWrite[..n] + s.toWrite[n..] == sent + s.toWrite;
    }
  }

  lemma ReadKeeps(codec: Codec, s: Side, sent: Blob, stream: Blob, count: nat)
    requires WriteSound(codec, s, sent) && ReadSound(codec, s, stream) && ReadChunk(s, stream, count) != []
    ensures WriteSound(codec, AfterRead(codec, s, ReadChunk(s, stream, count)), sent)
    ensures ReadSound(codec, AfterRead(codec, s, ReadChunk(s, stream, count)), stream)
  {
    var chunk := ReadChunk(s, stream, count);
    var consumed := s.consumed + chunk;
    assert consumed == stream[..|consumed|];
    if s.phase.ReadingPayload? { assert consumed[..U32_BYTES] == s.consumed[..U32_BYTES]; }
  }

  lemma LongerStream(codec: Codec, s: Side, stream: Blob, more: Blob)
    requires ReadSound(codec, s, stream)
    ensures ReadSound(codec, s, stream + more)
  {
  }

  /** One side moves, and perhaps writes. */
  lemma SideMoves(codec: Codec, a: Auth, b: Auth, c: Conn, i: nat, s: Side, sent: Blob)
    requires Invariant(codec, a, b, c) && i < 2 && s.me == c.sides[i].me
    requires WriteSound(codec, s, sent) && ReadSound(codec, s, c.sent[1 - i])
    requires ReadSound(codec, c.sides[1 - i], sent)
    ensures Invariant(codec, a, b, Conn(c.sides[i := s], c.sent[i := sent]))
  {
  }

  lemma WriteStepKeeps(codec: Codec, a: Auth, b: Auth, c: Conn, i: nat, count: nat)
    requires Invariant(codec, a, b, c) && i < 2
    ensures Invariant(codec, a, b, Step(codec, c, Write(i, count)))
  {
    var s := c.sides[i];
    WriteKeeps(codec, s, c.sent[i], c.sent[1 - i], count);
    assert ReadSound(codec, c.sides[1 - i], c.sent[i]);
    LongerStream(codec, c.sides[1 - i], c.sent[i], WriteChunk(s, count));
    SideMoves(codec, a, b, c, i, AfterWrite(s, count), c.sent[i] + WriteChunk(s, count));
  }

  lemma AfterReadMe(codec: Codec, s: Side, chunk: Blob)
    ensures AfterRead(codec, s, chunk).me == s.me
  {
  }

  lemma ReadStepKeeps(codec: Codec, a: Auth, b: Auth, c: Conn, i: nat, count: nat)
    requires Invariant(codec, a, b, c) && i < 2
    ensures Invariant(codec, a, b, Step(codec, c, Read(i, count)))
  {
    var s, chunk := c.sides[i], ReadChunk(c.sides[i], c.sent[1 - i], count);
    if chunk != [] {
      ReadKeeps(codec, s, c.sent[i], c.sent[1 - i], count);
      AfterReadMe(codec, s, chunk);
      SideMoves(codec, a, b, c, i, AfterRead(codec, s, chunk), c.sent[i]);
      assert c.sent[i := c.sent[i]] == c.sent;
    }
  }

  lemma ExtraStepKeeps(codec: Codec, a: Auth, b: Auth, c: Conn, i: nat, bytes: Blob)
    requires Invariant(codec, a, b, c) && i < 2
    ensures Invariant(codec, a, b, Step(codec, c, Extra(i, bytes)))
  {
    var s := c.sides[i];
    assert WriteSound(codec, s, c.sent[i]) && ReadSound(codec, c.sides[1 - i], c.sent[i]);
    if s.phase.Done? {
      LongerStream(codec, c.sides[1 - i], c.sent[i], bytes);
      SideMoves(codec, a, b, c, i, s, c.sent[i] + bytes);
      assert c.sides[i := s] == c.sides;
    }
  }

  lemma FailStepKeeps(codec: Codec, a: Auth, b: Auth, c: Conn, i: nat)
    requires Invariant(codec, a, b, c) && i < 2
    ensures Invariant(codec, a, b, Step(codec, c, Fail(i)))
  {
    var s := c.sides[i];
    assert WriteSound(codec, s, c.sent[i]) && ReadSound(codec, c.sides[1 - i], c.sent[i]);
    if !s.phase.Done? {
      assert c.sent[i] <= Frame(codec, s.me);
      SideMoves(codec, a, b, c, i, s.(phase := Broken), c.sent[i]);
      assert c.sent[i := c.sent[i]] == c.sent;
    }
  }

  lemma StepKeeps(codec: Codec, a: Auth, b: Auth, c: Conn, act: Action)
    requires Invariant(codec, a, b, c)
    ensures Invariant(codec, a, b, Step(codec, c, act))
  {
    if act.i < 2 {
      match act
      case Write(i, count) => WriteStepKeeps(codec, a, b, c, i, count);
      case Read(i, count) => ReadStepKeeps(codec, a, b, c, i, count);
      case Extra(i, bytes) => ExtraStepKeeps(codec, a, b, c, i, bytes);
      case Fail(i) => FailStepKeeps(codec, a, b, c, i);
    }
  }

  lemma {:induction false} RunKeeps(codec: Codec, a: Auth, b: Auth, run: seq<Action>)
    ensures Invariant(codec, a, b, Run(codec, a, b, run))
  {
    if run != [] {
      RunKeeps(codec, a, b, run[..|run| - 1]);
      StepKeeps(codec, a, b, Run(codec, a, b, run[..|run| - 1]), run[|run| - 1]);
    }
  }

  // ------------------------------------------------------------------ theorems over runs

  /** The frame announces its payload's length modulo 2^32. */
  lemma FrameAnnounces(codec: Codec, a: Auth)
    ensures |Frame(codec, a)| == U32_BYTES + |codec.encode(a)|
    ensures Announced(Frame(codec, a)) == |codec.encode(a)| % U32_RANGE
    ensures Frame(codec, a)[U32_BYTES..] == codec.encode(a)
  {
    var n := |codec.encode(a)| % U32_RANGE;
    WidthRanges();
    LittleEndianRoundTrip(n, U32_BYTES);
    assert Frame(codec, a)[..U32_BYTES] == ToLittleEndian(n, U32_BYTES);
  }

  /** Two prefixes of one sequence agree on the first four bytes. */
  lemma ReadsFrameHead(codec: Codec, s: Side, peer: Side, stream: Blob)
    requires ReadSound(codec, s, stream) && WriteSound(codec, peer, stream) && |s.consumed| >= U32_BYTES
    ensures Announced(s.consumed) == |codec.encode(peer.me)| % U32_RANGE
    ensures s.consumed <= Frame(codec, peer.me) || Frame(codec, peer.me) <= s.consumed
  {
    FrameAnnounces(codec, peer.me);
    var frame := Frame(codec, peer.me);
    assert stream <= frame || frame <= stream;
    assert s.consumed[..U32_BYTES] == frame[..U32_BYTES];
  }

  /** A completed reader of a sound stream. */
  lemma DoneReader(codec: Codec, s: Side, peer: Side, stream: Blob)
    requires codec.Faithful() && s.phase.Done?
    requires ReadSound(codec, s, stream) && WriteSound(codec, peer, stream)
    ensures s.consumed == Frame(codec, peer.me) <==> |codec.encode(peer.me)| < U32_RANGE
    ensures |codec.encode(peer.me)| < U32_RANGE ==> s.phase.peer == peer.me
  {
    ReadsFrameHead(codec, s, peer, stream);
    FrameAnnounces(codec, peer.me);
    var n := |codec.encode(peer.me)|;
    assert |s.consumed| == U32_BYTES + n % U32_RANGE;
    if n < U32_RANGE {
      assert s.consumed == Frame(codec, peer.me);
    }
  }

  /** Whatever the interleaving: a side that completes has read exactly the peer's frame, nothing
      less and nothing after it, if and only if the announcement is shorter than 2^32 bytes; and
      then it holds what the peer announced. */
  lemma CompletedSideKnowsPeer(codec: Codec, a: Auth, b: Auth, run: seq<Action>, i: nat)
    requires codec.Faithful() && i < 2 && Run(codec, a, b, run).sides[i].phase.Done?
    ensures var c := Run(codec, a, b, run);
            var peer := if i == 0 then b else a;
            && c.sides[i].consumed <= c.sent[1 - i]
            && (c.sides[i].consumed == Frame(codec, peer) <==> |codec.encode(peer)| < U32_RANGE)
            && (|codec.encode(peer)| < U32_RANGE ==> c.sides[i].phase.peer == peer)
  {
    RunKeeps(codec, a, b, run);
    DoneSide(codec, a, b, Run(codec, a, b, run), i);
  }

  lemma DoneSide(codec: Codec, a: Auth, b: Auth, c: Conn, i: nat)
    requires codec.Faithful() && Invariant(codec, a, b, c) && i < 2 && c.sides[i].phase.Done?
    ensures var peer := if i == 0 then b else a;
            && c.sides[i].consumed <= c.sent[1 - i]
            && (c.sides[i].consumed == Frame(codec, peer) <==> |codec.encode(peer)| < U32_RANGE)
            && (|codec.encode(peer)| < U32_RANGE ==> c.sides[i].phase.peer == peer)
  {
    var s, peer, stream := c.sides[i], c.sides[1 - i], c.sent[1 - i];
    assert ReadSound(codec, s, stream) && WriteSound(codec, peer, stream);
    DoneReader(codec, s, peer, stream);
  }

  /** A reader whose peer has written its frame has something to read. */
  lemma ReaderCanRead(codec: Codec, s: Side, peer: Side, stream: Blob)
    requires ReadSound(codec, s, stream) && WriteSound(codec, peer, stream)
    requires s.phase.ReadingSize? || s.phase.ReadingPayload?
    requires !peer.phase.Writing? && !peer.phase.Broken?
    ensures |ReadChunk(s, stream, 1)| == 1
  {
    FrameAnnounces(codec, peer.me);
    if s.phase.ReadingPayload? { ReadsFrameHead(codec, s, peer, stream); }
  }

  lemma ReadMoves(codec: Codec, s: Side, chunk: Blob)
    requires chunk != [] && (s.phase.ReadingSize? || s.phase.ReadingPayload?)
    ensures AfterRead(codec, s, chunk) != s
  {
    assert |s.consumed + chunk| > |s.consumed|;
  }

  /** No interleaving gets stuck: as long as a side is unfinished and none has failed, some read or
      write moves the handshake on. */
  lemma NeverStuck(codec: Codec, a: Auth, b: Auth, run: seq<Action>)
    requires var c := Run(codec, a, b, run);
             && !c.sides[0].phase.Broken? && !c.sides[1].phase.Broken?
             && !(c.sides[0].phase.Done? && c.sides[1].phase.Done?)
    ensures exists act: Action ::
              (act.Write? || act.Read?) && Step(codec, Run(codec, a, b, run), act) != Run(codec, a, b, run)
  {
    RunKeeps(codec, a, b, run);
    var c := Run(codec, a, b, run);
    if c.sides[0].phase.Writing? || c.sides[1].phase.Writing? {
      var i := if c.sides[0].phase.Writing? then 0 else 1;
      assert WriteSound(codec, c.sides[i], c.sent[i]);
      var next := Step(codec, c, Write(i, 1));
      assert |next.sent[i]| == |c.sent[i]| + 1;
      assert next != c;
    } else {
      var i := if c.sides[0].phase.Done? then 1 else 0;
      var s, stream := c.sides[i], c.sent[1 - i];
      assert ReadSound(codec, s, stream) && WriteSound(codec, c.sides[1 - i], stream);
      ReaderCanRead(codec, s, c.sides[1 - i], stream);
      ReadMoves(codec, s, ReadChunk(s, stream, 1));
      var next := Step(codec, c, Read(i, 1));
      assert next.sides[i] != c.sides[i];
      assert next != c;
    }
  }

  // ------------------------------------------------------------------ the object

  /** The phase that a complete announcement leads to. */
  function Decoded(codec: Codec, consumed: Blob): Phase
    requires |consumed| >= U32_BYTES
  {
    var peer := codec.decode(consumed[U32_BYTES..]);
    if peer.Some? then Done(peer.value) else Broken
  }

  /** Reading on, when the stream is known just as far as it is read. */
  lemma ReadOn(codec: Codec, s: Side, sent: Blob, all: Blob)
    requires WriteSound(codec, s, sent) && ReadSound(codec, s, s.consumed)
    requires s.consumed < all && |all| - |s.consumed| <= Needed(s)
    ensures var s' := AfterRead(codec, s, all[|s.consumed|..]);
            && WriteSound(codec, s', sent) && ReadSound(codec, s', all)
            && (s'.phase.Done? || s'.phase.Broken? <==> |all| >= U32_BYTES && |all| == U32_BYTES + Announced(all))
            && (s'.phase.Done? || s'.phase.Broken? ==> s'.phase == Decoded(codec, all))
  {
    var chunk := all[|s.consumed|..];
    assert all == s.consumed + chunk;
    LongerStream(codec, s, s.consumed, chunk);
    assert ReadChunk(s, all, |chunk|) == chunk;
    ReadKeeps(codec, s, sent, all, |chunk|);
    if s.phase.ReadingPayload? { assert all[..U32_BYTES] == s.consumed[..U32_BYTES]; }
  }

  /** A reader of a peer's frame. */
  lemma KnowsPeer(codec: Codec, s: Side)
    requires s.phase.Done? || s.phase.Broken? <==>
               |s.consumed| >= U32_BYTES && |s.consumed| == U32_BYTES + Announced(s.consumed)
    requires s.phase.Done? || s.phase.Broken? ==> s.phase == Decoded(codec, s.consumed)
    ensures forall peer :: codec.Faithful() && |codec.encode(peer)| < U32_RANGE && s.consumed <= Frame(codec, peer) ==>
              && !s.phase.Broken? && (s.phase.Done? <==> s.consumed == Frame(codec, peer))
              && (s.phase.Done? ==> s.phase.peer == peer)
  {
    forall peer | codec.Faithful() && |codec.encode(peer)| < U32_RANGE && s.consumed <= Frame(codec, peer)
      ensures !s.phase.Broken? && (s.phase.Done? <==> s.consumed == Frame(codec, peer))
          && (s.phase.Done? ==> s.phase.peer == peer)
    {
      FrameAnnounces(codec, peer);
      var frame := Frame(codec, peer);
      assert codec.decode(codec.encode(peer)) == Some(peer);
      if |s.consumed| >= U32_BYTES {
        assert s.consumed[..U32_BYTES] == frame[..U32_BYTES];
        assert |s.consumed| == |frame| <==> s.consumed == frame;
      }
    }
  }

  /** One endpoint; the streams belong to the caller. */
  class Endpoint {
    const codec: Codec
    const me: Auth
    var toWrite: Blob
    var phase: Phase
    var consumed: Blob
    ghost var sent: Blob         // everything written so far

    ghost function View(): Side
      reads this
    {
      Side(me, toWrite, phase, consumed)
    }

    /** What a side of a connection keeps in every run, with what it has written and read. */
    ghost predicate Valid()
      reads this
    {
      WriteSound(codec, View(), sent) && ReadSound(codec, View(), consumed)
    }

    constructor (codec: Codec, me: Auth)
      ensures this.codec == codec && this.me == me && sent == []
      ensures View() == Side(me, Frame(codec, me), Writing, []) && Valid()
    {
      this.codec, this.me := codec, me;
      var payload := codec.encode(me);
      toWrite := ToLittleEndian(|payload| % U32_RANGE, U32_BYTES) + payload;
      phase, consumed, sent := Writing, [], [];
    }

    /** One write of `write_all`: at most `count` bytes leave, the next ones of the frame. Reading
        starts when the whole frame has been written, not before. */
    method WriteSome(count: nat) returns (chunk: Blob)
      requires Valid()
      modifies this
      ensures Valid() && View() == AfterWrite(old(View()), count)
      ensures sent == old(sent) + chunk && |chunk| <= count
      ensures old(phase).Writing? ==> sent <= Frame(codec, me) && (phase.ReadingSize? <==> sent == Frame(codec, me))
      ensures old(phase).Writing? && count > 0 ==> chunk != []
    {
      WriteKeeps(codec, View(), sent, consumed, count);
      if !phase.Writing? { return []; }
      var n := if count < |toWrite| then count else |toWrite|;
      assert toWrite == toWrite[..n] + toWrite[n..];
      chunk, toWrite := toWrite[..n], toWrite[n..];
      sent := sent + chunk;
      if toWrite == [] { phase := ReadingSize; }
    }

    /** One read of `read_exact`: `chunk` arrived, and is no more than what was asked for. The side is
        done exactly when the announced number of bytes is there and decodes; then it knows any peer
        whose frame it was reading, and has read that frame to its end. */
    method Arrived(chunk: Blob)
      requires Valid() && |chunk| <= Needed(View()) && chunk != []
      modifies this
      ensures Valid() && View() == AfterRead(codec, old(View()), chunk)
      ensures consumed == old(consumed) + chunk && sent == old(sent) && toWrite == old(toWrite)
      ensures phase.Done? || phase.Broken? <==>
                |consumed| >= U32_BYTES && |consumed| == U32_BYTES + Announced(consumed)
      ensures forall peer :: codec.Faithful() && |codec.encode(peer)| < U32_RANGE && consumed <= Frame(codec, peer) ==>
                !phase.Broken? && (phase.Done? <==> consumed == Frame(codec, peer))
                    && (phase.Done? ==> phase.peer == peer)
    {
      ghost var before, all := View(), consumed + chunk;
      ReadOn(codec, before, sent, all);
      consumed := consumed + chunk;
      if phase.ReadingSize? && |consumed| >= U32_BYTES {
        var size := FromLittleEndian(consumed[..U32_BYTES]);
        phase := if size > 0 then ReadingPayload(size) else Decoded(codec, consumed);
      } else if phase.ReadingPayload? && |consumed| == U32_BYTES + phase.size {
        phase := Decoded(codec, consumed);
      }
      assert View() == AfterRead(codec, before, chunk);
      KnowsPeer(codec, View());
    }
  }
}
