/**
 * The outbound framing of HandleWrite in pkg/client.go: each queued payload
 * is wrapped in a MessageTransport tagged with the payload's type, encoded,
 * and terminated by a newline unless the encoding already ends with one.
 * The encoder (JSON in the source) is a parameter of the model.
 */
module Framing {
  import opened Messages

  const Newline: byte := 10

  /** The encoder never produces an empty encoding (the source indexes its last byte). */
  ghost predicate NonEmptyEncoder(encode: Message -> seq<byte>) {
    forall m :: |encode(m)| > 0
  }

  /** The encoder never produces a raw newline, as compact JSON does not. */
  ghost predicate NewlineFreeEncoder(encode: Message -> seq<byte>) {
    forall m :: Newline !in encode(m)
  }

  /**
   * The envelope of a payload: a MessageTransport carrying the payload's
   * encoding under a tag from which a reader can tell the payload's struct.
   */
  function Envelope(m: Message, encode: Message -> seq<byte>): (e: Message)
    ensures Type(e) == TypeMessageTransport && e.data == encode(m)
    ensures forall n :: e.msgType == Type(n) <==> SameVariant(m, n)
  {
    forall n ensures Type(m) == Type(n) <==> SameVariant(m, n) {
      TypeIdentifiesVariant(m, n);
    }
    MessageTransport(Type(m), encode(m), 0)
  }

  /** Appends the terminating newline unless the bytes already end with one. */
  function Terminate(b: seq<byte>): (f: seq<byte>)
    requires |b| > 0
    ensures |f| > 0 && f[|f| - 1] == Newline
    ensures b <= f && |f| <= |b| + 1
    ensures b[|b| - 1] == Newline ==> f == b
  {
    if b[|b| - 1] != Newline then b + [Newline] else b
  }

  /** The terminator is added only when missing, so terminating twice changes nothing. */
  lemma TerminateIdempotent(b: seq<byte>)
    requires |b| > 0
    ensures Terminate(Terminate(b)) == Terminate(b)
  {
  }

  /** The bytes written for one payload. */
  function Frame(m: Message, encode: Message -> seq<byte>): (f: seq<byte>)
    requires NonEmptyEncoder(encode)
    ensures |f| > 0 && f[|f| - 1] == Newline
  {
    Terminate(encode(Envelope(m, encode)))
  }

  /** The frame HandleWrite builds for one payload: encode it, wrap it, encode the envelope, terminate it. */
  method BuildFrame(command: Message, encode: Message -> seq<byte>) returns (b: seq<byte>)
    requires NonEmptyEncoder(encode)
    ensures b == Frame(command, encode)
    ensures b[|b| - 1] == Newline
  {
    var commandData := encode(command);
    var commandTransport := MessageTransport(Type(command), commandData, 0);
    b := encode(commandTransport);
    if b[|b| - 1] != Newline {
      b := b + [Newline];
    }
  }

  /** The frames for a sequence of payloads, in the same order. */
  function Frames(ms: seq<Message>, encode: Message -> seq<byte>): (fs: seq<seq<byte>>)
    requires NonEmptyEncoder(encode)
    ensures |fs| == |ms|
    decreases |ms|
  {
    if ms == [] then [] else Frames(ms[..|ms| - 1], encode) + [Frame(ms[|ms| - 1], encode)]
  }

  /**
   * The writer loop: takes the queued payloads from position start on and
   * frames each one in order. Without a connection the first payload taken
   * is dropped unwritten and the loop stops.
   */
  method DrainQueue(queue: seq<Message>, start: nat, connected: bool, encode: Message -> seq<byte>)
    returns (next: nat, frames: seq<seq<byte>>)
    requires start <= |queue|
    requires NonEmptyEncoder(encode)
    ensures next <= |queue|
    ensures connected ==> next == |queue| && frames == Frames(queue[start..], encode)
    ensures !connected ==> frames == [] && next == (if start < |queue| then start + 1 else start)
  {
    next, frames := start, [];
    while next < |queue|
      invariant start <= next <= |queue|
      invariant |frames| == next - start
      invariant forall k :: start <= k < next ==> frames[k - start] == Frame(queue[k], encode)
      invariant !connected ==> next == start
      decreases |queue| - next
    {
      var command := queue[next];
      next := next + 1;
      var b := BuildFrame(command, encode);
      if !connected {
        frames := [];
        return;
      }
      frames := frames + [b];
    }
    FramesPointwise(queue[start..], frames, encode);
  }

  /** Frame i is the frame of payload i, and it ends with a newline. */
  lemma {:induction false} FramesInOrder(ms: seq<Message>, encode: Message -> seq<byte>, i: int)
    requires NonEmptyEncoder(encode)
    requires 0 <= i < |ms|
    ensures Frames(ms, encode)[i] == Frame(ms[i], encode)
    ensures Frames(ms, encode)[i][|Frames(ms, encode)[i]| - 1] == Newline
    decreases |ms|
  {
    var n := |ms| - 1;
    if i < n {
      var init := ms[..n];
      FramesInOrder(init, encode, i);
      assert Frames(ms, encode)[i] == Frames(init, encode)[i];
    }
  }

  /** Framing more payloads extends the frames already written. */
  lemma {:induction false} FramesAppend(ms: seq<Message>, m: Message, encode: Message -> seq<byte>)
    requires NonEmptyEncoder(encode)
    ensures Frames(ms + [m], encode) == Frames(ms, encode) + [Frame(m, encode)]
  {
  }

  /** Frames is the only sequence that holds, at each position, the frame of the payload there. */
  lemma FramesPointwise(ms: seq<Message>, fs: seq<seq<byte>>, encode: Message -> seq<byte>)
    requires NonEmptyEncoder(encode)
    requires |fs| == |ms|
    requires forall k :: 0 <= k < |ms| ==> fs[k] == Frame(ms[k], encode)
    ensures fs == Frames(ms, encode)
  {
    forall k | 0 <= k < |ms|
      ensures fs[k] == Frames(ms, encode)[k]
    {
      FramesInOrder(ms, encode, k);
    }
  }

  /** The byte stream the connection carries: the frames one after another. */
  function Flatten(frames: seq<seq<byte>>): seq<byte>
    decreases |frames|
  {
    if frames == [] then [] else frames[0] + Flatten(frames[1..])
  }

  /** The index of the first newline, or the length when there is none. */
  function NewlineIndex(s: seq<byte>): (i: nat)
    ensures i <= |s|
    ensures Newline !in s[..i]
    ensures i < |s| ==> s[i] == Newline
    decreases |s|
  {
    if s == [] then 0
    else if s[0] == Newline then 0
    else
      var j := NewlineIndex(s[1..]);
      assert s[..j + 1] == [s[0]] + s[1..][..j];
      j + 1
  }

  /** How a line reader splits a stream: at each newline, dropping it; unterminated data at the end is a last line. */
  function Lines(s: seq<byte>): seq<seq<byte>>
    decreases |s|
  {
    if s == [] then []
    else
      var i := NewlineIndex(s);
      if i == |s| then [s] else [s[..i]] + Lines(s[i + 1..])
  }

  /** A newline-free line followed by a newline is read as one line, before the rest. */
  lemma LinesOfLine(c: seq<byte>, rest: seq<byte>)
    requires Newline !in c
    ensures Lines(c + [Newline] + rest) == [c] + Lines(rest)
  {
    var s := c + [Newline] + rest;
    assert s[|c|] == Newline;
    assert s[..|c|] == c;
    assert NewlineIndex(s) == |c|;
    assert s[|c| + 1..] == rest;
  }

  /**
   * A line reader on the receiving side recovers exactly the encoded
   * envelopes, in the order the payloads were queued.
   */
  lemma {:induction false} ReaderRecoversEnvelopes(ms: seq<Message>, encode: Message -> seq<byte>)
    requires NonEmptyEncoder(encode) && NewlineFreeEncoder(encode)
    ensures Lines(Flatten(FramesFrom(ms, encode))) == EnvelopeEncodings(ms, encode)
    decreases |ms|
  {
    if ms != [] {
      var c := encode(Envelope(ms[0], encode));
      var rest := Flatten(FramesFrom(ms[1..], encode));
      calc {
        Lines(Flatten(FramesFrom(ms, encode)));
        { assert Frame(ms[0], encode) == c + [Newline]; }
        Lines(c + [Newline] + rest);
        { LinesOfLine(c, rest); }
        [c] + Lines(rest);
        { ReaderRecoversEnvelopes(ms[1..], encode); }
        [c] + EnvelopeEncodings(ms[1..], encode);
      }
    }
  }

  /**
   * The frames built front to back, the order in which a reader consumes
   * them; FramesFromIsFrames shows it is Frames.
   */
  function FramesFrom(ms: seq<Message>, encode: Message -> seq<byte>): seq<seq<byte>>
    requires NonEmptyEncoder(encode)
    decreases |ms|
  {
    if ms == [] then [] else [Frame(ms[0], encode)] + FramesFrom(ms[1..], encode)
  }

  /** The encoded envelopes of a sequence of payloads, in order. */
  function EnvelopeEncodings(ms: seq<Message>, encode: Message -> seq<byte>): (es: seq<seq<byte>>)
    ensures |es| == |ms|
    ensures forall i :: 0 <= i < |ms| ==> es[i] == encode(Envelope(ms[i], encode))
  {
    seq(|ms|, i requires 0 <= i < |ms| => encode(Envelope(ms[i], encode)))
  }

  /** Framing a payload ahead of others puts its frame first. */
  lemma {:induction false} FramesCons(m: Message, ms: seq<Message>, encode: Message -> seq<byte>)
    requires NonEmptyEncoder(encode)
    ensures Frames([m] + ms, encode) == [Frame(m, encode)] + Frames(ms, encode)
    decreases |ms|
  {
    if ms != [] {
      var init := ms[..|ms| - 1];
      var last := ms[|ms| - 1];
      assert ms == init + [last];
      assert [m] + ms == ([m] + init) + [last];
      FramesAppend([m] + init, last, encode);
      FramesAppend(init, last, encode);
      FramesCons(m, init, encode);
    }
  }

  lemma {:induction false} FramesFromIsFrames(ms: seq<Message>, encode: Message -> seq<byte>)
    requires NonEmptyEncoder(encode)
    ensures FramesFrom(ms, encode) == Frames(ms, encode)
    decreases |ms|
  {
    if ms != [] {
      assert ms == [ms[0]] + ms[1..];
      FramesCons(ms[0], ms[1..], encode);
      FramesFromIsFrames(ms[1..], encode);
    }
  }

  /** The stream written for a queue is read back as that queue's envelopes, in order. */
  lemma WireRoundTrip(ms: seq<Message>, encode: Message -> seq<byte>)
    requires NonEmptyEncoder(encode) && NewlineFreeEncoder(encode)
    ensures Lines(Flatten(Frames(ms, encode))) == EnvelopeEncodings(ms, encode)
  {
    FramesFromIsFrames(ms, encode);
    ReaderRecoversEnvelopes(ms, encode);
  }
}
