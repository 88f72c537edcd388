/** The stream primitives the codecs call (`CCutil_swrite_uint`,
    `CCutil_sread_uint`, `CCutil_swrite_ushort`, `CCutil_sread_ushort`),
    abstracted to sequences of words. Their byte order is theirs, not the
    codec's. */
module Streams {

  /** An output stream: the words written so far and how many more it will
      take before a write fails. */
  datatype Sink<W> = Sink(words: seq<W>, room: nat)

  /** The outcome of a write primitive: `failed` plays the nonzero return. */
  datatype Put<W> = Put(failed: bool, sink: Sink<W>)

  /** One write primitive: appends `w`, or fails and leaves the sink as it is. */
  function PutWord<W>(s: Sink<W>, w: W): Put<W> {
    if s.room == 0 then Put(true, s) else Put(false, Sink(s.words + [w], s.room - 1))
  }

  /** The outcome of a read primitive: `failed` plays the nonzero return;
      `word` is meaningful only when it did not fail. */
  datatype Get<W> = Get(failed: bool, word: W, rest: seq<W>)

  /** One read primitive on the words still to be read: takes the first, or
      fails at the end of the stream. */
  function GetWord<W>(f: seq<W>, default: W): Get<W> {
    if f == [] then Get(true, default, f) else Get(false, f[0], f[1..])
  }
}
