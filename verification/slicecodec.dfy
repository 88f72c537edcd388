/** The serialization of the alternate backend, where a bigguy is one
    64-bit two's-complement integer (32 integer and 32 fraction bits): four
    unsigned 16-bit slices, most significant first. The integer is modelled
    as its 64-bit pattern; masking each shifted value with `0xffff` makes
    the arithmetic shift of the signed type and the logical shift of the
    pattern give the same slices. */
module SliceCodec {
  import opened Streams

  /** The four slices `(x >> 48, x >> 32, x >> 16, x) & 0xffff`. */
  function Slices(x: bv64): (ws: seq<bv16>)
    ensures |ws| == 4
  {
    [((x >> 48) & 0xffff) as bv16,
     ((x >> 32) & 0xffff) as bv16,
     ((x >> 16) & 0xffff) as bv16,
     (x & 0xffff) as bv16]
  }

  /** Four slices shifted back into place and or-ed together. */
  function Assemble(ws: seq<bv16>): bv64
    requires |ws| == 4
  {
    ((ws[0] as bv64) << 48) | ((ws[1] as bv64) << 32) | ((ws[2] as bv64) << 16) | (ws[3] as bv64)
  }

  /** Reassembling the slices rebuilds the 64-bit pattern. */
  lemma SlicesReassemble(x: bv64)
    ensures Assemble(Slices(x)) == x
  {
  }

  /** Slicing an assembled value gives the slices back. */
  lemma AssembleSlices(ws: seq<bv16>)
    requires |ws| == 4
    ensures Slices(Assemble(ws)) == ws
  {
  }

  /** The result code and the sink after the slice `swrite`. */
  datatype Written = Written(rc: int, sink: Sink<bv16>)

  /** Writes the four slices, returning -1 at the first write that fails,
      with no later slice written, and 0 otherwise. */
  function SWrite(f: Sink<bv16>, x: bv64): (w: Written)
    ensures w.rc == 0 || w.rc == -1
    ensures w.rc == 0 <==> f.room >= 4
    ensures w.sink.words == f.words + Slices(x)[..if f.room < 4 then f.room else 4]
  {
    var s := Slices(x);
    var p1 := PutWord(f, s[0]);
    if p1.failed then Written(-1, p1.sink) else
    var p2 := PutWord(p1.sink, s[1]);
    if p2.failed then Written(-1, p2.sink) else
    var p3 := PutWord(p2.sink, s[2]);
    if p3.failed then Written(-1, p3.sink) else
    var p4 := PutWord(p3.sink, s[3]);
    if p4.failed then Written(-1, p4.sink) else
    Written(0, p4.sink)
  }

  /** Reads four slices: the first is shifted into place, overwriting `x`,
      the others are or-ed in. Returns -1 at the first read that fails,
      leaving what was assembled so far, and 0 once all four are read. */
  method SRead(f: seq<bv16>, x: bv64) returns (rc: int, x': bv64, rest: seq<bv16>)
    ensures rc == 0 || rc == -1
    ensures rc == 0 <==> |f| >= 4
    ensures rc == 0 ==> x' == Assemble(f[..4]) && rest == f[4..]
    ensures rc == -1 ==> rest == []
    ensures rc == -1 && |f| == 0 ==> x' == x
    ensures rc == -1 && |f| == 1 ==> x' == (f[0] as bv64) << 48
    ensures rc == -1 && |f| == 2 ==> x' == ((f[0] as bv64) << 48) | ((f[1] as bv64) << 32)
    ensures rc == -1 && |f| == 3 ==> x' == ((f[0] as bv64) << 48) | ((f[1] as bv64) << 32) | ((f[2] as bv64) << 16)
  {
    x' := x;
    var g := GetWord(f, 0);
    if g.failed { return -1, x', g.rest; }
    x' := (g.word as bv64) << 48;
    g := GetWord(g.rest, 0);
    if g.failed { return -1, x', g.rest; }
    x' := x' | ((g.word as bv64) << 32);
    g := GetWord(g.rest, 0);
    if g.failed { return -1, x', g.rest; }
    x' := x' | ((g.word as bv64) << 16);
    g := GetWord(g.rest, 0);
    if g.failed { return -1, x', g.rest; }
    x' := x' | (g.word as bv64);
    return 0, x', g.rest;
  }

  /** Writing a value to a sink with room for it and reading the slices back
      gives the same 64-bit pattern. */
  method WriteThenRead(x: bv64, scratch: bv64) returns (rc: int, y: bv64)
    ensures rc == 0 && y == x
  {
    var w := SWrite(Sink([], 4), x);
    var rest;
    rc, y, rest := SRead(w.sink.words, scratch);
    SlicesReassemble(x);
  }
}
