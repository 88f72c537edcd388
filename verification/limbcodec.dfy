/** The limb backend's serialization (`CCbigguy_swrite`, `CCbigguy_sread`):
    the four limbs as unsigned 32-bit words in the order `ihi, ilo, fhi, flo`. */
module LimbCodec {
  import opened BigGuyValue
  import opened Streams

  /** The words a bigguy is written as. */
  function Encode(x: BigGuy): seq<Word> {
    [x.ihi, x.ilo, x.fhi, x.flo]
  }

  /** The bigguy four words stand for, in the order `ihi, ilo, fhi, flo`. */
  function Decode(ws: seq<Word>): BigGuy
    requires |ws| == 4
  {
    BigGuy(ws[0], ws[1], ws[2], ws[3])
  }

  /** Decoding the encoding gives the bigguy back. */
  lemma DecodeEncode(x: BigGuy)
    ensures Decode(Encode(x)) == x
  {
  }

  /** Encoding a decoded bigguy gives the words back. */
  lemma EncodeDecode(ws: seq<Word>)
    requires |ws| == 4
    ensures Encode(Decode(ws)) == ws
  {
  }

  /** The words a run of bigguys is written as by successive
      `CCbigguy_swrite` calls: four per bigguy, one bigguy after another. */
  function EncodeAll(xs: seq<BigGuy>): (ws: seq<Word>)
    ensures |ws| == 4 * |xs|
    ensures forall i :: 0 <= i < |xs| ==> ws[4 * i..4 * i + 4] == Encode(xs[i])
  {
    if xs == [] then [] else
    var ws := Encode(xs[0]) + EncodeAll(xs[1..]);
    assert forall i :: 1 <= i < |xs| ==> ws[4 * i..4 * i + 4] == EncodeAll(xs[1..])[4 * (i - 1)..4 * (i - 1) + 4];
    ws
  }

  /** The bigguys successive `CCbigguy_sread` calls assemble from a stream
      of whole four-word records. */
  function DecodeAll(ws: seq<Word>): seq<BigGuy>
    requires |ws| % 4 == 0
    decreases |ws|
  {
    if ws == [] then [] else [Decode(ws[..4])] + DecodeAll(ws[4..])
  }

  /** Decoding one more record appends its bigguy. */
  lemma {:induction false} DecodeAllAppend(ws: seq<Word>, r: seq<Word>)
    requires |ws| % 4 == 0 && |r| == 4
    ensures DecodeAll(ws + r) == DecodeAll(ws) + [Decode(r)]
    decreases |ws|
  {
    if ws == [] {
      assert ws + r == r;
      assert r[..4] == r;
    } else {
      assert (ws + r)[..4] == ws[..4];
      assert (ws + r)[4..] == ws[4..] + r;
      DecodeAllAppend(ws[4..], r);
    }
  }

  /** Bigguys written one after another are read back one after another,
      each from its own four words. */
  lemma {:induction false} DecodeAllEncodeAll(xs: seq<BigGuy>)
    ensures DecodeAll(EncodeAll(xs)) == xs
  {
    if xs != [] {
      var ws := EncodeAll(xs);
      assert ws[..4] == Encode(xs[0]);
      assert ws[4..] == EncodeAll(xs[1..]);
      DecodeAllEncodeAll(xs[1..]);
    }
  }

  /** `x` with its first `|ws|` limbs, in the order `ihi, ilo, fhi, flo`,
      replaced by `ws`. */
  function Overwrite(x: BigGuy, ws: seq<Word>): (y: BigGuy)
    requires |ws| <= 4
    ensures Encode(y) == ws + Encode(x)[|ws|..]
  {
    BigGuy(if |ws| > 0 then ws[0] else x.ihi,
           if |ws| > 1 then ws[1] else x.ilo,
           if |ws| > 2 then ws[2] else x.fhi,
           if |ws| > 3 then ws[3] else x.flo)
  }

  /** The result code and the sink after `CCbigguy_swrite`. */
  datatype Written<W> = Written(rc: int, sink: Sink<W>)

  /** The smaller of a sink's room and a number of words. */
  function Fit(room: nat, n: nat): (k: nat)
    ensures k <= room && k <= n && (k == room || k == n)
  {
    if room < n then room else n
  }

  /** Writes `ihi, ilo, fhi, flo`, returning -1 at the first write that
      fails, with no later limb written, and 0 otherwise. */
  function SWrite(f: Sink<Word>, x: BigGuy): (w: Written<Word>)
    ensures w.rc == 0 || w.rc == -1
    ensures w.rc == 0 <==> f.room >= 4
    ensures w.sink.words == f.words + Encode(x)[..Fit(f.room, 4)]
    ensures w.sink.room == f.room - Fit(f.room, 4)
  {
    var p1 := PutWord(f, x.ihi);
    if p1.failed then Written(-1, p1.sink) else
    var p2 := PutWord(p1.sink, x.ilo);
    if p2.failed then Written(-1, p2.sink) else
    var p3 := PutWord(p2.sink, x.fhi);
    if p3.failed then Written(-1, p3.sink) else
    var p4 := PutWord(p3.sink, x.flo);
    if p4.failed then Written(-1, p4.sink) else
    Written(0, p4.sink)
  }

  /** Successive `CCbigguy_swrite` calls, one per bigguy, stopping at the
      first that fails: -1 if one failed, 0 if all succeeded. */
  function SWriteAll(f: Sink<Word>, xs: seq<BigGuy>): (w: Written<Word>)
    ensures w.rc == 0 || w.rc == -1
    ensures w.rc == 0 <==> f.room >= 4 * |xs|
    ensures w.sink.room == f.room - Fit(f.room, 4 * |xs|)
    decreases |xs|
  {
    if xs == [] then Written(0, f) else
    var w1 := SWrite(f, xs[0]);
    if w1.rc != 0 then w1 else SWriteAll(w1.sink, xs[1..])
  }

  /** Successive writes emit the prefix of the records of `xs` that fits in
      the sink: all of them when there is room for them. */
  lemma {:induction false} SWriteAllEncodes(f: Sink<Word>, xs: seq<BigGuy>)
    ensures SWriteAll(f, xs).sink.words == f.words + EncodeAll(xs)[..Fit(f.room, 4 * |xs|)]
    decreases |xs|
  {
    if xs != [] {
      var w1 := SWrite(f, xs[0]);
      var all := EncodeAll(xs);
      assert all[..4] == Encode(xs[0]);
      if w1.rc != 0 {
        assert all[..f.room] == Encode(xs[0])[..f.room];
      } else {
        SWriteAllEncodes(w1.sink, xs[1..]);
        assert all[4..] == EncodeAll(xs[1..]);
        assert all[..Fit(f.room, 4 * |xs|)] == Encode(xs[0]) + EncodeAll(xs[1..])[..Fit(w1.sink.room, 4 * |xs[1..]|)];
      }
    }
  }

  /** Reads `ihi, ilo, fhi, flo` into `x` one limb at a time, returning -1 at
      the first read that fails (the limbs read before it stay written, the
      later ones untouched) and 0 once all four are read. */
  method SRead(f: seq<Word>, x: BigGuy) returns (rc: int, x': BigGuy, rest: seq<Word>)
    ensures rc == 0 || rc == -1
    ensures rc == 0 <==> |f| >= 4
    ensures rc == 0 ==> x' == Decode(f[..4]) && rest == f[4..]
    ensures rc == -1 ==> x' == Overwrite(x, f) && rest == []
  {
    x' := x;
    var g := GetWord(f, 0);
    if g.failed { return -1, x', g.rest; }
    x' := x'.(ihi := g.word);
    g := GetWord(g.rest, 0);
    if g.failed { return -1, x', g.rest; }
    x' := x'.(ilo := g.word);
    g := GetWord(g.rest, 0);
    if g.failed { return -1, x', g.rest; }
    x' := x'.(fhi := g.word);
    g := GetWord(g.rest, 0);
    if g.failed { return -1, x', g.rest; }
    x' := x'.(flo := g.word);
    return 0, x', g.rest;
  }

  /** `n` successive `CCbigguy_sread` calls into the same target, stopping
      at the first that fails: -1 if one failed, 0 if all succeeded, with the
      bigguys of the whole records read, in order. */
  method SReadAll(f: seq<Word>, n: nat, scratch: BigGuy) returns (rc: int, xs: seq<BigGuy>, rest: seq<Word>)
    ensures rc == 0 || rc == -1
    ensures rc == 0 <==> |f| >= 4 * n
    ensures rc == 0 ==> |xs| == n && xs == DecodeAll(f[..4 * n]) && rest == f[4 * n..]
    ensures rc == -1 ==> |xs| == |f| / 4 && xs == DecodeAll(f[..4 * |xs|]) && rest == []
  {
    var target := scratch;
    xs, rest := [], f;
    var k := 0;
    while k < n
      invariant 0 <= k <= n && |xs| == k
      invariant 4 * k <= |f|
      invariant xs == DecodeAll(f[..4 * k]) && rest == f[4 * k..]
    {
      var r, t, after := SRead(rest, target);
      if r != 0 {
        assert |f| / 4 == k;
        return -1, xs, after;
      }
      assert f[..4 * (k + 1)] == f[..4 * k] + rest[..4];
      DecodeAllAppend(f[..4 * k], rest[..4]);
      xs, rest, target := xs + [t], after, t;
      k := k + 1;
    }
    rc := 0;
  }

  /** Writing a run of bigguys to a sink with room for them and reading as
      many back gives the same bigguys, in order. */
  method WriteAllThenReadAll(xs: seq<BigGuy>, scratch: BigGuy) returns (rc: int, ys: seq<BigGuy>)
    ensures rc == 0 && ys == xs
  {
    var w := SWriteAll(Sink([], 4 * |xs|), xs);
    SWriteAllEncodes(Sink([], 4 * |xs|), xs);
    assert w.sink.words == EncodeAll(xs);
    var rest;
    rc, ys, rest := SReadAll(w.sink.words, |xs|, scratch);
    assert w.sink.words[..4 * |xs|] == EncodeAll(xs);
    DecodeAllEncodeAll(xs);
  }

  /** Writing a bigguy to a sink with room for it and reading the words back
      gives the same bigguy. */
  method WriteThenRead(x: BigGuy, scratch: BigGuy) returns (rc: int, y: BigGuy)
    ensures rc == 0 && y == x
  {
    var w := SWrite(Sink([], 4), x);
    var rest;
    rc, y, rest := SRead(w.sink.words, scratch);
    DecodeEncode(x);
  }
}
