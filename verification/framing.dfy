/** Messages on a byte stream: a length header in front of each, and a decoder that takes whatever
    pieces the connection delivers. */
module Framing {
  import opened Messages

  newtype Byte = x: int | 0 <= x < 256

  type Bytes = seq<Byte>

  const HEADER_SIZE: nat := 4
  const TWO_TO_THE_32: nat := 0x1_0000_0000

  /** How contents become bytes and back. */
  datatype Codec<!T> = Codec(encode: T -> Bytes, parse: Bytes -> Option<T>)

  ghost predicate RoundTrips<T(!new)>(c: Codec<T>) {
    forall x :: c.parse(c.encode(x)) == Some(x)
  }

  /** Least significant byte first. */
  function PutFixed32(n: nat): Bytes
    requires n < TWO_TO_THE_32
  {
    [(n % 256) as Byte, (n / 256 % 256) as Byte, (n / 65536 % 256) as Byte, (n / 16777216) as Byte]
  }

  function DecodeFixed32(b: Bytes): nat
    requires |b| >= 4
  {
    b[0] as nat + 256 * (b[1] as nat) + 65536 * (b[2] as nat) + 16777216 * (b[3] as nat)
  }

  lemma Fixed32RoundTrips(n: nat, rest: Bytes)
    requires n < TWO_TO_THE_32
    ensures DecodeFixed32(PutFixed32(n) + rest) == n
  {
    var b := PutFixed32(n);
    assert (b + rest)[0] == b[0] && (b + rest)[1] == b[1] && (b + rest)[2] == b[2] && (b + rest)[3] == b[3];
    assert n / 65536 == n / 256 / 256 && n / 16777216 == n / 65536 / 256;
  }

  /** The length counts the header and is cut to 32 bits. */
  function Frame<T>(c: Codec<T>, x: T): Bytes {
    PutFixed32((HEADER_SIZE + |c.encode(x)|) % TWO_TO_THE_32) + c.encode(x)
  }

  predicate Fits<T>(c: Codec<T>, x: T) {
    HEADER_SIZE + |c.encode(x)| < TWO_TO_THE_32
  }

  predicate AllFit<T>(c: Codec<T>, xs: seq<T>) {
    forall j :: 0 <= j < |xs| ==> Fits(c, xs[j])
  }

  function Stream<T>(c: Codec<T>, xs: seq<T>): Bytes {
    if xs == [] then [] else Frame(c, xs[0]) + Stream(c, xs[1..])
  }

  /** No whole frame is in the buffer yet. */
  predicate Incomplete(buf: Bytes) {
    |buf| < HEADER_SIZE || |buf| < DecodeFixed32(buf)
  }

  /** A length that does not even cover the header, or a body that does not parse. */
  predicate Bad<T>(c: Codec<T>, buf: Bytes)
    requires !Incomplete(buf)
  {
    DecodeFixed32(buf) < HEADER_SIZE || c.parse(buf[HEADER_SIZE..DecodeFixed32(buf)]).None?
  }

  datatype Decoded<T> = Decoded(contents: seq<T>, rest: Bytes, shutDown: bool)

  function Decode<T>(c: Codec<T>, buf: Bytes): Decoded<T>
    decreases |buf|
  {
    if Incomplete(buf) then Decoded([], buf, false)
    else if Bad(c, buf) then Decoded([], buf, true)
    else
      var d := Decode(c, buf[DecodeFixed32(buf)..]);
      d.(contents := [c.parse(buf[HEADER_SIZE..DecodeFixed32(buf)]).value] + d.contents)
  }

  /** Decoding stops at a frame that is not complete and goes on later, or at a bad one and shuts down. */
  lemma {:induction false} StopsAt<T>(c: Codec<T>, buf: Bytes)
    ensures var d := Decode(c, buf);
      if d.shutDown then !Incomplete(d.rest) && Bad(c, d.rest) else Incomplete(d.rest)
    decreases |buf|
  {
    if !Incomplete(buf) && !Bad(c, buf) {
      StopsAt(c, buf[DecodeFixed32(buf)..]);
    }
  }

  /** What a decoding amounts to after `before` has already been handed over. */
  function Total<T>(before: seq<T>, d: Decoded<T>): Decoded<T> {
    d.(contents := before + d.contents)
  }

  lemma TakeOne<T>(c: Codec<T>, before: seq<T>, buf: Bytes)
    requires !Incomplete(buf) && !Bad(c, buf)
    ensures var size := DecodeFixed32(buf);
            Total(before, Decode(c, buf)) ==
            Total(before + [c.parse(buf[HEADER_SIZE..size]).value], Decode(c, buf[size..]))
  {
    var x := c.parse(buf[HEADER_SIZE..DecodeFixed32(buf)]).value;
    var d := Decode(c, buf[DecodeFixed32(buf)..]);
    assert before + ([x] + d.contents) == (before + [x]) + d.contents;
  }

  lemma TakeNone<T>(c: Codec<T>, before: seq<T>, buf: Bytes)
    requires Incomplete(buf) || Bad(c, buf)
    ensures Total(before, Decode(c, buf)) == Decoded(before, buf, !Incomplete(buf))
  {
    assert before + [] == before;
  }

  class Connection<T> {
    const codec: Codec<T>
    var buf: Bytes
    var delivered: seq<T>
    var shutDown: bool

    constructor (codec: Codec<T>)
      ensures this.codec == codec && buf == [] && delivered == [] && !shutDown
    {
      this.codec, buf, delivered, shutDown := codec, [], [], false;
    }

    /** New bytes arrived: hand over every whole message. */
    method OnMessage(data: Bytes)
      modifies this
      ensures var d := Total(old(delivered), Decode(codec, old(buf) + data));
              delivered == d.contents && buf == d.rest && shutDown == (old(shutDown) || d.shutDown)
    {
      buf := buf + data;
      ghost var d := Total(delivered, Decode(codec, buf));
      var res := true;
      while res
        invariant res ==> d == Total(delivered, Decode(codec, buf)) && shutDown == old(shutDown)
        invariant !res ==> d == Decoded(delivered, buf, true) && shutDown
        decreases |buf|, res
      {
        if |buf| >= HEADER_SIZE {
          var size := DecodeFixed32(buf);
          if |buf| >= size {
            var content := if size < HEADER_SIZE then None else codec.parse(buf[HEADER_SIZE..size]);
            res := content.Some?;
            if res {
              TakeOne(codec, delivered, buf);
              delivered := delivered + [content.value];
              buf := buf[size..];
            } else {
              TakeNone(codec, delivered, buf);
              shutDown := true;
            }
            continue;
          }
        }
        TakeNone(codec, delivered, buf);
        break;
      }
    }
  }

  // ------------------------------------------------------------ the round trip

  lemma FrameIsRead<T(!new)>(c: Codec<T>, x: T, rest: Bytes)
    requires RoundTrips(c) && Fits(c, x)
    ensures var b := Frame(c, x) + rest;
            && !Incomplete(b) && DecodeFixed32(b) == |Frame(c, x)| && !Bad(c, b)
            && c.parse(b[HEADER_SIZE..DecodeFixed32(b)]) == Some(x) && b[DecodeFixed32(b)..] == rest
  {
    var e := c.encode(x);
    var n := HEADER_SIZE + |e|;
    var b := Frame(c, x) + rest;
    Fixed32RoundTrips(n, e + rest);
    assert b == PutFixed32(n) + (e + rest);
    assert b[HEADER_SIZE..n] == e;
    assert b[n..] == rest;
  }

  /** A strict part of a frame is not taken for a whole one. */
  lemma PartIsIncomplete<T(!new)>(c: Codec<T>, x: T, b: Bytes)
    requires RoundTrips(c) && Fits(c, x) && b <= Frame(c, x) && |b| < |Frame(c, x)|
    ensures Incomplete(b)
  {
    if |b| >= HEADER_SIZE {
      FrameIsRead(c, x, []);
      assert Frame(c, x) + [] == Frame(c, x);
      assert DecodeFixed32(b) == DecodeFixed32(Frame(c, x));
    }
  }

  /** `n` messages and an unfinished part of the next. */
  ghost predicate Splits<T>(c: Codec<T>, xs: seq<T>, n: nat, b: Bytes, rest: Bytes) {
    && n <= |xs|
    && b == Stream(c, xs[..n]) + rest
    && rest <= Stream(c, xs[n..])
    && Incomplete(rest)
  }

  lemma {:induction false} DecodePrefix<T(!new)>(c: Codec<T>, xs: seq<T>, b: Bytes) returns (n: nat)
    requires RoundTrips(c) && AllFit(c, xs) && b <= Stream(c, xs)
    ensures n <= |xs| && !Decode(c, b).shutDown && Decode(c, b).contents == xs[..n]
    ensures Splits(c, xs, n, b, Decode(c, b).rest)
    decreases |xs|
  {
    if xs == [] {
      n := 0;
      assert xs[..0] == [] && b == [];
    } else {
      var f := Frame(c, xs[0]);
      if |b| < |f| {
        n := 0;
        assert b <= f;
        PartIsIncomplete(c, xs[0], b);
        assert xs[..0] == [] && xs[0..] == xs && [] + b == b;
      } else {
        var b' := b[|f|..];
        assert b == f + b' && b' <= Stream(c, xs[1..]);
        FrameIsRead(c, xs[0], b');
        var m := DecodePrefix(c, xs[1..], b');
        n := m + 1;
        SplitsMore(c, xs, m, b', Decode(c, b').rest);
      }
    }
  }

  lemma SplitsMore<T>(c: Codec<T>, xs: seq<T>, m: nat, b: Bytes, rest: Bytes)
    requires xs != [] && Splits(c, xs[1..], m, b, rest)
    ensures xs[..m + 1] == [xs[0]] + xs[1..][..m]
    ensures Splits(c, xs, m + 1, Frame(c, xs[0]) + b, rest)
  {
    var f := Frame(c, xs[0]);
    assert xs[..m + 1][1..] == xs[1..][..m] && xs[1..][m..] == xs[m + 1..];
    assert Stream(c, xs[..m + 1]) == f + Stream(c, xs[1..][..m]);
    assert f + b == Stream(c, xs[..m + 1]) + rest;
  }

  function Concat(pieces: seq<Bytes>): Bytes
    decreases |pieces|
  {
    if pieces == [] then [] else Concat(pieces[..|pieces| - 1]) + pieces[|pieces| - 1]
  }

  /** The connection after a number of reads: what was handed over and what is in the buffer. */
  function AfterReads<T>(c: Codec<T>, pieces: seq<Bytes>): Decoded<T>
    decreases |pieces|
  {
    if pieces == [] then Decoded([], [], false)
    else
      var a := AfterReads(c, pieces[..|pieces| - 1]);
      var d := Decode(c, a.rest + pieces[|pieces| - 1]);
      Decoded(a.contents + d.contents, d.rest, a.shutDown || d.shutDown)
  }

  lemma MoreBytes<T>(c: Codec<T>, b: Bytes, data: Bytes)
    requires !Incomplete(b)
    ensures DecodeFixed32(b + data) == DecodeFixed32(b) && !Incomplete(b + data) && Bad(c, b + data) == Bad(c, b)
    ensures (b + data)[DecodeFixed32(b)..] == b[DecodeFixed32(b)..] + data
    ensures HEADER_SIZE <= DecodeFixed32(b) ==>
              (b + data)[HEADER_SIZE..DecodeFixed32(b)] == b[HEADER_SIZE..DecodeFixed32(b)]
  {
    if HEADER_SIZE <= DecodeFixed32(b) {
      assert (b + data)[HEADER_SIZE..DecodeFixed32(b)] == b[HEADER_SIZE..DecodeFixed32(b)];
    }
  }

  /** Bytes that arrive later continue where decoding stopped. */
  lemma {:induction false} DecodeContinues<T>(c: Codec<T>, b: Bytes, data: Bytes)
    ensures Decode(c, b + data) == Total(Decode(c, b).contents, Decode(c, Decode(c, b).rest + data))
    ensures Decode(c, b).shutDown ==> Decode(c, b + data).shutDown
    decreases |b|
  {
    if !Incomplete(b) {
      MoreBytes(c, b, data);
      if !Bad(c, b) {
        var size := DecodeFixed32(b);
        DecodeContinues(c, b[size..], data);
        Prepended(c.parse(b[HEADER_SIZE..size]).value, Decode(c, b[size..]).contents,
                  Decode(c, Decode(c, b[size..]).rest + data).contents);
      }
    }
  }

  lemma Prepended<T>(x: T, s: seq<T>, t: seq<T>)
    ensures [x] + (s + t) == ([x] + s) + t
  {
  }

  /** For any bytes at all, well-formed or not: how they are cut into reads makes no difference. */
  lemma {:induction false} EverySplitIsTheSame<T>(c: Codec<T>, pieces: seq<Bytes>)
    ensures AfterReads(c, pieces) == Decode(c, Concat(pieces))
    decreases |pieces|
  {
    if pieces != [] {
      EverySplitIsTheSame(c, pieces[..|pieces| - 1]);
      DecodeContinues(c, Concat(pieces[..|pieces| - 1]), pieces[|pieces| - 1]);
    }
  }

  /** However the stream of any messages is cut into reads, and wherever it is cut off, the decoder hands
      over exactly the messages that are complete, in order, and keeps the unfinished rest. */
  lemma EverySplitDecodes<T(!new)>(c: Codec<T>, xs: seq<T>, pieces: seq<Bytes>) returns (n: nat)
    requires RoundTrips(c) && AllFit(c, xs) && Concat(pieces) <= Stream(c, xs)
    ensures n <= |xs| && AfterReads(c, pieces).contents == xs[..n] && !AfterReads(c, pieces).shutDown
    ensures Splits(c, xs, n, Concat(pieces), AfterReads(c, pieces).rest)
  {
    EverySplitIsTheSame(c, pieces);
    n := DecodePrefix(c, xs, Concat(pieces));
  }

  lemma Associates(s: Bytes, t: Bytes, u: Bytes)
    ensures s + (t + u) == (s + t) + u
  {
  }

  lemma {:induction false} StreamConcat<T>(c: Codec<T>, xs: seq<T>, ys: seq<T>)
    ensures Stream(c, xs + ys) == Stream(c, xs) + Stream(c, ys)
    decreases |xs|
  {
    if xs == [] {
      assert xs + ys == ys;
    } else {
      StreamConcat(c, xs[1..], ys);
      assert (xs + ys)[1..] == xs[1..] + ys;
      Associates(Frame(c, xs[0]), Stream(c, xs[1..]), Stream(c, ys));
    }
  }

  lemma Cancel(s: Bytes, u: Bytes, v: Bytes)
    requires s + u == s + v
    ensures u == v
  {
    assert u == (s + u)[|s|..] && v == (s + v)[|s|..];
  }

  /** Once the whole stream is in, everything has been handed over and nothing is left. */
  lemma WholeStream<T(!new)>(c: Codec<T>, xs: seq<T>, pieces: seq<Bytes>)
    requires RoundTrips(c) && AllFit(c, xs) && Concat(pieces) == Stream(c, xs)
    ensures AfterReads(c, pieces) == Decoded(xs, [], false)
  {
    var n := EverySplitDecodes(c, xs, pieces);
    var rest := AfterReads(c, pieces).rest;
    StreamConcat(c, xs[..n], xs[n..]);
    assert xs[..n] + xs[n..] == xs;
    Cancel(Stream(c, xs[..n]), rest, Stream(c, xs[n..]));
    if n < |xs| {
      assert xs[n..][0] == xs[n];
      FrameIsRead(c, xs[n], Stream(c, xs[n..][1..]));
    }
  }
}
