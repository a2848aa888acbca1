/** Audio blocks and tagged blocks, shared by the capture, detection and playback stages. */
module Audio {
  import opened Common

  type Sample = real

  /** A shared pointer to an audio block: null, or a start time and its samples. */
  datatype AudioBuffer = Null | Buffer(startTime: real, samples: seq<Sample>) {
    function Data(): seq<Sample> {
      if Null? then [] else samples
    }
  }

  datatype Marker = NONE | START | END | MIDDLE

  datatype Tagged = Tagged(buffer: AudioBuffer, marker: Marker, packetId: int)

  /** The sample stream carried by a sequence of blocks. */
  function Flatten(bs: seq<AudioBuffer>): seq<Sample> {
    if bs == [] then [] else bs[0].Data() + Flatten(bs[1..])
  }

  /** The blocks of a sequence of tagged blocks. */
  function Blocks(ts: seq<Tagged>): seq<AudioBuffer> {
    seq(|ts|, i requires 0 <= i < |ts| => ts[i].buffer)
  }

  function Stream(ts: seq<Tagged>): seq<Sample> {
    Flatten(Blocks(ts))
  }

  function TagAll(bs: seq<AudioBuffer>, m: Marker, id: int): seq<Tagged> {
    seq(|bs|, i requires 0 <= i < |bs| => Tagged(bs[i], m, id))
  }

  /** The first n samples of s, padded with zeros to length n. */
  function PadTake(s: seq<Sample>, n: nat): (r: seq<Sample>)
    ensures |r| == n
  {
    if n <= |s| then s[..n] else s + Zeros(n - |s|)
  }

  lemma {:induction false} FlattenConcat(a: seq<AudioBuffer>, b: seq<AudioBuffer>)
    ensures Flatten(a + b) == Flatten(a) + Flatten(b)
  {
    if a == [] {
      assert a + b == b;
    } else {
      assert (a + b)[1..] == a[1..] + b;
      FlattenConcat(a[1..], b);
    }
  }

  lemma {:induction false} BlocksConcat(a: seq<Tagged>, b: seq<Tagged>)
    ensures Blocks(a + b) == Blocks(a) + Blocks(b)
  {
  }

  lemma {:induction false} StreamConcat(a: seq<Tagged>, b: seq<Tagged>)
    ensures Stream(a + b) == Stream(a) + Stream(b)
  {
    BlocksConcat(a, b);
    FlattenConcat(Blocks(a), Blocks(b));
  }

  lemma {:induction false} StreamOne(t: Tagged)
    ensures Stream([t]) == t.buffer.Data()
  {
    assert Blocks([t]) == [t.buffer];
    assert Flatten([t.buffer]) == t.buffer.Data() + Flatten([]);
  }

  /** A run of blocks carries one contiguous slice of the stream of the whole sequence. */
  lemma {:induction false} SliceOfBlocksIsSliceOfStream(bs: seq<AudioBuffer>, lo: nat, hi: nat)
    requires lo <= hi <= |bs|
    ensures |Flatten(bs[..lo])| <= |Flatten(bs[..hi])| <= |Flatten(bs)|
    ensures Flatten(bs[lo..hi]) == Flatten(bs)[|Flatten(bs[..lo])|..|Flatten(bs[..hi])|]
  {
    assert bs[..hi] == bs[..lo] + bs[lo..hi];
    assert bs == bs[..hi] + bs[hi..];
    FlattenConcat(bs[..lo], bs[lo..hi]);
    FlattenConcat(bs[..hi], bs[hi..]);
  }
}
