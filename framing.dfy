/**
 * The framing rule of `Api._read_` (pyxtb/api.py): a frame is whatever the
 * reader yields until the first read that returns fewer bytes than asked for,
 * decoded and stripped of surrounding whitespace.
 *
 * A reader is modelled by the chunks its successive `read(buffer_size)` calls
 * return; once they are used up it returns the empty chunk, as an asyncio
 * stream does at end of file.
 */
module Framing {
  import opened Values

  newtype byte = x: int | 0 <= x < 256
  type Bytes = seq<byte>

  /** The `buffer_size` every caller of `_read_` uses. */
  const BufferSize: nat := 4096

  /** The ASCII characters `str.strip()` removes: tab to carriage return, the four separators, space. */
  predicate IsSpace(b: byte)
  {
    9 <= b <= 13 || 28 <= b <= 32
  }

  /** Where the text starts once the whitespace from `from` on is skipped. */
  function SkipSpace(s: Bytes, from: nat): (i: nat)
    requires from <= |s|
    ensures from <= i <= |s|
    ensures forall k :: from <= k < i ==> IsSpace(s[k])
    ensures i < |s| ==> !IsSpace(s[i])
    decreases |s| - from
  {
    if from < |s| && IsSpace(s[from]) then SkipSpace(s, from + 1) else from
  }

  /** Where the text ends once the whitespace before `to`, down to `floor`, is dropped. */
  function DropSpace(s: Bytes, floor: nat, to: nat): (j: nat)
    requires floor <= to <= |s|
    ensures floor <= j <= to
    ensures forall k :: j <= k < to ==> IsSpace(s[k])
    ensures floor < j ==> !IsSpace(s[j - 1])
  {
    if floor < to && IsSpace(s[to - 1]) then DropSpace(s, floor, to - 1) else to
  }

  /** The index of the first byte `Strip` keeps. */
  function StripFrom(s: Bytes): nat
  {
    SkipSpace(s, 0)
  }

  /** The index just past the last byte `Strip` keeps. */
  function StripTo(s: Bytes): (j: nat)
    ensures StripFrom(s) <= j <= |s|
  {
    DropSpace(s, StripFrom(s), |s|)
  }

  /** `str.strip()`: `s` without its leading and its trailing whitespace. */
  function Strip(s: Bytes): (r: Bytes)
    ensures |r| <= |s|
    ensures r != [] ==> !IsSpace(r[0]) && !IsSpace(r[|r| - 1])
  {
    s[StripFrom(s)..StripTo(s)]
  }

  /**
   * What `Strip` keeps neither starts nor ends with whitespace, and everything
   * it drops, before and after it, is whitespace.
   */
  lemma StripShape(s: Bytes)
    ensures var i, j := StripFrom(s), StripTo(s);
            && Strip(s) == s[i..j]
            && (forall k :: 0 <= k < i ==> IsSpace(s[k]))
            && (forall k :: j <= k < |s| ==> IsSpace(s[k]))
            && (i < j ==> !IsSpace(s[i]) && !IsSpace(s[j - 1]))
  {
  }

  /** A frame of whitespace only reads as empty, and only such a frame does. */
  lemma StripEmptyIffBlank(s: Bytes)
    ensures Strip(s) == [] <==> forall k :: 0 <= k < |s| ==> IsSpace(s[k])
  {
    var i, j := StripFrom(s), StripTo(s);
    if Strip(s) == [] {
      assert i == j;
    } else {
      assert !IsSpace(s[i]);
    }
  }

  /** Stripping twice changes nothing. */
  lemma StripIdempotent(s: Bytes)
    ensures Strip(Strip(s)) == Strip(s)
  {
    var r := Strip(s);
    var i, j := StripFrom(s), StripTo(s);
    if r != [] {
      assert r[0] == s[i] && r[|r| - 1] == s[j - 1];
      assert StripFrom(r) == 0;
      assert StripTo(r) == |r|;
    }
  }

  /** The chunks concatenated in order: the bytearray `_read_` grows with `data += chunk`. */
  function Flatten(chunks: seq<Bytes>): Bytes
  {
    if chunks == [] then [] else Flatten(chunks[..|chunks| - 1]) + chunks[|chunks| - 1]
  }

  /** Reading the chunks of `a` and then those of `b` accumulates the bytes of `a` followed by those of `b`. */
  lemma {:induction false} FlattenAppend(a: seq<Bytes>, b: seq<Bytes>)
    ensures Flatten(a + b) == Flatten(a) + Flatten(b)
    decreases |b|
  {
    if b != [] {
      var b' := b[..|b| - 1];
      assert (a + b)[..|a + b| - 1] == a + b';
      FlattenAppend(a, b');
    } else {
      assert a + b == a;
    }
  }

  /** `k` full chunks accumulate exactly `k * n` bytes. */
  lemma {:induction false} FlattenFullLength(chunks: seq<Bytes>, n: nat)
    requires forall i :: 0 <= i < |chunks| ==> |chunks[i]| == n
    ensures |Flatten(chunks)| == |chunks| * n
  {
    if chunks != [] {
      FlattenFullLength(chunks[..|chunks| - 1], n);
    }
  }

  /** The index of the first chunk whose length is not `n`, or the number of chunks if there is none. */
  function FirstShort(chunks: seq<Bytes>, n: nat): (k: nat)
    ensures k <= |chunks|
    ensures forall i :: 0 <= i < k ==> |chunks[i]| == n
    ensures k < |chunks| ==> |chunks[k]| != n
  {
    if chunks == [] || |chunks[0]| != n then 0 else 1 + FirstShort(chunks[1..], n)
  }

  /**
   * How many of the reader's chunks one `_read_` takes: up to and including
   * the first short one; all of them if every one is full, the extra read then
   * hitting end of file.
   */
  function Consumed(chunks: seq<Bytes>, n: nat): (c: nat)
    ensures c <= |chunks|
  {
    var k := FirstShort(chunks, n);
    if k < |chunks| then k + 1 else k
  }

  /**
   * `_read_(reader, n)`: the frame text (or the exception) and what the reader
   * holds afterwards. An absent reader fails before anything is read.
   */
  function ReadFrame(reader: Option<seq<Bytes>>, n: nat): (r: (Result<Bytes>, Option<seq<Bytes>>))
    ensures r.0.Err? <==> reader.None?
    ensures r.1.Some? <==> reader.Some?
    ensures reader.Some? ==>
              && |r.1.value| <= |reader.value|
              && reader.value == reader.value[..|reader.value| - |r.1.value|] + r.1.value
    ensures reader.Some? && reader.value != [] ==> |r.1.value| < |reader.value|
  {
    match reader
    case None => (Err(Raised(JStr("Reader not set up"))), None)
    case Some(chunks) =>
      var c := Consumed(chunks, n);
      (Ok(Strip(Flatten(chunks[..c]))), Some(chunks[c..]))
  }

  /**
   * Every consumed chunk but the last is full; reading stops early only after
   * a short chunk; and when the last consumed chunk is full, every chunk was
   * full and the reader ran dry.
   */
  lemma ConsumedShape(chunks: seq<Bytes>, n: nat)
    ensures var c := Consumed(chunks, n);
            && (forall i :: 0 <= i < c - 1 ==> |chunks[i]| == n)
            && (c < |chunks| ==> 0 < c && |chunks[c - 1]| != n)
            && (c == |chunks| && (c == 0 || |chunks[c - 1]| == n) ==>
                  forall i :: 0 <= i < c ==> |chunks[i]| == n)
  {
  }

  /** The first short chunk ends the frame: exactly the chunks up to and including it are consumed. */
  lemma ShortChunkEndsFrame(chunks: seq<Bytes>, n: nat, k: nat)
    requires k < |chunks| && |chunks[k]| != n
    requires forall i :: 0 <= i < k ==> |chunks[i]| == n
    ensures Consumed(chunks, n) == k + 1
  {
  }

  /** A frame that fits in one short chunk is that chunk stripped, and the reader keeps the rest. */
  lemma ShortFirstChunk(chunks: seq<Bytes>, n: nat)
    requires chunks != [] && |chunks[0]| != n
    ensures ReadFrame(Some(chunks), n) == (Ok(Strip(chunks[0])), Some(chunks[1..]))
  {
    assert Consumed(chunks, n) == 1;
    var first := chunks[..1];
    assert first[..0] == [] && first[0] == chunks[0];
    assert Flatten(first) == chunks[0];
    assert ReadFrame(Some(chunks), n) == (Ok(Strip(Flatten(first))), Some(chunks[1..]));
  }

  /** A last chunk of exactly `n` bytes does not end the frame: the next chunk is read into it too. */
  lemma FullChunkForcesAnotherRead(chunks: seq<Bytes>, n: nat, k: nat)
    requires k + 1 < |chunks|
    requires forall i :: 0 <= i <= k ==> |chunks[i]| == n
    ensures Consumed(chunks, n) >= k + 2
  {
  }
}
