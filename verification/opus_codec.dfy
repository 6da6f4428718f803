/**
 * The placeholder Opus encoder and decoder. Audio is 16-bit signed PCM,
 * stored little-endian (low byte first). The encoder keeps every other
 * sample; the decoder writes every sample twice.
 */
module OpusCodec {

  type byte = x: int | 0 <= x < 256
  /** Swift's `Int16`. */
  type Int16 = x: int | -0x8000 <= x < 0x8000

  datatype Option<T> = None | Some(value: T)

  // ---------------------------------------------------------------------
  // Samples and bytes
  // ---------------------------------------------------------------------

  /**
   * The sample stored in `lo`, `hi` (two's complement), low byte first: the
   * host's order on a little-endian machine, where samples are read in place.
   */
  function ReadSample(lo: byte, hi: byte): (s: Int16)
    ensures s % 256 == lo
    ensures s < 0 <==> hi >= 0x80
  {
    var u := lo + 256 * hi;
    if u >= 0x8000 then u - 0x1_0000 else u
  }

  /** The two bytes of a sample, low byte first. */
  function SampleBytes(s: Int16): (b: seq<byte>)
    ensures |b| == 2
  {
    var u := if s < 0 then s + 0x1_0000 else s;
    [u % 256, u / 256]
  }

  /** Writing a sample and reading it back gives the sample. */
  lemma ReadWrittenSample(s: Int16)
    ensures ReadSample(SampleBytes(s)[0], SampleBytes(s)[1]) == s
  {
  }

  /** Reading two bytes and writing the sample back gives the two bytes. */
  lemma WriteReadSample(lo: byte, hi: byte)
    ensures SampleBytes(ReadSample(lo, hi)) == [lo, hi]
  {
  }

  /**
   * The samples a byte buffer holds when read as `Int16`s: one per whole
   * pair of bytes; an odd last byte is not part of any sample.
   */
  function Samples(b: seq<byte>): (s: seq<Int16>)
    ensures |s| == |b| / 2
  {
    seq(|b| / 2, k requires 0 <= k < |b| / 2 => ReadSample(b[2 * k], b[2 * k + 1]))
  }

  /** Sample `k` is read from bytes `2k` and `2k + 1`. */
  lemma SamplesAt(b: seq<byte>, k: nat)
    requires k < |b| / 2
    ensures Samples(b)[k] == ReadSample(b[2 * k], b[2 * k + 1])
  {
  }

  /** The bytes of a sample sequence, each sample low byte first. */
  function Bytes(s: seq<Int16>): (b: seq<byte>)
    ensures |b| == 2 * |s|
  {
    if s == [] then [] else Bytes(s[..|s| - 1]) + SampleBytes(s[|s| - 1])
  }

  /** Sample `k` is written at bytes `2k` and `2k + 1`. */
  lemma {:induction false} BytesAt(s: seq<Int16>, k: nat)
    requires k < |s|
    ensures Bytes(s)[2 * k] == SampleBytes(s[k])[0] && Bytes(s)[2 * k + 1] == SampleBytes(s[k])[1]
    decreases |s|
  {
    var n := |s| - 1;
    if k < n {
      BytesAt(s[..n], k);
    }
  }

  /** Writing samples and reading them back gives the samples. */
  lemma SamplesOfBytes(s: seq<Int16>)
    ensures Samples(Bytes(s)) == s
  {
    var b := Bytes(s);
    forall k | 0 <= k < |s| ensures Samples(b)[k] == s[k] {
      SamplesAt(b, k);
      BytesAt(s, k);
      ReadWrittenSample(s[k]);
    }
  }

  /** Reading an even-length buffer and writing its samples back gives the buffer. */
  lemma BytesOfSamples(b: seq<byte>)
    requires |b| % 2 == 0
    ensures Bytes(Samples(b)) == b
  {
    var s := Samples(b);
    var r := Bytes(s);
    forall i | 0 <= i < |b| ensures r[i] == b[i] {
      var k := i / 2;
      SamplesAt(b, k);
      BytesAt(s, k);
      WriteReadSample(b[2 * k], b[2 * k + 1]);
    }
  }

  /** Appending one sample appends its two bytes. */
  lemma BytesSnoc(s: seq<Int16>, k: nat)
    requires k < |s|
    ensures Bytes(s[..k + 1]) == Bytes(s[..k]) + SampleBytes(s[k])
  {
    assert s[..k + 1][..k] == s[..k];
  }

  /** Writing two sample sequences one after the other writes their bytes one after the other. */
  lemma {:induction false} BytesAppend(a: seq<Int16>, b: seq<Int16>)
    ensures Bytes(a + b) == Bytes(a) + Bytes(b)
    decreases |b|
  {
    if b != [] {
      var n := |b| - 1;
      calc {
        Bytes(a + b);
        Bytes((a + b)[..|a + b| - 1]) + SampleBytes((a + b)[|a + b| - 1]);
        { assert (a + b)[..|a + b| - 1] == a + b[..n]; }
        Bytes(a + b[..n]) + SampleBytes(b[n]);
        { BytesAppend(a, b[..n]); }
        Bytes(a) + Bytes(b[..n]) + SampleBytes(b[n]);
        Bytes(a) + Bytes(b);
      }
    } else {
      assert a + b == a;
    }
  }

  /** The samples at indices 0, 2, 4, ... in order. */
  function EveryOther(s: seq<Int16>): (r: seq<Int16>)
    ensures |r| == (|s| + 1) / 2
    ensures forall k :: 0 <= k < |r| ==> r[k] == s[2 * k]
  {
    seq((|s| + 1) / 2, k requires 0 <= k < (|s| + 1) / 2 => s[2 * k])
  }

  /** Every sample twice in a row, in order. */
  function Doubled(s: seq<Int16>): (r: seq<Int16>)
    ensures |r| == 2 * |s|
    ensures forall k :: 0 <= k < |s| ==> r[2 * k] == s[k] && r[2 * k + 1] == s[k]
  {
    if s == [] then [] else Doubled(s[..|s| - 1]) + [s[|s| - 1], s[|s| - 1]]
  }

  // ---------------------------------------------------------------------
  // Encoder
  // ---------------------------------------------------------------------

  const SampleRate: nat := 16000
  const FrameDurationMs: nat := 60

  /** Samples per 60 ms frame at 16 kHz; encoder and decoder compute it alike. */
  function FrameSize(): (n: nat)
    ensures n == 960 && n * 1000 == SampleRate * FrameDurationMs
  {
    (SampleRate * FrameDurationMs) / 1000
  }

  /**
   * Reads the buffer as samples and writes every other one, starting with
   * the first, low byte first.
   */
  method CompressDataSafely(pcmData: seq<byte>) returns (compressedData: seq<byte>)
    ensures compressedData == Bytes(EveryOther(Samples(pcmData)))
  {
    var samples := Samples(pcmData);
    ghost var kept := EveryOther(samples);
    var sampleCount := |samples|;
    compressedData := [];
    var i := 0;
    while i < sampleCount
      invariant 0 <= i && i % 2 == 0 && i / 2 <= |kept|
      invariant i < sampleCount + 2
      invariant compressedData == Bytes(kept[..i / 2])
    {
      if i < sampleCount {
        var sample := samples[i];
        assert sample == kept[i / 2];
        BytesSnoc(kept, i / 2);
        compressedData := compressedData + SampleBytes(sample);
      }
      i := i + 2;
    }
    assert kept[..i / 2] == kept;
  }

  /**
   * Encodes a PCM buffer: nothing for an empty or odd-length buffer,
   * otherwise every other sample.
   */
  method Encode(pcmData: seq<byte>) returns (r: Option<seq<byte>>)
    ensures r.None? <==> |pcmData| == 0 || |pcmData| % 2 == 1
    ensures r.Some? ==> r.value == Bytes(EveryOther(Samples(pcmData)))
    ensures r.Some? ==> |r.value| == 2 * ((|pcmData| / 2 + 1) / 2)
  {
    var originalSize := |pcmData|;
    if originalSize <= 0 {
      return None;
    }
    if !(originalSize >= 2 && originalSize % 2 == 0) {
      return None;
    }
    var compressedData := CompressDataSafely(pcmData);
    return Some(compressedData);
  }

  // ---------------------------------------------------------------------
  // Decoder
  // ---------------------------------------------------------------------

  /** Decodes a buffer: always succeeds, writing each of its samples twice. */
  method Decode(opusData: seq<byte>) returns (r: Option<seq<byte>>)
    ensures r.Some? && r.value == Bytes(Doubled(Samples(opusData)))
    ensures r.Some? && |r.value| == 4 * (|opusData| / 2)
  {
    var samples := Samples(opusData);
    var decompressedData: seq<byte> := [];
    for i := 0 to |samples|
      invariant decompressedData == Bytes(Doubled(samples[..i]))
    {
      var sample := samples[i];
      assert samples[..i + 1][..i] == samples[..i];
      BytesAppend(Doubled(samples[..i]), [sample, sample]);
      assert Bytes([sample, sample]) == SampleBytes(sample) + SampleBytes(sample) by {
        assert [sample, sample][..1] == [sample];
      }
      decompressedData := decompressedData + SampleBytes(sample);
      decompressedData := decompressedData + SampleBytes(sample);
    }
    assert samples[..|samples|] == samples;
    return Some(decompressedData);
  }

  /** The quotient of a division is the number of whole divisors in the dividend. */
  lemma DivisionBounds(a: nat, d: nat)
    requires d >= 1
    ensures (a / d) * d <= a < (a / d + 1) * d
    ensures a / d == 0 <==> a < d
  {
    var q, r := a / d, a % d;
    assert a == q * d + r;
    assert (q + 1) * d == q * d + d;
  }

  /**
   * The frames a decoded PCM buffer fills for `channelCount` channels of
   * 16-bit samples; none when not even one whole frame is present.
   */
  function FrameCount(byteCount: nat, channelCount: nat): (r: Option<nat>)
    requires channelCount >= 1
    ensures r.None? <==> byteCount < 2 * channelCount
    ensures r.Some? ==> r.value >= 1 && r.value * (2 * channelCount) <= byteCount < (r.value + 1) * (2 * channelCount)
  {
    var frameCount := byteCount / (channelCount * 2);
    DivisionBounds(byteCount, channelCount * 2);
    if frameCount > 0 then Some(frameCount) else None
  }

  // ---------------------------------------------------------------------
  // Round trip
  // ---------------------------------------------------------------------

  /**
   * Keeping every other sample and then doubling each puts every
   * even-indexed sample back in place, followed by a copy of itself.
   */
  lemma DoubledEveryOther(s: seq<Int16>)
    ensures var d := Doubled(EveryOther(s));
            |d| == |s| + |s| % 2 &&
            (forall k :: 0 <= k < |s| && k % 2 == 0 ==> k + 1 < |d| && d[k] == s[k] && d[k + 1] == s[k])
  {
    var e := EveryOther(s);
    var d := Doubled(e);
    forall k | 0 <= k < |s| && k % 2 == 0 ensures k + 1 < |d| && d[k] == s[k] && d[k + 1] == s[k] {
      var h := k / 2;
      assert k == 2 * h;
      assert d[2 * h] == e[h] && d[2 * h + 1] == e[h];
    }
  }

  /**
   * Encoding then decoding keeps every even-indexed sample and puts a copy
   * of it where the next odd-indexed sample was. An even sample count comes
   * back at the same length; an odd one comes back one sample longer.
   */
  lemma DecodeAfterEncode(pcmData: seq<byte>)
    ensures var s := Samples(pcmData);
            var t := Samples(Bytes(Doubled(Samples(Bytes(EveryOther(s))))));
            |t| == |s| + |s| % 2 &&
            (forall k :: 0 <= k < |s| && k % 2 == 0 ==> k + 1 < |t| && t[k] == s[k] && t[k + 1] == s[k])
  {
    var s := Samples(pcmData);
    SamplesOfBytes(EveryOther(s));
    SamplesOfBytes(Doubled(EveryOther(s)));
    DoubledEveryOther(s);
  }
}
