// The first channel of interleaved little-endian samples of two or three bytes.
module Samples {
  import opened Text

  type Byte = x: int | 0 <= x < 256

  predicate Width(w: nat) {
    w == 2 || w == 3
  }

  function Modulus(w: nat): nat
    requires Width(w)
  {
    if w == 2 then 0x1_0000 else 0x100_0000
  }

  predicate InRange(w: nat, v: int)
    requires Width(w)
  {
    -(Modulus(w) / 2) <= v < Modulus(w) / 2
  }

  // int.from_bytes(..., byteorder='little', signed=True) at position k
  function SampleAt(w: nat, bytes: seq<Byte>, k: nat): (v: int)
    requires Width(w) && k + w <= |bytes|
    ensures InRange(w, v)
  {
    var u: int := bytes[k] as int + 256 * bytes[k + 1] as int + (if w == 3 then 0x1_0000 * bytes[k + 2] as int else 0);
    if u >= Modulus(w) / 2 then u - Modulus(w) else u
  }

  // ---------- how a recorder lays out its frames ----------

  function SampleBytes(w: nat, v: int): (bytes: seq<Byte>)
    requires Width(w) && InRange(w, v)
    ensures |bytes| == w
  {
    var u := if v < 0 then v + Modulus(w) else v;
    [u % 256, (u / 256) % 256] + (if w == 3 then [u / 0x1_0000] else [])
  }

  function FrameBytes(w: nat, frame: seq<int>): (bytes: seq<Byte>)
    requires Width(w) && forall v | v in frame :: InRange(w, v)
    ensures |bytes| == w * |frame|
  {
    if frame == [] then [] else SampleBytes(w, frame[0]) + FrameBytes(w, frame[1..])
  }

  // Frames of ch samples each, one sample per channel.
  predicate Frames(w: nat, ch: nat, frames: seq<seq<int>>)
    requires Width(w)
  {
    forall f | f in frames :: |f| == ch && forall v | v in f :: InRange(w, v)
  }

  function Interleaved(w: nat, ch: nat, frames: seq<seq<int>>): seq<Byte>
    requires Width(w) && Frames(w, ch, frames)
  {
    if frames == [] then [] else FrameBytes(w, frames[0]) + Interleaved(w, ch, frames[1..])
  }

  lemma SampleRoundTrip(w: nat, v: int, tail: seq<Byte>)
    requires Width(w) && InRange(w, v)
    ensures SampleAt(w, SampleBytes(w, v) + tail, 0) == v
  {
    var u := if v < 0 then v + Modulus(w) else v;
    var b := SampleBytes(w, v) + tail;
    assert b[0] == u % 256 && b[1] == (u / 256) % 256;
    if w == 3 {
      assert b[2] == u / 0x1_0000;
      ThreeDigits(u);
    } else {
      TwoDigits(u);
    }
  }

  lemma TwoDigits(u: nat)
    requires u < 0x1_0000
    ensures u == u % 256 + 256 * ((u / 256) % 256)
  {}

  lemma ThreeDigits(u: nat)
    requires u < 0x100_0000
    ensures u == u % 256 + 256 * ((u / 256) % 256) + 0x1_0000 * (u / 0x1_0000)
  {
    var m := u / 256;
    assert u == 256 * m + u % 256;
    assert m == 256 * (m / 256) + m % 256;
    assert m / 256 == u / 0x1_0000;
  }

  // ---------- decoding ----------

  function FrameSize(w: nat, ch: nat): nat {
    w * ch
  }

  lemma MulMono(a: nat, x: nat, y: nat)
    requires x <= y
    ensures a * x <= a * y
  {}

  lemma MulNext(a: nat, n: nat)
    ensures a * (n + 1) == a * n + a
  {}

  lemma MulAssoc(a: nat, b: nat, c: nat)
    ensures a * (b * c) == (a * b) * c
  {}

  lemma DivMul(n: nat, d: nat)
    requires d > 0
    ensures d * (n / d) <= n
  {}

  // The whole frames lie inside the data.
  lemma FrameFits(n: nat, w: nat, ch: nat, i: nat)
    requires w > 0 && ch > 0 && i < n / w / ch
    ensures FrameSize(w, ch) * i + w <= n
  {
    var m := n / w;
    DivMul(n, w);
    DivMul(m, ch);
    MulMono(ch, i + 1, m / ch);
    MulMono(w, ch * (i + 1), m);
    MulAssoc(w, ch, i + 1);
    MulNext(FrameSize(w, ch), i);
    MulMono(w, 1, ch);
  }

  // What the decoder computes: the first sample of each whole frame.
  function FirstChannel(w: nat, ch: nat, bytes: seq<Byte>): (signal: seq<int>)
    requires Width(w) && ch > 0
  {
    seq(|bytes| / w / ch, i requires 0 <= i < |bytes| / w / ch =>
      FrameFits(|bytes|, w, ch, i); SampleAt(w, bytes, FrameSize(w, ch) * i))
  }

  // The three-byte branch of verify_recorded_file.
  method DecodeThreeBytes(tmp: seq<Byte>, ch: nat) returns (signal: array<int>)
    requires ch > 0
    ensures signal[..] == FirstChannel(3, ch, tmp)
    ensures forall i | 0 <= i < signal.Length :: -0x80_0000 <= signal[i] <= 0x7F_FFFF
  {
    signal := new int[|tmp| / 3 / ch];
    for i := 0 to signal.Length
      invariant forall k | 0 <= k < i :: signal[k] == FirstChannel(3, ch, tmp)[k] && InRange(3, signal[k])
    {
      FrameFits(|tmp|, 3, ch, i);
      signal[i] := SampleAt(3, tmp, 3 * ch * i);
    }
  }

  // The two-byte branch: frombuffer and reshape raise unless the data are whole frames.
  function DecodeTwoBytes(bytes: seq<Byte>, ch: nat): Option<seq<int>>
    requires ch > 0
  {
    if |bytes| % 2 != 0 || (|bytes| / 2) % ch != 0 then Nothing else Just(FirstChannel(2, ch, bytes))
  }

  // ---------- decoding inverts interleaving ----------

  lemma {:induction false} InterleavedLength(w: nat, ch: nat, frames: seq<seq<int>>)
    requires Width(w) && Frames(w, ch, frames)
    ensures |Interleaved(w, ch, frames)| == FrameSize(w, ch) * |frames|
  {
    if frames != [] {
      assert frames[0] in frames;
      assert |FrameBytes(w, frames[0])| == FrameSize(w, ch);
      hide FrameSize;
      InterleavedLength(w, ch, frames[1..]);
      MulNext(FrameSize(w, ch), |frames[1..]|);
    }
  }

  // A frame starts with the bytes of its first sample.
  lemma FrameStartsWithFirst(w: nat, frame: seq<int>, tail: seq<Byte>)
    requires Width(w) && frame != [] && forall v | v in frame :: InRange(w, v)
    ensures |FrameBytes(w, frame) + tail| >= w
    ensures SampleAt(w, FrameBytes(w, frame) + tail, 0) == frame[0]
  {
    hide SampleAt, SampleBytes;
    var more := FrameBytes(w, frame[1..]) + tail;
    assert FrameBytes(w, frame) + tail == SampleBytes(w, frame[0]) + more;
    SampleRoundTrip(w, frame[0], more);
  }

  lemma FrameLength(w: nat, ch: nat, frames: seq<seq<int>>, i: nat)
    requires Width(w) && Frames(w, ch, frames) && i < |frames|
    ensures |frames[i]| == ch && (forall v | v in frames[i] :: InRange(w, v))
    ensures |FrameBytes(w, frames[i])| == FrameSize(w, ch)
  {
    assert frames[i] in frames;
  }

  lemma {:induction false} FirstSampleOfFrame(w: nat, ch: nat, frames: seq<seq<int>>, tail: seq<Byte>, i: nat)
    requires Width(w) && ch > 0 && Frames(w, ch, frames) && i < |frames|
    ensures |frames[i]| == ch
    ensures FrameSize(w, ch) * i + w <= |Interleaved(w, ch, frames) + tail|
    ensures SampleAt(w, Interleaved(w, ch, frames) + tail, FrameSize(w, ch) * i) == frames[i][0]
  {
    hide FrameSize, SampleAt, FrameBytes, InRange, Interleaved, Frames;
    FrameLength(w, ch, frames, i);
    FrameLength(w, ch, frames, 0);
    FirstFrameApart(w, ch, frames, tail);
    var f := FrameBytes(w, frames[0]);
    var more := Interleaved(w, ch, frames[1..]) + tail;
    if i == 0 {
      FrameStartsWithFirst(w, frames[0], more);
    } else {
      FirstSampleOfFrame(w, ch, frames[1..], tail, i - 1);
      var k := FrameSize(w, ch) * (i - 1);
      assert FrameSize(w, ch) * i == |f| + k by { MulNext(FrameSize(w, ch), i - 1); }
      Shifted(w, f, more, k);
    }
  }

  lemma FirstFrameApart(w: nat, ch: nat, frames: seq<seq<int>>, tail: seq<Byte>)
    requires Width(w) && Frames(w, ch, frames) && frames != []
    ensures Frames(w, ch, frames[1..]) && frames[0] in frames
    ensures Interleaved(w, ch, frames) + tail == FrameBytes(w, frames[0]) + (Interleaved(w, ch, frames[1..]) + tail)
  {
    hide FrameBytes, InRange;
  }

  lemma Shifted(w: nat, f: seq<Byte>, more: seq<Byte>, k: nat)
    requires Width(w) && k + w <= |more|
    ensures SampleAt(w, f + more, |f| + k) == SampleAt(w, more, k)
  {}

  lemma QuotientIs(n: nat, d: nat, q: nat, r: nat)
    requires d > 0 && n == d * q + r && r < d
    ensures n / d == q
  {
    var p := n / d;
    assert n == d * p + n % d;
    if p > q {
      MulMono(d, q + 1, p);
      MulNext(d, q);
    } else if p < q {
      MulMono(d, p + 1, q);
      MulNext(d, p);
    }
  }

  lemma DivNext(x: nat, d: nat)
    requires d > 0
    ensures (x + d) / d == x / d + 1
  {
    MulNext(d, x / d);
    QuotientIs(x + d, d, x / d + 1, x % d);
  }

  lemma {:induction false} DivAdd(x: nat, d: nat, q: nat)
    requires d > 0
    ensures (d * q + x) / d == q + x / d
  {
    if q == 0 {
      assert d * q == 0;
    } else {
      DivAdd(x, d, q - 1);
      MulNext(d, q - 1);
      DivNext(d * (q - 1) + x, d);
    }
  }

  lemma FrameCount(w: nat, ch: nat, n: nat, extra: nat)
    requires w > 0 && ch > 0 && extra < FrameSize(w, ch)
    ensures (FrameSize(w, ch) * n + extra) / w / ch == n
  {
    MulAssoc(w, ch, n);
    DivAdd(extra, w, ch * n);
    DivAdd(extra / w, ch, n);
    SmallQuotient(extra, w, ch);
  }

  lemma SmallQuotient(x: nat, w: nat, ch: nat)
    requires w > 0 && ch > 0 && x < FrameSize(w, ch)
    ensures x / w / ch == 0
  {
    var q := x / w;
    DivMul(x, w);
    if q >= ch {
      MulMono(w, ch, q);
      assert false;
    } else {
      Within(q, ch);
    }
  }

  lemma Within(q: nat, d: nat)
    requires q < d
    ensures q / d == 0
  {}

  // Decoding the interleaving of any frames gives back channel 0; an incomplete frame at the end
  // is ignored.
  lemma DecodingInvertsInterleaving(w: nat, ch: nat, frames: seq<seq<int>>, extra: seq<Byte>)
    requires Width(w) && ch > 0 && Frames(w, ch, frames) && |extra| < w * ch
    ensures var signal := FirstChannel(w, ch, Interleaved(w, ch, frames) + extra);
            |signal| == |frames| && forall i | 0 <= i < |frames| :: |frames[i]| == ch && signal[i] == frames[i][0]
  {
    InterleavedLength(w, ch, frames);
    FrameCount(w, ch, |frames|, |extra|);
    hide FrameSize, SampleAt;
    forall i | 0 <= i < |frames|
      ensures |frames[i]| == ch
      ensures FirstChannel(w, ch, Interleaved(w, ch, frames) + extra)[i] == frames[i][0]
    {
      FirstSampleOfFrame(w, ch, frames, extra, i);
    }
  }

  // The two-byte branch accepts every whole interleaving.
  lemma TwoBytesInvert(ch: nat, frames: seq<seq<int>>)
    requires ch > 0 && Frames(2, ch, frames)
    ensures var r := DecodeTwoBytes(Interleaved(2, ch, frames), ch);
            && r.Just? && |r.value| == |frames|
            && forall i | 0 <= i < |frames| :: |frames[i]| == ch && r.value[i] == frames[i][0]
  {
    var bytes := Interleaved(2, ch, frames);
    DecodingInvertsInterleaving(2, ch, frames, []);
    assert bytes + [] == bytes;
    InterleavedLength(2, ch, frames);
    WholeFrames(ch, |frames|, |bytes|);
  }

  // It accepts exactly data of whole frames.
  lemma TwoBytesIff(bytes: seq<Byte>, ch: nat)
    requires ch > 0
    ensures DecodeTwoBytes(bytes, ch).Just? <==> exists n: nat :: |bytes| == 2 * (ch * n)
  {
    if DecodeTwoBytes(bytes, ch).Just? {
      var half := |bytes| / 2;
      assert half == ch * (half / ch);
      assert |bytes| == 2 * (ch * (half / ch));
    }
    forall n: nat | |bytes| == 2 * (ch * n)
      ensures DecodeTwoBytes(bytes, ch).Just?
    {
      MulAssoc(2, ch, n);
      WholeFrames(ch, n, |bytes|);
    }
  }

  lemma WholeFrames(ch: nat, n: nat, total: nat)
    requires ch > 0 && total == FrameSize(2, ch) * n
    ensures total % 2 == 0 && (total / 2) % ch == 0
  {
    MulAssoc(2, ch, n);
    var half := ch * n;
    assert total == 2 * half;
    DivAdd(0, ch, n);
    DivModZero(half, ch);
  }

  lemma DivModZero(x: nat, d: nat)
    requires d > 0 && x == d * (x / d)
    ensures x % d == 0
  {}
}
