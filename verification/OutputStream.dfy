/** The body of the output callback: every device frame is computed once, played
    on every channel and tapped for the echo-cancellation reference. */
module OutputStream {
  import opened SessionTypes
  import opened Rings
  import opened Resampler
  import opened Streams
  import opened Sequences

  /** Consumption and emission, in 48 kHz samples, after `frames` device frames at
      rate `device`. */
  function Consumed(frames: nat, device: nat): nat
    requires device > 0
  {
    if frames == 0 then 0 else ((frames - 1) * SAMPLE_RATE_HZ) / device + 1
  }

  function Tapped(frames: nat, device: nat): nat
    requires device > 0
  {
    if frames == 0 then 0 else CeilDiv((frames - 1) * SAMPLE_RATE_HZ, device)
  }

  /** The drift is 0 or 1 for ever, and 1 exactly when the last frame fell on a
      48 kHz sample. */
  lemma DriftIsBounded(frames: nat, device: nat)
    requires device > 0
    ensures Consumed(frames, device) - Tapped(frames, device) ==
      if frames > 0 && ((frames - 1) * SAMPLE_RATE_HZ) % device == 0 then 1 else 0
  {
  }

  class OutputStream {
    const deviceRate: nat
    const source: PlaybackSource
    const reference: Ring
    const playbackResampler: Resampler
    const referenceResampler: Resampler
    ghost var written: seq<real>

    ghost predicate Valid()
      reads this, source, source.ring, reference, playbackResampler, referenceResampler
    {
      && deviceRate > 0 && source.ring != reference && playbackResampler != referenceResampler
      && source.Valid() && reference.Valid()
      && (deviceRate == SAMPLE_RATE_HZ ==> written == source.delivered == reference.offered)
      && (deviceRate != SAMPLE_RATE_HZ ==>
            && playbackResampler.fromHz == SAMPLE_RATE_HZ && playbackResampler.toHz == deviceRate
            && referenceResampler.fromHz == deviceRate && referenceResampler.toHz == SAMPLE_RATE_HZ
            && playbackResampler.Pulling() && referenceResampler.Pushing()
            && playbackResampler.inputs == source.delivered && playbackResampler.outputs == written
            && referenceResampler.inputs == written && referenceResampler.outputs == reference.offered)
    }

    constructor (deviceRate: nat, source: PlaybackSource, reference: Ring)
      requires deviceRate > 0 && source.ring != reference && source.Valid() && reference.Valid()
      requires source.delivered == [] && reference.offered == []
      ensures Valid() && this.deviceRate == deviceRate && this.source == source && this.reference == reference
      ensures written == [] && fresh(playbackResampler) && fresh(referenceResampler)
    {
      this.deviceRate, this.source, this.reference := deviceRate, source, reference;
      playbackResampler := new Resampler(SAMPLE_RATE_HZ, deviceRate);
      referenceResampler := new Resampler(deviceRate, SAMPLE_RATE_HZ);
      written := [];
    }

    method RenderNative() returns (sample: real)
      requires Valid() && deviceRate == SAMPLE_RATE_HZ
      modifies this`written, source, source.ring, reference
      ensures Valid() && written == old(written) + [sample]
    {
      sample := source.Next();
      reference.PushDropping(sample);
      written := written + [sample];
    }

    method RenderResampled() returns (sample: real)
      requires Valid() && deviceRate != SAMPLE_RATE_HZ
      modifies this`written, source, source.ring, reference, playbackResampler, referenceResampler
      ensures Valid() && written == old(written) + [sample]
    {
      ghost var heard := source.delivered;
      sample := playbackResampler.Pull(source);
      Extends(heard, source.delivered);
      var tapped := referenceResampler.Push(sample);
      reference.PushEach(tapped);
      written := written + [sample];
    }

    /** One device frame: computed once, then tapped for the reference. */
    method RenderFrame() returns (sample: real)
      requires Valid()
      modifies this`written, source, source.ring, reference, playbackResampler, referenceResampler
      ensures Valid() && written == old(written) + [sample]
    {
      if deviceRate == SAMPLE_RATE_HZ {
        sample := RenderNative();
      } else {
        sample := RenderResampled();
      }
    }

    /** One device frame, on every channel. */
    method PlayFrame(data: array<real>, base: nat, channels: nat) returns (sample: real)
      requires Valid() && base + channels <= data.Length
      modifies this`written, source, source.ring, reference, playbackResampler, referenceResampler, data
      ensures Valid() && written == old(written) + [sample]
      ensures Filled(old(data[..]), data[..], base, channels, sample)
    {
      sample := RenderFrame();
      FillFrame(data, base, channels, sample);
    }

    /** A whole callback: every channel of every device frame carries the sample
        computed for that frame; a trailing partial frame is left alone. */
    method Callback(data: array<real>, channels: nat)
      requires Valid()
      modifies this`written, source, source.ring, reference, playbackResampler, referenceResampler, data
      ensures Valid() && old(written) <= written
      ensures channels == 0 ==> written == old(written) && data[..] == old(data[..])
      ensures channels > 0 ==>
        && |written| - |old(written)| == data.Length / channels
        && Interleaved(data[..], written[|old(written)|..], channels)
        && forall k :: 0 <= k < data.Length && k >= data.Length - data.Length % channels ==> data[k] == old(data[k])
    {
      if channels == 0 {
        return;
      }
      var base := 0;
      while base + channels <= data.Length
        invariant Valid() && old(written) <= written
        invariant Rows(old(data[..]), data[..], written[|old(written)|..], channels, base)
        decreases data.Length - base
      {
        ghost var shown, was := data[..], written;
        var sample := PlayFrame(data, base, channels);
        DropSnoc(was, sample, |old(written)|);
        RowsMore(old(data[..]), shown, data[..], was[|old(written)|..], channels, base, sample);
        base := base + channels;
      }
      QuotientIs(data.Length, channels, |written| - |old(written)|, data.Length - base);
    }

    /** However long the stream runs, the 48 kHz samples consumed exceed the 48 kHz
        reference samples emitted by 0 or 1. */
    lemma NeverDrifts()
      requires Valid()
      ensures 0 <= |source.delivered| - |reference.offered| <= 1
      ensures deviceRate == SAMPLE_RATE_HZ ==> |source.delivered| == |reference.offered|
      ensures deviceRate != SAMPLE_RATE_HZ ==>
        |source.delivered| == Consumed(|written|, deviceRate) && |reference.offered| == Tapped(|written|, deviceRate)
    {
      if deviceRate != SAMPLE_RATE_HZ {
        referenceResampler.PushedAll();
        DriftIsBounded(|written|, deviceRate);
      }
    }
  }

  /** Each sample of `samples` fills one row of `channels` consecutive slots. */
  ghost predicate Interleaved(data: seq<real>, samples: seq<real>, channels: nat) {
    |samples| * channels <= |data| &&
    forall f, c :: 0 <= f < |samples| && 0 <= c < channels ==> At(data, Slot(f, c, channels)) == samples[f]
  }

  /** The frame at `base` was filled with `sample` and nothing else touched. */
  ghost predicate Filled(before: seq<real>, after: seq<real>, base: nat, channels: nat, sample: real) {
    && base + channels <= |before| == |after|
    && (forall k :: 0 <= k < base ==> after[k] == before[k])
    && (forall k :: base <= k < base + channels ==> after[k] == sample)
    && (forall k :: base + channels <= k < |after| ==> after[k] == before[k])
  }

  /** The frames before `base` are done, and the rest is as it was. */
  ghost predicate Rows(first: seq<real>, data: seq<real>, samples: seq<real>, channels: nat, base: nat) {
    && base == |samples| * channels && base <= |data| == |first|
    && Interleaved(data, samples, channels)
    && forall k :: base <= k < |data| ==> data[k] == first[k]
  }

  lemma RowsMore(
    first: seq<real>, data: seq<real>, after: seq<real>, samples: seq<real>, channels: nat, base: nat, sample: real)
    requires Rows(first, data, samples, channels, base) && Filled(data, after, base, channels, sample)
    ensures Rows(first, after, samples + [sample], channels, base + channels)
  {
    NextRow(|samples|, channels, base);
    InterleavedMore(data, samples, channels, after, base, sample);
  }

  /** Where channel `c` of device frame `f` lies in the callback's buffer. */
  function Slot(f: nat, c: nat, channels: nat): nat {
    f * channels + c
  }

  method FillFrame(data: array<real>, base: nat, channels: nat, sample: real)
    requires base + channels <= data.Length
    modifies data
    ensures Filled(old(data[..]), data[..], base, channels, sample)
  {
    for k := base to base + channels
      invariant forall j :: base <= j < k ==> data[j] == sample
      invariant forall j :: 0 <= j < base ==> data[j] == old(data[j])
      invariant forall j :: base + channels <= j < data.Length ==> data[j] == old(data[j])
    {
      data[k] := sample;
    }
  }

  lemma NextRow(f: nat, channels: nat, base: nat)
    requires base == f * channels
    ensures (f + 1) * channels == base + channels
  {
  }

  lemma SlotInRow(f: nat, c: nat, channels: nat, rows: nat)
    requires c < channels && f < rows
    ensures Slot(f, c, channels) < rows * channels
  {
    MulMono(f + 1, rows, channels);
  }

  lemma InterleavedMore(
    data: seq<real>, samples: seq<real>, channels: nat, after: seq<real>, base: nat, sample: real)
    requires Interleaved(data, samples, channels)
    requires base == |samples| * channels && base + channels <= |after| == |data|
    requires forall k :: 0 <= k < base ==> after[k] == data[k]
    requires forall k :: base <= k < base + channels ==> after[k] == sample
    ensures Interleaved(after, samples + [sample], channels)
  {
    forall f, c | 0 <= f < |samples| + 1 && 0 <= c < channels
      ensures At(after, Slot(f, c, channels)) == (samples + [sample])[f]
    {
      if f < |samples| {
        SlotInRow(f, c, channels, |samples|);
        assert At(data, Slot(f, c, channels)) == samples[f];
      }
    }
  }

  lemma Extends<T>(a: seq<T>, b: seq<T>)
    requires a <= b
    ensures a + b[|a|..] == b
  {
  }

  /** At the native rate, while the reference ring has dropped nothing, the frames
      read from it are exactly the samples written to the device, in order. */
  lemma ReferenceIsWhatWasPlayed(stream: OutputStream, reader: FrameReader)
    requires stream.Valid() && reader.Valid() && reader.consumer == stream.reference
    requires stream.deviceRate == SAMPLE_RATE_HZ && stream.reference.dropped == 0
    ensures stream.written == Flatten(reader.frames) + reader.partial + stream.reference.buf
  {
    reader.Conserves();
  }
}
