/** The bounded sample rings between the audio callbacks and the rest of the
    program, the framer that drains them, and the playback source that fills gaps. */
module Rings {
  import opened Wrappers
  import opened SessionTypes
  import opened Sequences

  function Flatten(frames: seq<seq<real>>): seq<real> {
    if frames == [] then [] else Flatten(frames[..|frames| - 1]) + frames[|frames| - 1]
  }

  lemma FlattenSnoc(frames: seq<seq<real>>, last: seq<real>)
    ensures Flatten(frames + [last]) == Flatten(frames) + last
    ensures Flatten(frames) + last + [] == Flatten(frames) + last
  {
    assert (frames + [last])[..|frames|] == frames;
  }

  /** One ring: it drops what does not fit and counts the drops. */
  class Ring {
    const capacity: nat
    var buf: seq<real>
    var dropped: nat
    ghost var offered: seq<real>
    ghost var accepted: seq<real>
    ghost var popped: seq<real>

    /** Samples are conserved: accepted ones come out in order, and every offered
        one was accepted or counted. */
    ghost predicate Valid()
      reads this
    {
      && |buf| <= capacity
      && accepted == popped + buf
      && |offered| == |accepted| + dropped
      && (dropped == 0 ==> accepted == offered)
    }

    constructor (capacity: nat)
      ensures Valid() && this.capacity == capacity && buf == [] && dropped == 0
      ensures offered == [] && accepted == [] && popped == []
    {
      this.capacity := capacity;
      buf, dropped, offered, accepted, popped := [], 0, [], [], [];
    }

    method PushDropping(sample: real)
      requires Valid()
      modifies this
      ensures Valid() && offered == old(offered) + [sample] && popped == old(popped)
      ensures if |old(buf)| < capacity
              then buf == old(buf) + [sample] && dropped == old(dropped)
              else buf == old(buf) && dropped == old(dropped) + 1
    {
      offered := offered + [sample];
      if |buf| < capacity {
        buf := buf + [sample];
        accepted := accepted + [sample];
      } else {
        dropped := dropped + 1;
      }
    }

    /** Offers samples one by one, as a resampler completes them. */
    method PushEach(samples: seq<real>)
      requires Valid()
      modifies this
      ensures Valid() && offered == old(offered) + samples && popped == old(popped)
    {
      for k := 0 to |samples|
        invariant Valid() && offered == old(offered) + samples[..k] && popped == old(popped)
      {
        PushDropping(samples[k]);
        PrefixSnoc(samples, k);
        Associates(old(offered), samples[..k], [samples[k]]);
      }
      WholePrefix(samples);
    }

    /** Queues what fits and drops the tail; returns how many were dropped. */
    method PushSlice(samples: seq<real>) returns (lost: nat)
      requires Valid()
      modifies this
      ensures Valid() && offered == old(offered) + samples && popped == old(popped)
      ensures lost <= |samples| && dropped == old(dropped) + lost
      ensures buf == old(buf) + samples[..|samples| - lost]
      ensures lost > 0 ==> |buf| == capacity
    {
      var room := capacity - |buf|;
      var pushed := if |samples| < room then |samples| else room;
      lost := |samples| - pushed;
      buf := buf + samples[..pushed];
      dropped := dropped + lost;
      accepted := accepted + samples[..pushed];
      offered := offered + samples;
      assert lost == 0 ==> samples[..pushed] == samples;
    }

    method TryPop() returns (sample: Option<real>)
      requires Valid()
      modifies this
      ensures Valid() && offered == old(offered) && accepted == old(accepted) && dropped == old(dropped)
      ensures if old(buf) == [] then sample == None && buf == [] && popped == old(popped)
              else sample == Some(old(buf)[0]) && buf == old(buf)[1..] && popped == old(popped) + [old(buf)[0]]
    {
      if buf == [] {
        return None;
      }
      sample := Some(buf[0]);
      popped := popped + [buf[0]];
      buf := buf[1..];
    }
  }

  /** Cuts what a ring delivers into frames of exactly 480 samples. */
  class FrameReader {
    const consumer: Ring
    var partial: seq<real>
    ghost var frames: seq<seq<real>>

    ghost predicate Valid()
      reads this, consumer
    {
      consumer.Valid() && |partial| < FRAME_SAMPLES && consumer.popped == Flatten(frames) + partial &&
      forall k :: 0 <= k < |frames| ==> |frames[k]| == FRAME_SAMPLES
    }

    constructor (consumer: Ring)
      requires consumer.Valid() && consumer.popped == []
      ensures Valid() && this.consumer == consumer && frames == []
    {
      this.consumer := consumer;
      partial, frames := [], [];
    }

    /** Moves samples from the ring until a frame is full or the ring is empty. */
    method Fill() returns (full: bool)
      requires Valid()
      modifies this`partial, consumer
      ensures consumer.Valid() && consumer.accepted == old(consumer.accepted)
      ensures consumer.offered == old(consumer.offered) && consumer.dropped == old(consumer.dropped)
      ensures consumer.popped == Flatten(frames) + partial && partial + consumer.buf == old(partial) + old(consumer.buf)
      ensures if full then |partial| == FRAME_SAMPLES else |partial| < FRAME_SAMPLES && consumer.buf == []
    {
      while |partial| < FRAME_SAMPLES
        invariant consumer.Valid() && |partial| <= FRAME_SAMPLES
        invariant partial + consumer.buf == old(partial) + old(consumer.buf)
        invariant consumer.popped == Flatten(frames) + partial
        invariant consumer.accepted == old(consumer.accepted) && consumer.offered == old(consumer.offered)
        invariant consumer.dropped == old(consumer.dropped)
        decreases FRAME_SAMPLES - |partial|
      {
        ghost var head, queued := partial, consumer.buf;
        var sample := consumer.TryPop();
        if sample.None? {
          return false;
        }
        partial := partial + [sample.value];
        HeadTail(queued);
        Associates(head, [sample.value], consumer.buf);
        Associates(Flatten(frames), head, [sample.value]);
      }
      full := true;
    }

    /** A frame exactly when 480 samples are at hand; otherwise everything at hand
        is kept for later. Nothing is lost either way. */
    method TryRecv() returns (frame: Option<seq<real>>)
      requires Valid()
      modifies this, consumer
      ensures Valid() && consumer.accepted == old(consumer.accepted) && consumer.offered == old(consumer.offered)
      ensures consumer.dropped == old(consumer.dropped)
      ensures frame.Some? <==> |old(partial)| + |old(consumer.buf)| >= FRAME_SAMPLES
      ensures frame.Some? ==> frames == old(frames) + [frame.value] && partial == []
      ensures frame.None? ==> frames == old(frames) && consumer.buf == []
      ensures (if frame.Some? then frame.value else []) + partial + consumer.buf == old(partial) + old(consumer.buf)
    {
      var full := Fill();
      if !full {
        return None;
      }
      frame := Some(partial);
      FlattenSnoc(frames, partial);
      frames := frames + [partial];
      partial := [];
    }

    /** What was accepted is what was framed, what is partial and what is queued;
        with no drops it is exactly what was offered. */
    lemma Conserves()
      requires Valid()
      ensures consumer.accepted == Flatten(frames) + partial + consumer.buf
      ensures |consumer.offered| == FRAME_SAMPLES * |frames| + |partial| + |consumer.buf| + consumer.dropped
      ensures consumer.dropped == 0 ==> consumer.offered == Flatten(frames) + partial + consumer.buf
    {
      FlattenLength(frames);
    }
  }

  lemma {:induction false} FlattenLength(frames: seq<seq<real>>)
    requires forall k :: 0 <= k < |frames| ==> |frames[k]| == FRAME_SAMPLES
    ensures |Flatten(frames)| == FRAME_SAMPLES * |frames|
  {
    if frames != [] {
      FlattenLength(frames[..|frames| - 1]);
    }
  }

  /** What the output callback plays: queued samples, or comfort noise numbered by
      the underruns before it. */
  class PlaybackSource {
    const ring: Ring
    const noise: nat -> real
    var underruns: nat
    ghost var delivered: seq<real>

    ghost predicate Valid()
      reads this, ring
    {
      ring.Valid() && |delivered| == |ring.popped| + underruns
    }

    constructor (ring: Ring, noise: nat -> real)
      requires ring.Valid() && ring.popped == []
      ensures Valid() && this.ring == ring && delivered == [] && underruns == 0
    {
      this.ring, this.noise := ring, noise;
      underruns, delivered := 0, [];
    }

    method Next() returns (sample: real)
      requires Valid()
      modifies this, ring
      ensures Valid() && delivered == old(delivered) + [sample]
      ensures if old(ring.buf) == [] then sample == noise(old(underruns)) && underruns == old(underruns) + 1
              else sample == old(ring.buf)[0] && underruns == old(underruns)
      ensures ring.offered == old(ring.offered) && ring.dropped == old(ring.dropped)
    {
      var s := ring.TryPop();
      if s.None? {
        sample := noise(underruns);
        underruns := underruns + 1;
      } else {
        sample := s.value;
      }
      delivered := delivered + [sample];
    }
  }
}
