/** Switching with two marks: on above the pause mark, and off again only at or below the lower resume mark. */
module Hysteresis {
  import opened Expansion

  /** A measurement together with the marks in force at the time. */
  datatype Sample = Sample(value: nat, resume: nat, pause: nat)

  predicate Next(paused: bool, sample: Sample) {
    if paused then sample.value > sample.resume else sample.value > sample.pause
  }

  /** The switch after some measurements. */
  function Paused(samples: seq<Sample>): bool {
    samples != [] && Next(Paused(samples[..|samples| - 1]), samples[|samples| - 1])
  }

  /** Measurement `i` was above its pause mark, and every later one above its resume mark. */
  ghost predicate HighSince(samples: seq<Sample>, i: nat) {
    && i < |samples| && samples[i].value > samples[i].pause
    && (forall j :: i < j < |samples| ==> samples[j].value > samples[j].resume)
  }

  /** The switch is on exactly when some measurement passed the pause mark and none since fell to the resume mark. */
  lemma {:induction false} PausedExactly(samples: seq<Sample>)
    requires Ordered(samples)
    ensures Paused(samples) <==> exists i :: HighSince(samples, i)
  {
    if samples != [] {
      var n := |samples| - 1;
      var before := samples[..n];
      PausedExactly(before);
      if Paused(samples) {
        if samples[n].value > samples[n].pause {
          assert HighSince(samples, n);
        } else {
          var i: nat :| HighSince(before, i);
          assert forall j :: i < j < n ==> before[j] == samples[j];
          assert HighSince(samples, i);
        }
      }
      if i: nat :| HighSince(samples, i) {
        assert i < n ==> HighSince(before, i);
      }
    }
  }

  /** The switch `on` has followed the measurements (guarded, see module Expansion). */
  ghost predicate Follows(on: bool, samples: seq<Sample>) {
    forall k :: Expanded(k) ==> on == Paused(samples) && Ordered(samples)
  }

  ghost predicate Ordered(samples: seq<Sample>) {
    forall i :: 0 <= i < |samples| ==> samples[i].resume <= samples[i].pause
  }

  lemma FollowsNext(on: bool, samples: seq<Sample>, sample: Sample)
    requires Follows(on, samples) && sample.resume <= sample.pause
    ensures Follows(Next(on, sample), samples + [sample])
  {
    assert Expanded(0) && (samples + [sample])[..|samples|] == samples;
  }
}
