/** What an application captures of a steady signal. */
module SteadyCapture {
  import opened FixedPoint
  import opened Cascade
  import opened Capture
  import opened CaptureSessions
  import opened FilterLaws

  /** All left samples are the same, and all right ones. */
  predicate Steady(stereo: seq<int16>, left: int16, right: int16) {
    |stereo| % 2 == 0 && forall j :: 0 <= j < |stereo| ==> stereo[j] == if j % 2 == 0 then left else right
  }

  lemma SteadyOn(front: seq<int16>, more: seq<int16>, left: int16, right: int16)
    requires Steady(front, left, right) && Steady(more, left, right)
    ensures Steady(front + more, left, right)
  {
    var all, n := front + more, |front|;
    forall j | 0 <= j < |all| ensures all[j] == if j % 2 == 0 then left else right {
      if j < n {
        assert all[j] == front[j];
      } else {
        assert all[j] == more[j - n] && (j - n) % 2 == j % 2;
      }
    }
  }

  lemma {:induction false} HeardIsSteady(driver: nat -> ReadResult, from: nat, to: nat, left: int16, right: int16)
    requires from <= to
    requires forall k :: from <= k < to && driver(k).Read? ==> Steady(driver(k).samples, left, right)
    ensures Steady(Heard(driver, from, to), left, right)
  {
    if from < to {
      HeardIsSteady(driver, from, to - 1, left, right);
      SteadyOn(Heard(driver, from, to - 1), if driver(to - 1).Read? then driver(to - 1).samples else [], left, right);
    }
  }

  lemma MonoIsConstant(stereo: seq<int16>, n: nat, left: int16, right: int16)
    requires Steady(stereo, left, right) && 2 * n <= |stereo|
    ensures Constant(Mono(stereo[..2 * n]), Average(left, right))
  {
    forall i | 0 <= i < n ensures Mono(stereo[..2 * n])[i] == Average(left, right) {
      assert stereo[..2 * n][2 * i] == left && stereo[..2 * n][2 * i + 1] == right;
    }
  }

  /**
   * From the driver to the application: of a stream in which each channel is constant the application gets one
   * constant, halfway between the two channels or, beyond 1365, a little further from zero.
   */
  lemma SteadyStream(driver: nat -> ReadResult, hz: int, s: Segment, left: int16, right: int16)
    returns (v: int16, y: int16)
    requires Supported(hz) && Follows(driver, hz, FILTERS, s)
    requires forall k :: s.from <= k < s.to && driver(k).Read? ==> Steady(driver(k).samples, left, right)
    ensures Halfway(v, left, right) && Constant(s.got, y)
    ensures v >= 0 ==> v <= y <= v + Drift(hz)
    ensures v <= 0 ==> v - Drift(hz) <= y <= v
    ensures y == v <==> Abs(v) <= 1365 || v == 0x7FFF || v == -0x8000
  {
    var heard := Heard(driver, s.from, s.to);
    HeardIsSteady(driver, s.from, s.to, left, right);
    MonoIsConstant(heard, s.taken, left, right);
    v := Average(left, right);
    var mono := Mono(heard[..2 * s.taken]);
    y := ConstantComesThrough(hz, mono, v);
    assert forall k :: 0 <= k < |s.got| ==> s.got[k] == Output(hz, FILTERS, mono)[k];
  }
}
