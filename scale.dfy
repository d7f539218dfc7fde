/** The machine-count scale factor of the report: the peak spare quantity per machine
    is multiplied by a factor that grows with the number of machines using the part.
    The factors 1.0, 1.25, 1.5, 1.75 and 2.0 are kept exactly as quarters. */
module Scale {

  /** The factor for `machineCount` machines, in quarters: the `if`/`elif` chain. */
  function ScaleQuarters(machineCount: nat): nat {
    if machineCount < 5 then 4
    else if machineCount < 10 then 5
    else if machineCount < 15 then 6
    else if machineCount < 20 then 7
    else if machineCount < 25 then 8
    else 8
  }

  /** `scale_factor`. */
  function Factor(machineCount: nat): real {
    ScaleQuarters(machineCount) as real / 4.0
  }

  /** `final_spare_qty`: the peak times the factor, not rounded. */
  function FinalSpare(maxSpare: int, machineCount: nat): real {
    maxSpare as real * Factor(machineCount)
  }

  /** The chain in closed form: a quarter more for every full 5 machines, capped at 2.0
      from 20 machines on. */
  lemma {:induction false} ScaleClosedForm(machineCount: nat)
    ensures ScaleQuarters(machineCount) == 4 + (if machineCount / 5 < 4 then machineCount / 5 else 4)
  {
    var band := machineCount / 5;
    assert 5 * band <= machineCount < 5 * band + 5;
    if band < 4 {
      assert band == 0 || band == 1 || band == 2 || band == 3;
    }
  }

  /** The recommended quantity in closed form: the peak times a quarter more for every
      full 5 machines, capped at twice the peak. */
  lemma FinalSpareClosedForm(maxSpare: int, machineCount: nat)
    ensures FinalSpare(maxSpare, machineCount)
            == maxSpare as real * (4 + (if machineCount / 5 < 4 then machineCount / 5 else 4)) as real / 4.0
  {
    ScaleClosedForm(machineCount);
    var q := ScaleQuarters(machineCount) as real;
    assert maxSpare as real * (q / 4.0) == maxSpare as real * q / 4.0;
  }

  /** What the report promises of one part's recommended quantity, for any peak. */
  lemma FinalSpareFacts(maxSpare: int, machineCount: nat)
    ensures maxSpare >= 0 ==> maxSpare as real <= FinalSpare(maxSpare, machineCount) <= 2.0 * maxSpare as real
    ensures machineCount < 5 ==> FinalSpare(maxSpare, machineCount) == maxSpare as real
    ensures FinalSpare(maxSpare, machineCount)
            == maxSpare as real * (4 + (if machineCount / 5 < 4 then machineCount / 5 else 4)) as real / 4.0
  {
    FinalSpareClosedForm(maxSpare, machineCount);
    if maxSpare >= 0 {
      FinalSpareBounds(maxSpare, machineCount, machineCount);
    }
  }

  /** More machines never lower the factor, which stays between 1.0 and 2.0. */
  lemma ScaleMonotone(fewer: nat, more: nat)
    requires fewer <= more
    ensures ScaleQuarters(fewer) <= ScaleQuarters(more)
    ensures 4 <= ScaleQuarters(fewer) <= 8
  {
    ScaleClosedForm(fewer);
    ScaleClosedForm(more);
    assert fewer / 5 <= more / 5;
  }

  /** The recommended quantity lies between the peak and twice the peak, equals the
      peak below 5 machines, and does not decrease as machines are added. */
  lemma FinalSpareBounds(maxSpare: nat, fewer: nat, more: nat)
    requires fewer <= more
    ensures maxSpare as real <= FinalSpare(maxSpare, fewer) <= 2.0 * maxSpare as real
    ensures fewer < 5 ==> FinalSpare(maxSpare, fewer) == maxSpare as real
    ensures FinalSpare(maxSpare, fewer) <= FinalSpare(maxSpare, more)
  {
    ScaleMonotone(fewer, more);
    ScaleMonotone(more, more);
    var q, q' := ScaleQuarters(fewer) as real, ScaleQuarters(more) as real;
    assert maxSpare as real * q <= maxSpare as real * q';
    assert maxSpare as real * 4.0 <= maxSpare as real * q <= maxSpare as real * 8.0;
  }

  /** The quantity is not rounded up to whole units: a peak of 1 on 5 machines gives
      1.25. */
  lemma NotRounded()
    ensures FinalSpare(1, 5) == 1.25
    ensures FinalSpare(3, 12) == 4.5
  {
  }
}
