/** The two-band thunder filter page (script.js): the slider's reduction percent,
    as its `value` string, mapped to the band's gain. */
module ThunderEq {
  import opened Wrappers
  import opened Strings
  import opened Helpers

  /** The reduction strings the table knows. */
  predicate Accepted(reduction: string)
  {
    reduction == "0" || reduction == "25" || reduction == "50" || reduction == "75"
  }

  /** `reductionToGain`: the four table entries; any other string falls through the
      `switch` and gives `undefined`, here `None`. */
  function ReductionToGain(reduction: string): (g: Option<real>)
    ensures g.Some? <==> Accepted(reduction)
    ensures g.Some? ==> 0.25 <= g.value <= 1.0
  {
    if reduction == "0" then Some(1.0)
    else if reduction == "25" then Some(0.75)
    else if reduction == "50" then Some(0.5)
    else if reduction == "75" then Some(0.25)
    else None
  }

  /** Each accepted string is the decimal text of a percent `p`, and its gain is
      `1 - p / 100`. */
  lemma GainIsComplement(reduction: string) returns (p: nat)
    requires Accepted(reduction)
    ensures reduction == Decimal(p) && p <= 75
    ensures ReductionToGain(reduction) == Some(1.0 - p as real / 100.0)
  {
    if reduction == "0" {
      p := 0;
    } else if reduction == "25" {
      p := 25;
      assert Decimal(25) == Decimal(2) + [DigitChar(5)];
    } else if reduction == "50" {
      p := 50;
      assert Decimal(50) == Decimal(5) + [DigitChar(0)];
    } else {
      p := 75;
      assert Decimal(75) == Decimal(7) + [DigitChar(5)];
    }
  }

  /** A larger reduction gives a strictly smaller gain. */
  lemma GainDecreasing(a: string, b: string)
    requires Accepted(a) && Accepted(b)
    requires ValueOf(a) < ValueOf(b)
    ensures ReductionToGain(b).value < ReductionToGain(a).value
  {
    var pa := GainIsComplement(a);
    var pb := GainIsComplement(b);
    DecimalValue(pa);
    DecimalValue(pb);
  }

  /** A remark across the two pages rather than a step either of them takes: the
      player (app.js) never calls this table, but every reduction its stepped sliders
      produce is one the table accepts, at the gain the table gives it. */
  lemma StepMapAccepted(i: nat)
    requires i < |StepMap|
    ensures Accepted(Decimal(StepMap[i]))
    ensures ReductionToGain(Decimal(StepMap[i])) == Some(1.0 - StepMap[i] as real / 100.0)
  {
    assert Decimal(25) == Decimal(2) + [DigitChar(5)];
    assert Decimal(50) == Decimal(5) + [DigitChar(0)];
    assert Decimal(75) == Decimal(7) + [DigitChar(5)];
  }
}
