/** The weekly volatility/volume condition: the last two weekly bars are
    compared and at most one label is attached, tests taken in priority
    order. */
module Conditions {

  import opened Wrappers
  import opened Ratios

  datatype Condition = Compression | QuietBreakout | Exhaustion

  /** Volume rose while the average true range fell. */
  predicate Compressing(volPrev: real, atrPrev: real, volNow: real, atrNow: real)
  {
    volNow > volPrev && atrNow < atrPrev
  }

  /** The label for the current week against the previous one, or `None`.
      The percentage changes are the unguarded float expressions, so a zero
      previous volume or ATR gives an infinity or NaN, not an error. */
  function Classify(volPrev: real, atrPrev: real, volNow: real, atrNow: real): (c: Option<Condition>)
    ensures c == Some(Compression) <==> Compressing(volPrev, atrPrev, volNow, atrNow)
    ensures c == Some(QuietBreakout) <==>
              && !Compressing(volPrev, atrPrev, volNow, atrNow)
              && Above(PctChange(volNow, volPrev), 20.0)
              && Below(PctChange(atrNow, atrPrev), 5.0)
    ensures c == Some(Exhaustion) <==>
              && !Compressing(volPrev, atrPrev, volNow, atrNow)
              && !(Above(PctChange(volNow, volPrev), 20.0) && Below(PctChange(atrNow, atrPrev), 5.0))
              && Above(PctChange(volNow, volPrev), -5.0)
              && Below(PctChange(atrNow, atrPrev), -20.0)
  {
    var volPct := PctChange(volNow, volPrev);
    var atrPct := PctChange(atrNow, atrPrev);
    if Compressing(volPrev, atrPrev, volNow, atrNow) then Some(Compression)
    else if Above(volPct, 20.0) && Below(atrPct, 5.0) then Some(QuietBreakout)
    else if Above(volPct, -5.0) && Below(atrPct, -20.0) then Some(Exhaustion)
    else None
  }

  /** With positive previous volume and ATR the classification needs no
      division: quiet breakout is volume up more than 20% with ATR up less
      than 5%, exhaustion is volume down less than 5% with ATR down more
      than 20%, each only when the earlier labels did not apply. */
  lemma ClassifyByRatios(volPrev: real, atrPrev: real, volNow: real, atrNow: real)
    requires volPrev > 0.0 && atrPrev > 0.0
    ensures var c := Classify(volPrev, atrPrev, volNow, atrNow);
            && (c == Some(Compression) <==> volNow > volPrev && atrNow < atrPrev)
            && (c == Some(QuietBreakout) <==>
                  !(volNow > volPrev && atrNow < atrPrev)
                  && 10.0 * volNow > 12.0 * volPrev && 100.0 * atrNow < 105.0 * atrPrev)
            && (c == Some(Exhaustion) <==>
                  !(volNow > volPrev && atrNow < atrPrev)
                  && !(10.0 * volNow > 12.0 * volPrev && 100.0 * atrNow < 105.0 * atrPrev)
                  && 100.0 * volNow > 95.0 * volPrev && 10.0 * atrNow < 8.0 * atrPrev)
  {
    PctVersusScaled(volNow, volPrev, 20.0);
    PctVersusScaled(volNow, volPrev, -5.0);
    PctVersusScaled(atrNow, atrPrev, 5.0);
    PctVersusScaled(atrNow, atrPrev, -20.0);
  }

  /** A quiet breakout never has a falling ATR: volume jumped, so the only
      way compression failed is that the ATR held or rose, by under 5%. */
  lemma QuietBreakoutHoldsAtr(volPrev: real, atrPrev: real, volNow: real, atrNow: real)
    requires volPrev > 0.0 && atrPrev > 0.0
    requires Classify(volPrev, atrPrev, volNow, atrNow) == Some(QuietBreakout)
    ensures volNow > volPrev
    ensures atrPrev <= atrNow && 100.0 * atrNow < 105.0 * atrPrev
  {
    ClassifyByRatios(volPrev, atrPrev, volNow, atrNow);
  }

  /** Exhaustion never has rising volume: the ATR fell, so the only way
      compression failed is that volume fell or held, by under 5%. */
  lemma ExhaustionHoldsVolume(volPrev: real, atrPrev: real, volNow: real, atrNow: real)
    requires volPrev > 0.0 && atrPrev > 0.0
    requires Classify(volPrev, atrPrev, volNow, atrNow) == Some(Exhaustion)
    ensures 100.0 * volNow > 95.0 * volPrev && volNow <= volPrev
    ensures 10.0 * atrNow < 8.0 * atrPrev
  {
    ClassifyByRatios(volPrev, atrPrev, volNow, atrNow);
  }

  /** A zero previous ATR with a non-negative current ATR yields no label:
      the ATR cannot have fallen, and its percentage change is +inf or NaN,
      which fails every "below" test. */
  lemma ZeroPreviousAtr(volPrev: real, volNow: real, atrNow: real)
    requires atrNow >= 0.0
    ensures Classify(volPrev, 0.0, volNow, atrNow) == None
  {
  }

  /** A zero previous volume with volume now traded makes the volume change
      +inf, so a label is given exactly when the ATR rose less than 5%. */
  lemma ZeroPreviousVolume(atrPrev: real, volNow: real, atrNow: real)
    requires atrPrev > 0.0 && volNow > 0.0
    ensures Classify(0.0, atrPrev, volNow, atrNow).Some? <==> 100.0 * atrNow < 105.0 * atrPrev
  {
    PctVersusScaled(atrNow, atrPrev, 5.0);
    PctVersusScaled(atrNow, atrPrev, -20.0);
  }

  /** The four outcomes on sample weeks: volume 100 to 120 with ATR 10 to 8;
      volume +30% with ATR +3%; volume -2% with ATR -25%; volume halved with
      ATR up half. */
  lemma ClassifyExamples()
    ensures Classify(100.0, 10.0, 120.0, 8.0) == Some(Compression)
    ensures Classify(100.0, 100.0, 130.0, 103.0) == Some(QuietBreakout)
    ensures Classify(100.0, 100.0, 98.0, 75.0) == Some(Exhaustion)
    ensures Classify(100.0, 100.0, 50.0, 150.0) == None
  {
  }

}
