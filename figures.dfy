/** The figures a past-position card derives from its record: the redeemed
    amount and the realised APY. Amounts are exact reals here. */
module Figures {
  import opened Wrappers
  import opened Redeems

  /** The card annualises over a fixed 365-day year ... */
  const DaysPerYear: real := 365.0
  /** ... and shows the yield as a percentage. */
  const Percent: real := 100.0

  /** The "Redeemed" amount: what comes back over the deposit is the gain
      net of the fee. */
  function Redeemed(r: Redeem): (amount: real)
    ensures amount - r.underlyingIn == r.gain - r.fee
  {
    r.underlyingIn + r.gain - r.fee
  }

  /** The "APY" figure: gain / underlyingIn / forDays * 365 * 100, which has a
      value only when neither divisor is zero. */
  function Apy(r: Redeem): (apy: Option<real>)
    ensures apy.Some? <==> r.underlyingIn != 0.0 && r.forDays != 0
    ensures apy.Some? ==> apy.value * r.underlyingIn * (r.forDays as real) == r.gain * DaysPerYear * Percent
  {
    if r.underlyingIn == 0.0 || r.forDays == 0 then None
    else
      var days := r.forDays as real;
      var perDeposit := r.gain / r.underlyingIn;
      var perDay := perDeposit / days;
      assert perDay * days == perDeposit;
      assert perDeposit * r.underlyingIn == r.gain;
      Some(perDay * DaysPerYear * Percent)
  }

  /** The gain a deposit of `underlyingIn` held `forDays` days earns at
      annual rate `apy` percent, the inverse of `Apy`. */
  function GainAt(apy: real, underlyingIn: real, forDays: int): real {
    apy * underlyingIn * (forDays as real) / (DaysPerYear * Percent)
  }

  /** The gain can be recovered from the APY shown on the card. */
  lemma GainFromApy(r: Redeem)
    requires Apy(r).Some?
    ensures GainAt(Apy(r).value, r.underlyingIn, r.forDays) == r.gain
  {
  }

  /** A record whose gain is the one earned at rate `apy` shows exactly `apy`. */
  lemma ApyOfGainAt(r: Redeem, apy: real)
    requires r.underlyingIn != 0.0 && r.forDays != 0
    ensures Apy(r.(gain := GainAt(apy, r.underlyingIn, r.forDays))) == Some(apy)
  {
    var u, d := r.underlyingIn, r.forDays as real;
    var g := GainAt(apy, u, r.forDays);
    var s := r.(gain := g);
    var a := Apy(s).value;
    assert a * u * d == g * (DaysPerYear * Percent);
    assert g * (DaysPerYear * Percent) == apy * u * d;
    var k := u * d;
    assert k != 0.0;
    assert (a - apy) * k == 0.0;
    assert a - apy == (a - apy) * k / k;
  }

  /** Over exactly one year the APY is the plain return on the deposit in percent. */
  lemma ApyOverOneYear(r: Redeem)
    requires r.underlyingIn != 0.0 && r.forDays == 365
    ensures Apy(r) == Some(r.gain / r.underlyingIn * Percent)
  {
    var perDeposit := r.gain / r.underlyingIn;
    assert perDeposit / DaysPerYear * DaysPerYear == perDeposit;
  }

  /** The redeemed amount is at least the deposit exactly when the gain covers the fee. */
  lemma RedeemedCoversDeposit(r: Redeem)
    ensures Redeemed(r) >= r.underlyingIn <==> r.gain >= r.fee
    ensures Redeemed(r) == r.underlyingIn <==> r.gain == r.fee
  {
  }

  /** The redeemed amount in terms of the APY shown beside it. */
  lemma RedeemedFromApy(r: Redeem)
    requires Apy(r).Some?
    ensures Redeemed(r) == r.underlyingIn + GainAt(Apy(r).value, r.underlyingIn, r.forDays) - r.fee
  {
  }

  /** The figures of a joined entry are those of the record it was built from. */
  lemma FiguresSurviveJoin(records: seq<Redeem>, pools: seq<Pool>, catalog: Catalog, i: int)
    requires 0 <= i < |records|
    ensures Redeemed(Join(records, pools, catalog)[i].redeem) == Redeemed(records[i])
    ensures Apy(Join(records, pools, catalog)[i].redeem) == Apy(records[i])
  {
  }

  /** A deposit of 1000 with gain 50 and fee 5 held 365 days: 1045 redeemed at 5 %. */
  lemma OneYearExample(r: Redeem)
    requires r.underlyingIn == 1000.0 && r.gain == 50.0 && r.fee == 5.0 && r.forDays == 365
    ensures Redeemed(r) == 1045.0
    ensures Apy(r) == Some(5.0)
  {
  }
}
