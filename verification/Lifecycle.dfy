/** When a shadow rule may be promoted and an active one must be demoted: the policies as written,
    with Wilson bounds, and the whole-number tests they amount to. */
module Lifecycle {
  import opened Wilson

  datatype PromotionPolicy = PromotionPolicy(
    minSupport: int, minAgreement: real, minAgreementLb: real, minRecoveryLb: real, z: real)

  datatype DemotionPolicy = DemotionPolicy(minRecent: int, recoveryUbFloor: real, z: real)

  const PROMOTION := PromotionPolicy(30, 0.90, 0.80, 0.50, Z95)
  const DEMOTION := DemotionPolicy(30, 0.50, Z95)

  datatype Stats = Stats(matched: nat, agreed: nat, recovered: nat)

  predicate Consistent(s: Stats) { s.agreed <= s.matched && s.recovered <= s.matched }

  function Recorded(s: Stats, agreed: bool, recovered: bool): Stats {
    Stats(s.matched + 1, s.agreed + (if agreed then 1 else 0), s.recovered + (if recovered then 1 else 0))
  }

  /** Cumulative shadow observations for one candidate rule. */
  class ShadowStats {
    var matched: nat
    var agreed: nat
    var recovered: nat

    ghost function Model(): Stats
      reads this
    {
      Stats(matched, agreed, recovered)
    }

    constructor ()
      ensures Model() == Stats(0, 0, 0)
    {
      matched, agreed, recovered := 0, 0, 0;
    }

    method Record(agreed: bool, recovered: bool)
      modifies this
      ensures Model() == Recorded(old(Model()), agreed, recovered)
      ensures old(Consistent(Model())) ==> Consistent(Model())
    {
      matched := matched + 1;
      if agreed { this.agreed := this.agreed + 1; }
      if recovered { this.recovered := this.recovered + 1; }
    }
  }

  function Rate(part: nat, whole: nat): real {
    if whole == 0 then 0.0 else part as real / whole as real
  }

  /** The promotion criteria as the policy states them; `sa` and `sr` are the two square roots taken. */
  predicate QualifiesForPromotion(s: Stats, p: PromotionPolicy, sa: real, sr: real) {
    && s.matched >= p.minSupport
    && Rate(s.agreed, s.matched) >= p.minAgreement
    && Interval(s.agreed, s.matched, p.z, sa).0 >= p.minAgreementLb
    && Interval(s.recovered, s.matched, p.z, sr).0 >= p.minRecoveryLb
  }

  predicate ShouldDemote(recovered: nat, total: nat, p: DemotionPolicy, s: real) {
    total >= p.minRecent && Interval(recovered, total, p.z, s).1 < p.recoveryUbFloor
  }

  // ---------------------------------------------------------------- in whole numbers

  predicate Promotable(s: Stats) {
    && s.matched >= 30
    && 10 * s.agreed >= 9 * s.matched
    && 5 * s.agreed >= 4 * s.matched
    && 625 * (5 * s.agreed - 4 * s.matched) * (5 * s.agreed - 4 * s.matched) >= 9604 * s.matched
    && 2 * s.recovered >= s.matched
    && 625 * (2 * s.recovered - s.matched) * (2 * s.recovered - s.matched) >= 2401 * s.matched
  }

  predicate Demotable(recovered: nat, total: nat) {
    && total >= 30
    && 2 * recovered <= total
    && 625 * (total - 2 * recovered) * (total - 2 * recovered) > 2401 * total
  }

  lemma WholeSquares(x: int, y: real)
    requires y == x as real
    ensures y * y == (x * x) as real
  {
  }

  /** (k - 4n/5)^2 >= z^2 (4/25) n, cleared of fractions. */
  lemma ClearsFourFifths(k: nat, n: nat)
    ensures Clears(k, n, Z95, 0.80) <==> 5 * k >= 4 * n && 625 * (5 * k - 4 * n) * (5 * k - 4 * n) >= 9604 * n
  {
    var gap := k as real - 0.80 * n as real;
    var whole := 5 * k - 4 * n;
    assert whole as real == 5.0 * gap;
    WholeSquares(whole, 5.0 * gap);
    assert Square(Z95) == 3.8416;
    assert Square(Z95) * 0.80 * (1.0 - 0.80) == 0.614656;
    assert (625 * whole * whole) as real == 625.0 * ((whole * whole) as real);
    assert 625.0 * ((5.0 * gap) * (5.0 * gap)) == 15625.0 * (gap * gap);
    assert (9604 * n) as real == 15625.0 * (0.614656 * n as real);
  }

  lemma ClearsHalf(k: nat, n: nat)
    ensures Clears(k, n, Z95, 0.50) <==> 2 * k >= n && 625 * (2 * k - n) * (2 * k - n) >= 2401 * n
  {
    var gap := k as real - 0.50 * n as real;
    var whole := 2 * k - n;
    assert whole as real == 2.0 * gap;
    WholeSquares(whole, 2.0 * gap);
    assert Square(Z95) == 3.8416;
    assert Square(Z95) * 0.50 * (1.0 - 0.50) == 0.9604;
    assert (625 * whole * whole) as real == 625.0 * ((whole * whole) as real);
    assert 625.0 * ((2.0 * gap) * (2.0 * gap)) == 2500.0 * (gap * gap);
    assert (2401 * n) as real == 2500.0 * (0.9604 * n as real);
  }

  lemma BelowHalf(k: nat, n: nat)
    ensures (k as real <= 0.50 * n as real
             && (0.50 * n as real - k as real) * (0.50 * n as real - k as real)
                > Square(Z95) * 0.50 * (1.0 - 0.50) * n as real)
       <==> 2 * k <= n && 625 * (n - 2 * k) * (n - 2 * k) > 2401 * n
  {
    var gap := 0.50 * n as real - k as real;
    var whole := n - 2 * k;
    assert whole as real == 2.0 * gap;
    WholeSquares(whole, 2.0 * gap);
    assert Square(Z95) == 3.8416;
    assert Square(Z95) * 0.50 * (1.0 - 0.50) == 0.9604;
    assert (625 * whole * whole) as real == 625.0 * ((whole * whole) as real);
    assert 625.0 * ((2.0 * gap) * (2.0 * gap)) == 2500.0 * (gap * gap);
    assert (2401 * n) as real == 2500.0 * (0.9604 * n as real);
  }

  /** The promotion policy decides exactly the whole-number test, whichever roots were computed. */
  lemma PromotionIsExact(s: Stats, sa: real, sr: real)
    requires Consistent(s) && IsRoot(sa, s.agreed, s.matched, Z95) && IsRoot(sr, s.recovered, s.matched, Z95)
    ensures QualifiesForPromotion(s, PROMOTION, sa, sr) <==> Promotable(s)
  {
    if s.matched >= 30 {
      LowerInverts(s.agreed, s.matched, Z95, sa, 0.80);
      LowerInverts(s.recovered, s.matched, Z95, sr, 0.50);
      ClearsFourFifths(s.agreed, s.matched);
      ClearsHalf(s.recovered, s.matched);
      DivideBy(s.agreed as real, s.matched as real, 0.90);
      assert s.agreed as real >= 0.90 * s.matched as real <==> 10 * s.agreed >= 9 * s.matched;
    }
  }

  lemma DemotionIsExact(recovered: nat, total: nat, s: real)
    requires recovered <= total && IsRoot(s, recovered, total, Z95)
    ensures ShouldDemote(recovered, total, DEMOTION, s) <==> Demotable(recovered, total)
  {
    if total >= 30 {
      UpperInverts(recovered, total, Z95, s, 0.50);
      BelowHalf(recovered, total);
    }
  }

  // ---------------------------------------------------------------- hysteresis

  /** For any policies whose floors agree and any sample size, no sample clears the recovery bound for
      promotion and fails the demotion test. */
  lemma NoFlapping(k: nat, n: nat, z: real, c: real, s: real)
    requires k <= n && z > 0.0 && 0.0 < c < 1.0 && IsRoot(s, k, n, z) && n > 0
    ensures !(Interval(k, n, z, s).0 >= c && Interval(k, n, z, s).1 < c)
  {
    ContainsPoint(k, n, z, s);
  }

  lemma SquareGrows(x: int, y: int)
    requires 0 <= x <= y
    ensures x * x <= y * y
  {
    assert x * x <= x * y;
    assert x * y <= y * y;
  }

  /** A full window of 30 is demoted exactly at 9 recoveries or fewer. */
  lemma FullWindow(recovered: nat)
    requires recovered <= 30
    ensures Demotable(recovered, 30) <==> recovered <= 9
  {
    var gap := 30 - 2 * recovered;
    assert 625 * gap * gap == 625 * (gap * gap);
    if recovered <= 9 {
      SquareGrows(12, gap);
    } else if recovered <= 15 {
      SquareGrows(gap, 10);
    }
  }

  /** At 30 observations promotion takes at least 29 agreements and at least 21 recoveries, and no more. */
  lemma FirstPromotion(s: Stats)
    requires Consistent(s) && s.matched == 30
    ensures Promotable(s) <==> s.agreed >= 29 && s.recovered >= 21
  {
    var ga, gr := 5 * s.agreed - 120, 2 * s.recovered - 30;
    assert 625 * ga * ga == 625 * (ga * ga) && 625 * gr * gr == 625 * (gr * gr);
    if s.agreed >= 29 { SquareGrows(25, ga); } else if ga >= 0 { SquareGrows(ga, 20); }
    if s.recovered >= 21 { SquareGrows(12, gr); } else if gr >= 0 { SquareGrows(gr, 10); }
  }

  /** A rule that has just qualified is not one a demotion test on the same record would remove. */
  lemma PromotableIsNotDemotable(s: Stats)
    requires Promotable(s)
    ensures !Demotable(s.recovered, s.matched)
  {
  }
}
