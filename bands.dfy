/**
  The integer arithmetic of the generation step: C++ division on int32, and
  the split of PopulationSize ranked networks into NumGroups contiguous bands
  whose sizes differ by at most one, the larger bands first.
 */
module Bands {

  function Min(a: int, b: int): int {
    if a <= b then a else b
  }

  /** C++ `/` on integers: the quotient truncated toward zero, so it has the
      sign of the dividend. */
  function CDiv(a: int, b: int): (q: int)
    requires b > 0
    ensures a >= 0 ==> q >= 0
    ensures a <= 0 ==> q <= 0
  {
    if a >= 0 then a / b else -((-a) / b)
  }

  /** C++ `%` on integers: the remainder takes the sign of the dividend. */
  function CMod(a: int, b: int): (r: int)
    requires b > 0
    ensures a >= 0 ==> 0 <= r < b
    ensures a < 0 ==> -b < r <= 0
  {
    if a >= 0 then a % b else -((-a) % b)
  }

  /** The rule C++ division keeps: quotient times divisor plus remainder
      gives back the dividend, with a remainder of the dividend's sign and
      smaller than the divisor. Together these fix both values, and the
      quotient is the one truncated toward zero. */
  lemma TruncatedDivision(a: int, b: int)
    requires b > 0
    ensures a == b * CDiv(a, b) + CMod(a, b)
    ensures a >= 0 ==> 0 <= a - b * CDiv(a, b) < b
    ensures a < 0 ==> -b < a - b * CDiv(a, b) <= 0
  {
  }

  /** The size of band g: PopulationSize / NumGroups, plus one for each of
      the first PopulationSize % NumGroups bands. */
  function BandSize(population: int, groups: int, g: int): (s: int)
    requires groups > 0
    ensures population >= 0 ==> s >= 0
    ensures population < 0 && g >= 0 ==> s <= 0
  {
    CDiv(population, groups) + (if g < CMod(population, groups) then 1 else 0)
  }

  /** Where band g starts: the sizes of the bands before it, added up as the
      loop advances startIndex. */
  function BandStart(population: int, groups: int, g: nat): (start: int)
    requires groups > 0
    ensures population >= 0 ==> start >= 0
    ensures population < 0 ==> start <= 0
  {
    if g == 0 then 0 else BandStart(population, groups, g - 1) + BandSize(population, groups, g - 1)
  }

  /** With a negative population every band is empty. */
  lemma NegativePopulationHasNoBands(population: int, groups: int, g: nat)
    requires groups > 0 && population < 0
    ensures BandSize(population, groups, g) <= 0
  {
  }

  /** Band sizes differ by at most one, and an earlier band is never smaller
      than a later one. */
  lemma BandSizesBalanced(population: int, groups: int, g1: int, g2: int)
    requires groups > 0 && population >= 0
    requires 0 <= g1 <= g2 < groups
    ensures 0 <= BandSize(population, groups, g2) <= BandSize(population, groups, g1)
    ensures BandSize(population, groups, g1) <= BandSize(population, groups, g2) + 1
  {
  }

  /** Band g starts after g full quotients and one extra slot for each
      earlier band that took part of the remainder. */
  lemma {:induction false} BandStartClosedForm(population: int, groups: int, g: nat)
    requires groups > 0 && population >= 0 && g <= groups
    ensures BandStart(population, groups, g) ==
      g * (population / groups) + Min(g, population % groups)
  {
    if g > 0 {
      BandStartClosedForm(population, groups, g - 1);
      ClosedFormStep(g, population / groups, population % groups,
        BandStart(population, groups, g - 1), BandSize(population, groups, g - 1));
    }
  }

  /** One step of the closed form: adding band g - 1's size to its start. */
  lemma ClosedFormStep(g: int, q: int, r: int, start: int, size: int)
    requires start == (g - 1) * q + Min(g - 1, r)
    requires size == q + (if g - 1 < r then 1 else 0)
    ensures start + size == g * q + Min(g, r)
  {
    assert (g - 1) * q + q == g * q;
  }

  /** The bands together hold exactly the whole population. */
  lemma BandsCoverPopulation(population: int, groups: int)
    requires groups > 0 && population >= 0
    ensures BandStart(population, groups, groups) == population
  {
    BandStartClosedForm(population, groups, groups);
    assert groups * (population / groups) + population % groups == population;
  }

  /** Bands never move backwards: a later band starts no earlier. */
  lemma {:induction false} BandStartMonotone(population: int, groups: int, g1: nat, g2: nat)
    requires groups > 0 && population >= 0 && g1 <= g2
    ensures BandStart(population, groups, g1) <= BandStart(population, groups, g2)
    decreases g2 - g1
  {
    if g1 < g2 {
      BandStartMonotone(population, groups, g1, g2 - 1);
      assert BandSize(population, groups, g2 - 1) >= 0;
    }
  }

  /** The band that index n falls in, searched from band g onwards. */
  function BandFrom(population: int, groups: int, n: int, g: nat): (b: nat)
    requires groups > 0 && population >= 0 && 0 <= n < population
    requires g < groups && BandStart(population, groups, g) <= n
    ensures g <= b < groups
    ensures BandStart(population, groups, b) <= n < BandStart(population, groups, b + 1)
    decreases groups - g
  {
    if n < BandStart(population, groups, g + 1) then g
    else
      BandsCoverPopulation(population, groups);
      BandFrom(population, groups, n, g + 1)
  }

  /** The band of rank n: every index of the population lies in a band. */
  function BandOf(population: int, groups: int, n: int): (b: nat)
    requires groups > 0 && 0 <= n < population
    ensures b < groups
    ensures BandStart(population, groups, b) <= n < BandStart(population, groups, b + 1)
  {
    BandFrom(population, groups, n, 0)
  }

  /** ... and in no other band: the bands are disjoint. */
  lemma BandOfUnique(population: int, groups: int, n: int, g: nat)
    requires groups > 0 && 0 <= n < population && g < groups
    requires BandStart(population, groups, g) <= n < BandStart(population, groups, g + 1)
    ensures BandOf(population, groups, n) == g
  {
    var b := BandOf(population, groups, n);
    if b < g {
      BandStartMonotone(population, groups, b + 1, g);
    } else if b > g {
      BandStartMonotone(population, groups, g + 1, b);
    }
  }
}
