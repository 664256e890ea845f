/**
 * The dashboard's outreach estimator: the cost of a door-knocking and of a
 * direct-mail campaign for a number of selected properties, the homeowners'
 * direct tax savings, and the derived indirect and total benefit. Money is
 * exact (`real`); the two-decimal display rounding is not part of the model.
 */
module Outreach {

  const DoorKnockingFixedCost: real := 32000.0
  const DoorKnockingPerProperty: real := 3.5
  const DirectMailFixedCost: real := 3500.0
  const DirectMailPerProperty: real := 0.38
  /** Both campaign totals are multiplied by 1.1, a 10% overhead. */
  const OverheadFactor: real := 1.1
  /** The assumed post-outreach uptake (10%) and the maximum annual exemption saving. */
  const UptakeRate: real := 0.10
  const MaxAnnualSavings: real := 1399.0
  /** The broader indirect benefit is twice the direct benefit. */
  const IndirectBenefitFactor: real := 2.0

  /** `calculateCostForDoorKnocking`: never below the fixed part, 35200. */
  function DoorKnockingCost(count: nat): (cost: real)
    ensures cost >= 35200.0
  {
    (DoorKnockingFixedCost + DoorKnockingPerProperty * count as real) * OverheadFactor
  }

  /** `calculateCostForDirectMailing`: never below the fixed part, 3850. */
  function DirectMailCost(count: nat): (cost: real)
    ensures cost >= 3850.0
  {
    (DirectMailFixedCost + DirectMailPerProperty * count as real) * OverheadFactor
  }

  /** `calculateHomeownerTaxSavings`: never negative. */
  function TaxSavings(count: nat): (savings: real)
    ensures savings >= 0.0
  {
    count as real * UptakeRate * MaxAnnualSavings
  }

  /** Everything the cost and benefit tables show for one count. */
  datatype OutreachEstimate = OutreachEstimate(
    doorKnocking: real, directMailing: real,
    directBenefit: real, indirectBenefit: real, totalBenefit: real)

  /**
   * The values `updateTractCharacteristics` passes to the cost and benefit
   * tables: the direct benefit is the tax saving, the indirect benefit twice
   * that, and the total three times that.
   */
  function Estimate(count: nat): (e: OutreachEstimate)
    ensures e.doorKnocking == DoorKnockingCost(count) && e.directMailing == DirectMailCost(count)
    ensures e.directBenefit == TaxSavings(count)
    ensures e.indirectBenefit == 2.0 * e.directBenefit
    ensures e.totalBenefit == 3.0 * e.directBenefit
    ensures e.totalBenefit >= 0.0
  {
    var direct := TaxSavings(count);
    var indirect := direct * IndirectBenefitFactor;
    OutreachEstimate(DoorKnockingCost(count), DirectMailCost(count), direct, indirect, direct + indirect)
  }

  /** With nothing selected only the fixed costs remain and there is no benefit. */
  lemma EstimateAtZero()
    ensures Estimate(0) == OutreachEstimate(35200.0, 3850.0, 0.0, 0.0, 0.0)
  {
  }

  /** Each additional property adds 3.85 to door knocking, 0.418 to direct mail and 139.9 to the direct benefit. */
  lemma MarginalEffect(count: nat)
    ensures DoorKnockingCost(count + 1) == DoorKnockingCost(count) + 3.85
    ensures DirectMailCost(count + 1) == DirectMailCost(count) + 0.418
    ensures TaxSavings(count + 1) == TaxSavings(count) + 139.9
  {
  }

  /** Both costs, the tax saving and the total benefit strictly increase as the count grows. */
  lemma EstimateMonotone(smaller: nat, larger: nat)
    requires smaller < larger
    ensures DoorKnockingCost(smaller) < DoorKnockingCost(larger)
    ensures DirectMailCost(smaller) < DirectMailCost(larger)
    ensures TaxSavings(smaller) < TaxSavings(larger)
    ensures Estimate(smaller).totalBenefit < Estimate(larger).totalBenefit
  {
  }
}
