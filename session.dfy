/**
 * The calculator's session state and the handlers that change it: the two radio groups, the
 * service checkboxes and the "calculate" button.
 */
module Session {
  import opened Wrappers
  import opened Catalog
  import opened Pricing
  import opened ServiceSelection

  class Calculator {
    var selectedGarment: string
    var selectedFabric: string
    var additionalServices: seq<string>
    var estimatedPrice: nat

    /** The selected services never hold an id twice. */
    ghost predicate Valid()
      reads this
    {
      NoDuplicates(additionalServices)
    }

    /** The calculate button is enabled only when both radio groups have a value. */
    predicate CanCalculate()
      reads this
    {
      selectedGarment != "" && selectedFabric != ""
    }

    /** The result panel shows the estimate only when it is positive. */
    predicate ShowsEstimate()
      reads this
    {
      estimatedPrice > 0
    }

    /** A fresh session: nothing selected, no services, estimate 0 (so neither the button nor
        the result panel is active). */
    constructor ()
      ensures Valid()
      ensures selectedGarment == "" && selectedFabric == ""
      ensures additionalServices == [] && estimatedPrice == 0
      ensures !CanCalculate() && !ShowsEstimate()
    {
      selectedGarment := "";
      selectedFabric := "";
      additionalServices := [];
      estimatedPrice := 0;
    }

    /** The garment radio group's change handler. */
    method SelectGarment(id: string)
      requires Valid()
      modifies this`selectedGarment
      ensures Valid()
      ensures selectedGarment == id
    {
      selectedGarment := id;
    }

    /** The fabric radio group's change handler. */
    method SelectFabric(id: string)
      requires Valid()
      modifies this`selectedFabric
      ensures Valid()
      ensures selectedFabric == id
    {
      selectedFabric := id;
    }

    /** A service checkbox's change handler: flips the membership of `id`, nothing else. */
    method ToggleService(id: string)
      requires Valid()
      modifies this`additionalServices
      ensures Valid()
      ensures additionalServices == Toggled(old(additionalServices), id)
      ensures id in additionalServices <==> id !in old(additionalServices)
    {
      ToggleKeepsNoDuplicates(additionalServices, id);
      additionalServices := Toggled(additionalServices, id);
    }

    /** The calculate button's handler: stores the estimate of the current selection, or leaves
        the stored estimate alone when the garment or the fabric is not in its table. */
    method CalculatePrice()
      requires Valid()
      modifies this`estimatedPrice
      ensures Valid()
      ensures Estimate(selectedGarment, selectedFabric, additionalServices).None? ==>
        estimatedPrice == old(estimatedPrice)
      ensures Estimate(selectedGarment, selectedFabric, additionalServices).Some? ==>
        estimatedPrice == Estimate(selectedGarment, selectedFabric, additionalServices).value &&
        estimatedPrice >= MinEstimate && ShowsEstimate()
      ensures !CanCalculate() ==> estimatedPrice == old(estimatedPrice)
    {
      var garment := LookupGarment(selectedGarment);
      var fabric := LookupFabric(selectedFabric);
      if garment.None? || fabric.None? {
        return;
      }
      var total := BasePrice(garment.value, fabric.value);
      var i := 0;
      while i < |additionalServices|
        invariant 0 <= i <= |additionalServices|
        invariant total == BasePrice(garment.value, fabric.value) + AddOnTotal(additionalServices[..i])
      {
        var serviceId := additionalServices[i];
        var service := LookupService(serviceId);
        if service.Some? {
          total := total + service.value.price;
        }
        AddOnTotalStep(additionalServices, i);
        i := i + 1;
      }
      assert additionalServices[..i] == additionalServices;
      ghost var estimate := Estimate(selectedGarment, selectedFabric, additionalServices);
      assert estimate.Some? && estimate.value == total;
      estimatedPrice := total;
      EstimateLowerBound(selectedGarment, selectedFabric, additionalServices);
      if !CanCalculate() {
        UnsetSelectionHasNoEstimate(selectedGarment, selectedFabric, additionalServices);
      }
    }
  }

  /** Ticking a service and unticking it again never changes the estimate of a session whose
      service list has no duplicates. */
  lemma DoubleToggleKeepsEstimate(garmentId: string, fabricId: string, s: seq<string>, id: string)
    requires NoDuplicates(s)
    ensures Estimate(garmentId, fabricId, Toggled(Toggled(s, id), id)) == Estimate(garmentId, fabricId, s)
  {
    ToggleTwicePermutes(s, id);
    EstimateOrderIndependent(garmentId, fabricId, Toggled(Toggled(s, id), id), s);
  }
}
