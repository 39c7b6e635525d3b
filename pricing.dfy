/**
 * The price estimate: garment base price times fabric multiplier, plus the flat price of
 * every selected add-on service the services table knows.
 */
module Pricing {
  import opened Wrappers
  import opened Catalog

  /** The smallest estimate any garment and fabric can produce (a shirt in cotton). */
  const MinEstimate: nat := 4000

  /** What one selected service id adds to the total: its price, or nothing when unknown. */
  function ServicePrice(id: string): (p: nat)
    ensures p > 0 <==> LookupService(id).Some?
  {
    match LookupService(id)
    case None => 0
    case Some(s) => s.price
  }

  /** A selected id costs the price of the table entry carrying it, and nothing when no entry does. */
  lemma ServicePriceCharacterization(id: string)
    ensures forall i :: 0 <= i < |Services| && Services[i].id == id ==> ServicePrice(id) == Services[i].price
    ensures (forall i :: 0 <= i < |Services| ==> Services[i].id != id) ==> ServicePrice(id) == 0
  {
    CatalogIdsUnique();
    var s := LookupService(id);
    if s.Some? {
      var k :| 0 <= k < |Services| && Services[k] == s.value;
    }
  }

  /** The add-on total accumulated left to right over the selected ids. */
  function AddOnTotal(ids: seq<string>): nat
  {
    if ids == [] then 0 else AddOnTotal(ids[..|ids| - 1]) + ServicePrice(ids[|ids| - 1])
  }

  /** Extending the list by its next id adds exactly that id's price. */
  lemma {:induction false} AddOnTotalStep(ids: seq<string>, i: nat)
    requires i < |ids|
    ensures AddOnTotal(ids[..i + 1]) == AddOnTotal(ids[..i]) + ServicePrice(ids[i])
  {
    assert ids[..i + 1][..i] == ids[..i];
  }

  /** `basePrice * multiplier`, with the multiplier in tenths. */
  function BasePrice(g: Garment, f: Fabric): nat
  {
    g.basePrice * f.multiplierTenths / 10
  }

  /** The price of the chosen garment in the chosen fabric, or None when either id is not in
      its table. */
  function BaseEstimate(garmentId: string, fabricId: string): Option<nat>
  {
    var garment, fabric := LookupGarment(garmentId), LookupFabric(fabricId);
    if garment.Some? && fabric.Some? then Some(BasePrice(garment.value, fabric.value)) else None
  }

  /** The estimate for a selection: the base estimate plus the add-on total, or None. */
  function Estimate(garmentId: string, fabricId: string, ids: seq<string>): Option<nat>
  {
    match BaseEstimate(garmentId, fabricId)
    case None => None
    case Some(base) => Some(base + AddOnTotal(ids))
  }

  /** For every catalog pair the division by ten is exact: the tenths product equals the
      source's product of the base price and the decimal multiplier. */
  lemma BasePriceExact(g: Garment, f: Fabric)
    requires g in Garments && f in Fabrics
    ensures BasePrice(g, f) * 10 == g.basePrice * f.multiplierTenths
  {
    GarmentFigures(g);
    var k, t := g.basePrice / 1000, f.multiplierTenths;
    var m := 100 * k * t;
    assert g.basePrice * t == 10 * m by {
      assert (1000 * k) * t == 10 * (100 * k * t);
    }
    assert BasePrice(g, f) == m;
  }

  /** Every catalog pair costs at least MinEstimate before add-ons. */
  lemma BasePriceAtLeastMin(g: Garment, f: Fabric)
    requires g in Garments && f in Fabrics
    ensures BasePrice(g, f) >= MinEstimate
  {
    GarmentFigures(g);
    FabricFigures(f);
    BasePriceExact(g, f);
    assert g.basePrice * f.multiplierTenths >= 4000 * f.multiplierTenths by {
      assert g.basePrice >= 4000;
    }
  }

  /** The add-on total of a concatenation is the sum of the two totals. */
  lemma {:induction false} AddOnTotalAppend(a: seq<string>, b: seq<string>)
    ensures AddOnTotal(a + b) == AddOnTotal(a) + AddOnTotal(b)
    decreases |b|
  {
    if b == [] {
      assert a + b == a;
    } else {
      var b' := b[..|b| - 1];
      assert (a + b)[..|a + b| - 1] == a + b';
      assert (a + b)[|a + b| - 1] == b[|b| - 1];
      AddOnTotalAppend(a, b');
    }
  }

  /** Taking the id at position k out of the list takes exactly its price off the total. */
  lemma {:induction false} AddOnTotalWithout(b: seq<string>, k: nat)
    requires k < |b|
    ensures AddOnTotal(b) == AddOnTotal(b[..k] + b[k + 1..]) + ServicePrice(b[k])
  {
    assert b == b[..k] + [b[k]] + b[k + 1..];
    AddOnTotalAppend(b[..k] + [b[k]], b[k + 1..]);
    AddOnTotalAppend(b[..k], [b[k]]);
    AddOnTotalAppend(b[..k], b[k + 1..]);
    assert [b[k]][..0] == [];
  }

  /** The add-on total does not depend on the order of the selected ids. */
  lemma {:induction false} AddOnTotalPermutation(a: seq<string>, b: seq<string>)
    requires multiset(a) == multiset(b)
    ensures AddOnTotal(a) == AddOnTotal(b)
    decreases |a|
  {
    if a == [] {
      assert |b| == |multiset(b)| == 0;
    } else {
      var a', x := a[..|a| - 1], a[|a| - 1];
      assert a == a' + [x];
      assert x in multiset(b);
      var k :| 0 <= k < |b| && b[k] == x;
      var b' := b[..k] + b[k + 1..];
      assert b == b[..k] + [x] + b[k + 1..];
      assert multiset(b') == multiset(b) - multiset{x} by {
        assert multiset(b) == multiset(b[..k]) + multiset{x} + multiset(b[k + 1..]);
      }
      assert multiset(a') == multiset(a) - multiset{x};
      AddOnTotalPermutation(a', b');
      AddOnTotalWithout(b, k);
    }
  }

  /** An id the services table does not know adds nothing, wherever it stands in the list. */
  lemma {:induction false} UnknownServiceIgnored(a: seq<string>, u: string, b: seq<string>)
    requires LookupService(u).None?
    ensures AddOnTotal(a + [u] + b) == AddOnTotal(a + b)
  {
    AddOnTotalAppend(a + [u], b);
    AddOnTotalAppend(a, b);
    assert (a + [u])[..|a + [u]| - 1] == a;
  }

  /** A list made only of ids the services table does not know adds nothing. */
  lemma {:induction false} AddOnTotalOfUnknown(ids: seq<string>)
    requires forall i :: 0 <= i < |ids| ==> LookupService(ids[i]).None?
    ensures AddOnTotal(ids) == 0
    decreases |ids|
  {
    if ids != [] {
      AddOnTotalOfUnknown(ids[..|ids| - 1]);
    }
  }

  /** The estimate is defined exactly when both ids are in their tables, and then it is the
      base price of the entries carrying those ids plus the add-on total. */
  lemma {:induction false} EstimateCharacterization(garmentId: string, fabricId: string, ids: seq<string>)
    ensures Estimate(garmentId, fabricId, ids).Some? <==>
      (exists i :: 0 <= i < |Garments| && Garments[i].id == garmentId) &&
      (exists j :: 0 <= j < |Fabrics| && Fabrics[j].id == fabricId)
    ensures forall i, j ::
      (0 <= i < |Garments| && 0 <= j < |Fabrics| && Garments[i].id == garmentId && Fabrics[j].id == fabricId) ==>
        Estimate(garmentId, fabricId, ids).Some? &&
        Estimate(garmentId, fabricId, ids).value == BasePrice(Garments[i], Fabrics[j]) + AddOnTotal(ids)
  {
    CatalogIdsUnique();
    var g, f := LookupGarment(garmentId), LookupFabric(fabricId);
    forall i, j | 0 <= i < |Garments| && 0 <= j < |Fabrics| &&
      Garments[i].id == garmentId && Fabrics[j].id == fabricId
      ensures Estimate(garmentId, fabricId, ids).Some? &&
        Estimate(garmentId, fabricId, ids).value == BasePrice(Garments[i], Fabrics[j]) + AddOnTotal(ids)
    {
      var i', j' :| 0 <= i' < |Garments| && Garments[i'] == g.value && 0 <= j' < |Fabrics| && Fabrics[j'] == f.value;
      assert i' == i && j' == j;
    }
  }

  /** The estimate is the empty-selection estimate plus the add-on total. */
  lemma {:induction false} EstimateDecomposes(garmentId: string, fabricId: string, ids: seq<string>)
    ensures Estimate(garmentId, fabricId, ids).Some? == Estimate(garmentId, fabricId, []).Some?
    ensures Estimate(garmentId, fabricId, ids).Some? ==>
      Estimate(garmentId, fabricId, ids).value ==
      Estimate(garmentId, fabricId, []).value + AddOnTotal(ids)
  {
  }

  /** Reordering the selected ids does not change the estimate. */
  lemma {:induction false} EstimateOrderIndependent(garmentId: string, fabricId: string, a: seq<string>, b: seq<string>)
    requires multiset(a) == multiset(b)
    ensures Estimate(garmentId, fabricId, a) == Estimate(garmentId, fabricId, b)
  {
    AddOnTotalPermutation(a, b);
    var ea, eb := Estimate(garmentId, fabricId, a), Estimate(garmentId, fabricId, b);
    assert ea.Some? == eb.Some?;
    assert ea.Some? ==> ea.value == eb.value;
  }

  /** Any estimate is at least the base price and at least MinEstimate, so it is positive. */
  lemma {:induction false} EstimateLowerBound(garmentId: string, fabricId: string, ids: seq<string>)
    ensures Estimate(garmentId, fabricId, ids).Some? ==>
      Estimate(garmentId, fabricId, ids).value >= MinEstimate
  {
    var g, f := LookupGarment(garmentId), LookupFabric(fabricId);
    if g.Some? && f.Some? {
      BasePriceAtLeastMin(g.value, f.value);
    }
  }

  /** MinEstimate is reached: a shirt in cotton with no add-ons. */
  lemma MinEstimateAttained()
    ensures Estimate("shirt", "cotton", []) == Some(MinEstimate)
  {
    EstimateCharacterization("shirt", "cotton", []);
    assert Garments[3].id == "shirt" && Fabrics[0].id == "cotton";
    var e := Estimate("shirt", "cotton", []);
    assert e.Some? && e.value == MinEstimate;
  }

  /** An unset garment or fabric (the empty string) yields no estimate. */
  lemma {:induction false} UnsetSelectionHasNoEstimate(garmentId: string, fabricId: string, ids: seq<string>)
    requires garmentId == "" || fabricId == ""
    ensures Estimate(garmentId, fabricId, ids) == None
  {
    NoEmptyIds();
  }

  /** Dress in silk with embroidery: 8000 * 1.5 + 3000. */
  lemma DressSilkEmbroidery()
    ensures Estimate("dress", "silk", ["embroidery"]) == Some(15000)
  {
    var ids := [Services[2].id];
    assert ids == ["embroidery"];
    ServicePriceCharacterization(Services[2].id);
    AddOnTotalStep(ids, 0);
    assert ids[..0] == [] && ids[..1] == ids;
    assert AddOnTotal(ids) == 3000;
    EstimateCharacterization("dress", "silk", ids);
    assert Garments[0].id == "dress" && Fabrics[2].id == "silk";
    var e := Estimate("dress", "silk", ids);
    assert e.Some? && e.value == 15000;
  }

  /** Coat in cashmere with express making and premium lining: 20000 * 2 + 5000 + 2000. */
  lemma CoatCashmereExpressLining()
    ensures Estimate("coat", "cashmere", ["express", "lining"]) == Some(47000)
  {
    var ids := [Services[0].id, Services[3].id];
    assert ids == ["express", "lining"];
    ServicePriceCharacterization(Services[0].id);
    ServicePriceCharacterization(Services[3].id);
    AddOnTotalStep(ids, 0);
    AddOnTotalStep(ids, 1);
    assert ids[..0] == [] && ids[..2] == ids;
    assert AddOnTotal(ids) == 7000;
    EstimateCharacterization("coat", "cashmere", ids);
    assert Garments[2].id == "coat" && Fabrics[3].id == "cashmere";
    var e := Estimate("coat", "cashmere", ids);
    assert e.Some? && e.value == 47000;
  }

  /** No garment chosen, cotton chosen: no estimate. */
  lemma NoGarmentCotton()
    ensures Estimate("", "cotton", []) == None
  {
    NoEmptyIds();
  }
}
