/**
 * The three static price tables of the calculator and the `find` lookups on them.
 * Fabric multipliers (1, 1.3, 1.5, 2, 1.4) are held exactly as integer tenths.
 */
module Catalog {
  import opened Wrappers

  datatype Garment = Garment(id: string, name: string, basePrice: nat)
  datatype Fabric = Fabric(id: string, name: string, multiplierTenths: nat)
  datatype Service = Service(id: string, name: string, price: nat)

  const Garments: seq<Garment> := [
    Garment("dress", "Платье", 8000),
    Garment("suit", "Костюм", 15000),
    Garment("coat", "Пальто", 20000),
    Garment("shirt", "Рубашка", 4000),
    Garment("pants", "Брюки", 5000)
  ]

  const Fabrics: seq<Fabric> := [
    Fabric("cotton", "Хлопок", 10),
    Fabric("wool", "Шерсть", 13),
    Fabric("silk", "Шелк", 15),
    Fabric("cashmere", "Кашемир", 20),
    Fabric("velvet", "Бархат", 14)
  ]

  const Services: seq<Service> := [
    Service("express", "Экспресс-изготовление (3 дня)", 5000),
    Service("fitting", "Дополнительная примерка", 1500),
    Service("embroidery", "Вышивка", 3000),
    Service("lining", "Премиальная подкладка", 2000)
  ]

  /** `Array.prototype.find` by id: the index of the FIRST entry whose key is `id`, if any. */
  function FindFirst<T>(s: seq<T>, key: T -> string, id: string): (r: Option<nat>)
    ensures r.Some? ==> r.value < |s| && key(s[r.value]) == id
    ensures r.Some? ==> forall j :: 0 <= j < r.value ==> key(s[j]) != id
    ensures r.None? ==> forall j :: 0 <= j < |s| ==> key(s[j]) != id
    decreases |s|
  {
    if s == [] then None
    else if key(s[0]) == id then Some(0)
    else match FindFirst(s[1..], key, id)
      case None => None
      case Some(i) => Some(i + 1)
  }

  function LookupGarment(id: string): (r: Option<Garment>)
    ensures r.Some? ==> r.value in Garments && r.value.id == id
    ensures r.None? <==> forall i :: 0 <= i < |Garments| ==> Garments[i].id != id
  {
    match FindFirst(Garments, (g: Garment) => g.id, id)
    case None => None
    case Some(i) => Some(Garments[i])
  }

  function LookupFabric(id: string): (r: Option<Fabric>)
    ensures r.Some? ==> r.value in Fabrics && r.value.id == id
    ensures r.None? <==> forall i :: 0 <= i < |Fabrics| ==> Fabrics[i].id != id
  {
    match FindFirst(Fabrics, (f: Fabric) => f.id, id)
    case None => None
    case Some(i) => Some(Fabrics[i])
  }

  function LookupService(id: string): (r: Option<Service>)
    ensures r.Some? ==> r.value in Services && r.value.id == id
    ensures r.None? <==> forall i :: 0 <= i < |Services| ==> Services[i].id != id
  {
    match FindFirst(Services, (s: Service) => s.id, id)
    case None => None
    case Some(i) => Some(Services[i])
  }

  /** Ids are unique in every table, so the first match `find` returns is the only match. */
  lemma CatalogIdsUnique()
    ensures forall i, j :: 0 <= i < j < |Garments| ==> Garments[i].id != Garments[j].id
    ensures forall i, j :: 0 <= i < j < |Fabrics| ==> Fabrics[i].id != Fabrics[j].id
    ensures forall i, j :: 0 <= i < j < |Services| ==> Services[i].id != Services[j].id
  {
  }

  /** No table has an entry with the empty id, which is what an unset selection holds. */
  lemma NoEmptyIds()
    ensures forall i :: 0 <= i < |Garments| ==> Garments[i].id != ""
    ensures forall i :: 0 <= i < |Fabrics| ==> Fabrics[i].id != ""
  {
  }

  /** Every base price is a whole number of thousands, at least 4000. */
  lemma GarmentFigures(g: Garment)
    requires g in Garments
    ensures g.basePrice == 1000 * (g.basePrice / 1000) && g.basePrice >= 4000
  {
  }

  /** Every multiplier is at least 1, that is at least ten tenths. */
  lemma FabricFigures(f: Fabric)
    requires f in Fabrics
    ensures f.multiplierTenths >= 10
  {
  }
}
