/** The survival shop's catalogue: packs grouped by tier, looked up by id or by tier. A Python
    dict is a list of (key, value) pairs with distinct keys, in insertion order. */
module ShopConfig {
  import opened Wrappers

  /** The fields of a pack the lookups carry along. */
  datatype Pack = Pack(name: string, priceMoney: int, stock: int, category: string, restockDays: Option<int>)

  /** A pack as get_pack_by_id returns it: a copy with its tier and id added. */
  datatype PackInfo = PackInfo(pack: Pack, tier: string, id: string)

  type Packs = seq<(string, Pack)>
  type Catalogue = seq<(string, Packs)>

  /** `key in d` / `d[key]`. */
  function Lookup<V>(d: seq<(string, V)>, key: string): (r: Option<V>)
    ensures r.Some? <==> exists i :: 0 <= i < |d| && d[i].0 == key
    ensures r.Some? ==> exists i :: 0 <= i < |d| && d[i] == (key, r.value)
  {
    if d == [] then None
    else if d[0].0 == key then Some(d[0].1)
    else Lookup(d[1..], key)
  }

  /** get_pack_by_id: the pack from the first tier that holds the id, with tier and id added;
      None when no tier holds it. */
  function GetPackById(cat: Catalogue, packId: string): (r: Option<PackInfo>)
    ensures r.None? <==> forall i :: 0 <= i < |cat| ==> Lookup(cat[i].1, packId).None?
    ensures r.Some? ==> r.value.id == packId
  {
    if cat == [] then None
    else
      var p := Lookup(cat[0].1, packId);
      if p.Some? then Some(PackInfo(p.value, cat[0].0, packId))
      else
        var r := GetPackById(cat[1..], packId);
        assert r.None? ==> forall i :: 1 <= i < |cat| ==> cat[i] == cat[1..][i - 1];
        r
  }

  /** The index of the first tier that holds the id, |cat| when none does. */
  function FirstTier(cat: Catalogue, packId: string): (i: nat)
    ensures i <= |cat|
  {
    if cat == [] || Lookup(cat[0].1, packId).Some? then 0 else 1 + FirstTier(cat[1..], packId)
  }

  /** The pack found by id comes from the first tier holding the id, as that tier lists it. */
  lemma {:induction false} FoundInFirstTier(cat: Catalogue, packId: string)
    requires GetPackById(cat, packId).Some?
    ensures var i := FirstTier(cat, packId); var r := GetPackById(cat, packId).value;
      && i < |cat| && cat[i].0 == r.tier && Lookup(cat[i].1, packId) == Some(r.pack)
      && forall j :: 0 <= j < i ==> Lookup(cat[j].1, packId).None?
  {
    if Lookup(cat[0].1, packId).None? {
      FoundInFirstTier(cat[1..], packId);
      var i := FirstTier(cat[1..], packId);
      assert cat[i + 1] == cat[1..][i];
      assert forall j :: 1 <= j < i + 1 ==> cat[j] == cat[1..][j - 1];
    }
  }

  /** get_packs_by_tier: the tier's packs, or none for an unknown tier. */
  function GetPacksByTier(cat: Catalogue, tier: string): (ps: Packs)
    ensures Lookup(cat, tier).Some? ==> ps == Lookup(cat, tier).value
    ensures Lookup(cat, tier).None? ==> ps == []
  {
    Lookup(cat, tier).GetOr([])
  }

  /** get_available_packs: for now the tier's packs, whoever asks. */
  function GetAvailablePacks(cat: Catalogue, tier: string, userId: Option<int>): (ps: Packs)
    ensures ps == GetPacksByTier(cat, tier)
  {
    GetPacksByTier(cat, tier)
  }

  /** No tier name appears twice and no pack id appears in two tiers. */
  ghost predicate WellFormed(cat: Catalogue)
  {
    && (forall i, j :: 0 <= i < j < |cat| ==> cat[i].0 != cat[j].0)
    && (forall i, j, id :: 0 <= i < j < |cat| && Lookup(cat[i].1, id).Some? ==> Lookup(cat[j].1, id).None?)
  }

  /** The two lookups agree: the pack found by id is the one its tier lists under that id. */
  lemma {:induction false} ByIdIsInItsTier(cat: Catalogue, packId: string)
    requires WellFormed(cat) && GetPackById(cat, packId).Some?
    ensures var info := GetPackById(cat, packId).value;
      Lookup(GetPacksByTier(cat, info.tier), packId) == Some(info.pack)
  {
    var info := GetPackById(cat, packId).value;
    FoundInFirstTier(cat, packId);
    LookupUnique(cat, FirstTier(cat, packId));
  }

  /** A pack listed by a tier is found by its id, with that tier. */
  lemma {:induction false} InTierIsFoundById(cat: Catalogue, tier: string, packId: string)
    requires WellFormed(cat) && Lookup(GetPacksByTier(cat, tier), packId).Some?
    ensures GetPackById(cat, packId) == Some(PackInfo(Lookup(GetPacksByTier(cat, tier), packId).value, tier, packId))
  {
    var i :| 0 <= i < |cat| && cat[i] == (tier, Lookup(cat, tier).value);
    LookupUnique(cat, i);
    var r := GetPackById(cat, packId);
    FoundInFirstTier(cat, packId);
    assert FirstTier(cat, packId) == i;
  }

  /** With distinct keys, the entry at index i is what a lookup of its key finds. */
  lemma {:induction false} LookupUnique<V>(d: seq<(string, V)>, i: int)
    requires 0 <= i < |d| && forall a, b :: 0 <= a < b < |d| ==> d[a].0 != d[b].0
    ensures Lookup(d, d[i].0) == Some(d[i].1)
  {
    if i > 0 {
      assert d[0].0 != d[i].0;
      LookupUnique(d[1..], i - 1);
    }
  }

  /** An unknown tier has no packs, and its packs are also what every user is offered. */
  lemma UnknownTierEmpty(cat: Catalogue, tier: string, userId: Option<int>)
    requires forall i :: 0 <= i < |cat| ==> cat[i].0 != tier
    ensures GetAvailablePacks(cat, tier, userId) == []
  {
  }

  /** SHOP_PACKS: the fourteen packs of the three tiers. */
  const ShopPacks: Catalogue := [
    ("tier1", [
      ("constructor", Pack("Pack del Constructor", 500, 5, "construcción", None)),
      ("sanitario", Pack("Pack de Sanitario", 400, 5, "médico", None)),
      ("explorador", Pack("Pack de Explorador", 700, 5, "exploración", None)),
      ("asalto_ligero", Pack("Pack de Asalto Ligero", 600, 5, "combate", None))]),
    ("tier2", [
      ("caza", Pack("Pack de Caza", 1200, 3, "supervivencia", None)),
      ("mecanico", Pack("Pack de Mecánico", 1000, 3, "vehículos", None)),
      ("ghost", Pack("Pack \"Ghost\" (Furtivo)", 1500, 3, "sigilo", None)),
      ("asalto_pesado", Pack("Pack de Asalto Pesado", 1800, 3, "combate", None))]),
    ("tier3", [
      ("francotirador", Pack("Pack de Francotirador", 3000, 3, "precisión", None)),
      ("carga_pesada", Pack("Pack de Carga Pesada", 2500, 3, "utilidad", None)),
      ("auto_limitado_1", Pack("Vehículo Todoterreno Blindado", 15000, 3, "vehículo_limitado", Some(14))),
      ("auto_limitado_2", Pack("Camión de Transporte Militar", 20000, 3, "vehículo_limitado", Some(14))),
      ("avion_comun_1", Pack("Avioneta de Reconocimiento", 25000, 2, "avion", Some(7))),
      ("avion_comun_2", Pack("Helicóptero de Combate", 35000, 2, "avion", Some(7)))])
  ]
}
