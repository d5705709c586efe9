/**
 * The association between a city and its supermarkets
 * (src/ciudad-supermercado/ciudad-supermercado.service.ts): append, look up,
 * replace and remove entries of a city's `supermercados` list, each behind a
 * fixed order of existence checks.
 */
module CityMarketService {
  import opened Entities
  import opened Persistence

  /** `m` is an entry of the list and no earlier entry carries key `id`. */
  ghost predicate FirstWithId(list: seq<Supermercado>, id: Id, m: Supermercado) {
    exists i :: 0 <= i < |list| && list[i] == m && forall j :: 0 <= j < i ==> list[j].id != id
  }

  /**
   * `list.find((e) => e.id === id)`: the first entry with that key, or
   * nothing when no entry has it.
   */
  function Find(list: seq<Supermercado>, id: Id): (r: Option<Supermercado>)
    ensures r.None? <==> forall i :: 0 <= i < |list| ==> list[i].id != id
    ensures r.Some? ==> r.value in list && r.value.id == id
    ensures r.Some? ==> FirstWithId(list, id, r.value)
  {
    if list == [] then None
    else if list[0].id == id then Some(list[0])
    else
      var r := Find(list[1..], id);
      assert r.Some? ==> exists i :: 1 <= i < |list| && list[i] == r.value &&
                                     forall j :: 0 <= j < i ==> list[j].id != id by {
        if r.Some? {
          var i :| 0 <= i < |list[1..]| && list[1..][i] == r.value &&
                   forall j :: 0 <= j < i ==> list[1..][j].id != id;
          assert list[i + 1] == r.value;
          assert forall j :: 0 <= j < i + 1 ==> list[j].id != id by {
            forall j | 0 <= j < i + 1 ensures list[j].id != id {
              if j > 0 { assert list[j] == list[1..][j - 1]; }
            }
          }
        }
      }
      r
  }

  /** Some entry of the list carries this key. */
  predicate Associated(list: seq<Supermercado>, id: Id) {
    exists i :: 0 <= i < |list| && list[i].id == id
  }

  /**
   * `list.filter((e) => e.id !== id)`: every entry with that key is dropped,
   * every other entry is kept.
   */
  function Without(list: seq<Supermercado>, id: Id): (r: seq<Supermercado>)
    ensures |r| <= |list|
    ensures forall i :: 0 <= i < |r| ==> r[i].id != id && r[i] in list
    ensures forall i :: 0 <= i < |list| && list[i].id != id ==> list[i] in r
  {
    if list == [] then []
    else
      var rest := Without(list[1..], id);
      assert forall i :: 1 <= i < |list| ==> list[i] == list[1..][i - 1];
      if list[0].id == id then rest else [list[0]] + rest
  }

  /** No two entries of the list share a key. */
  ghost predicate DistinctIds(list: seq<Supermercado>) {
    forall i, j :: 0 <= i < j < |list| ==> list[i].id != list[j].id
  }

  /**
   * Filtering distributes over concatenation: the entries that stay keep their
   * relative order.
   */
  lemma {:induction false} WithoutDistributes(a: seq<Supermercado>, b: seq<Supermercado>, id: Id)
    ensures Without(a + b, id) == Without(a, id) + Without(b, id)
  {
    if a == [] {
      assert a + b == b;
    } else {
      assert (a + b)[1..] == a[1..] + b;
      WithoutDistributes(a[1..], b, id);
    }
  }

  /** Filtering out a key that no entry carries leaves the list as it was. */
  lemma {:induction false} WithoutAbsent(list: seq<Supermercado>, id: Id)
    requires !Associated(list, id)
    ensures Without(list, id) == list
  {
    if list != [] {
      assert !Associated(list[1..], id) by {
        forall i | 0 <= i < |list[1..]| ensures list[1..][i].id != id {
          assert list[1..][i] == list[i + 1];
        }
      }
      WithoutAbsent(list[1..], id);
    }
  }

  /**
   * On a list without duplicate keys, removing an associated supermarket drops
   * exactly one entry.
   */
  lemma {:induction false} WithoutRemovesOne(list: seq<Supermercado>, id: Id)
    requires DistinctIds(list)
    requires Associated(list, id)
    ensures |Without(list, id)| == |list| - 1
  {
    if list[0].id == id {
      assert !Associated(list[1..], id) by {
        forall i | 0 <= i < |list[1..]| ensures list[1..][i].id != id {
          assert list[1..][i] == list[i + 1];
        }
      }
      WithoutAbsent(list[1..], id);
    } else {
      var k :| 0 <= k < |list| && list[k].id == id;
      assert list[1..][k - 1].id == id;
      assert DistinctIds(list[1..]) by {
        forall i, j | 0 <= i < j < |list[1..]| ensures list[1..][i].id != list[1..][j].id {
          assert list[1..][i] == list[i + 1] && list[1..][j] == list[j + 1];
        }
      }
      WithoutRemovesOne(list[1..], id);
    }
  }

  /** Filtering keeps the list free of duplicate keys. */
  lemma {:induction false} WithoutKeepsDistinct(list: seq<Supermercado>, id: Id)
    requires DistinctIds(list)
    ensures DistinctIds(Without(list, id))
  {
    if list != [] {
      assert DistinctIds(list[1..]) by {
        forall i, j | 0 <= i < j < |list[1..]| ensures list[1..][i].id != list[1..][j].id {
          assert list[1..][i] == list[i + 1] && list[1..][j] == list[j + 1];
        }
      }
      WithoutKeepsDistinct(list[1..], id);
      var rest := Without(list[1..], id);
      forall m | m in rest ensures m.id != list[0].id {
        var j :| 0 <= j < |list[1..]| && list[1..][j] == m;
        assert list[j + 1] == m;
      }
    }
  }

  /** After an append the appended supermarket is found, and it is the one found when it was new. */
  lemma FindAfterAppend(list: seq<Supermercado>, m: Supermercado)
    ensures Find(list + [m], m.id).Some?
    ensures !Associated(list, m.id) ==> Find(list + [m], m.id) == Some(m)
  {
    var extended := list + [m];
    assert extended[|list|] == m;
    if !Associated(list, m.id) {
      var found := Find(extended, m.id);
      var i :| 0 <= i < |extended| && extended[i] == found.value &&
               forall j :: 0 <= j < i ==> extended[j].id != m.id;
      assert i == |list|;
    }
  }

  /** Once its key is filtered out, a supermarket is no longer found in the list. */
  lemma FindAfterWithout(list: seq<Supermercado>, id: Id)
    ensures Find(Without(list, id), id) == None
    ensures !Associated(Without(list, id), id)
  {
  }

  /** Appending a supermarket that is already associated duplicates its key. */
  lemma AppendAssociatedDuplicates(list: seq<Supermercado>, m: Supermercado)
    requires Associated(list, m.id)
    ensures !DistinctIds(list + [m])
  {
    var i :| 0 <= i < |list| && list[i].id == m.id;
    assert (list + [m])[i].id == (list + [m])[|list|].id;
  }

  /** Appending a supermarket that is not yet associated keeps the keys distinct. */
  lemma AppendNewKeepsDistinct(list: seq<Supermercado>, m: Supermercado)
    requires DistinctIds(list)
    requires !Associated(list, m.id)
    ensures DistinctIds(list + [m])
  {
  }

  /** CiudadSupermercadoService with its injected supermarket and city repositories. */
  class CiudadSupermercadoService {
    const store: Store

    constructor (store: Store)
      ensures this.store == store
    {
      this.store := store;
    }

    /** Resolves a supermarket by key, or NotFound. */
    method GetSupermarketBySupermarketId(supermarketId: Id) returns (r: Result<Supermercado>)
      requires store.Valid()
      ensures r.Ok? <==> supermarketId in store.markets
      ensures r.Ok? ==> r.value == store.markets[supermarketId] && r.value.id == supermarketId
      ensures r.Err? ==> r.exception == MarketNotFound
    {
      if supermarketId !in store.markets {
        return Err(MarketNotFound);
      }
      r := Ok(store.markets[supermarketId]);
    }

    /** Resolves a city, with its supermarket list, by key, or NotFound. */
    method GetCityByCityId(cityId: Id) returns (r: Result<Ciudad>)
      requires store.Valid()
      ensures r.Ok? <==> cityId in store.cities
      ensures r.Ok? ==> r.value == store.cities[cityId] && r.value.id == cityId
      ensures r.Err? ==> r.exception == CityNotFound
    {
      if cityId !in store.cities {
        return Err(CityNotFound);
      }
      r := Ok(store.cities[cityId]);
    }

    /**
     * Resolves the supermarket, then the city, and appends the supermarket at
     * the end of the city's list. A missing supermarket wins over a missing
     * city; nothing is saved on failure. An already associated supermarket
     * is appended again.
     */
    method AddSupermarketToCity(cityId: Id, supermarketId: Id) returns (r: Result<Ciudad>)
      requires store.Valid()
      modifies store`cities
      ensures store.Valid()
      ensures supermarketId !in store.markets ==> r == Err(MarketNotFound)
      ensures supermarketId in store.markets && cityId !in old(store.cities) ==> r == Err(CityNotFound)
      ensures r.Err? ==> store.cities == old(store.cities)
      ensures r.Ok? <==> supermarketId in store.markets && cityId in old(store.cities)
      ensures r.Ok? ==> r.value == old(store.cities)[cityId].(supermercados :=
                          old(store.cities)[cityId].supermercados + [store.markets[supermarketId]])
      ensures r.Ok? ==> store.cities == old(store.cities)[cityId := r.value]
      ensures r.Ok? ==> |r.value.supermercados| == |old(store.cities)[cityId].supermercados| + 1
    {
      var supermercado := GetSupermarketBySupermarketId(supermarketId);
      if supermercado.Err? {
        return Err(supermercado.exception);
      }
      var ciudad := GetCityByCityId(cityId);
      if ciudad.Err? {
        return Err(ciudad.exception);
      }
      var saved := ciudad.value.(supermercados := ciudad.value.supermercados + [supermercado.value]);
      store.cities := store.cities[saved.id := saved];
      r := Ok(saved);
    }

    /** The city's stored supermarket list, or NotFound for a missing city. */
    method FindSupermarketsFromCity(cityId: Id) returns (r: Result<seq<Supermercado>>)
      requires store.Valid()
      ensures r.Ok? <==> cityId in store.cities
      ensures r.Ok? ==> r.value == store.cities[cityId].supermercados
      ensures r.Err? ==> r.exception == CityNotFound
    {
      var ciudad := GetCityByCityId(cityId);
      if ciudad.Err? {
        return Err(ciudad.exception);
      }
      r := Ok(ciudad.value.supermercados);
    }

    /**
     * Resolves the supermarket, then the city, and returns the first entry of
     * the city's list with the supermarket's key; an existing supermarket that
     * is not in the list is a failed precondition.
     */
    method FindSupermarketFromCity(cityId: Id, supermarketId: Id) returns (r: Result<Supermercado>)
      requires store.Valid()
      ensures supermarketId !in store.markets ==> r == Err(MarketNotFound)
      ensures supermarketId in store.markets && cityId !in store.cities ==> r == Err(CityNotFound)
      ensures (supermarketId in store.markets && cityId in store.cities &&
               !Associated(store.cities[cityId].supermercados, supermarketId)) ==> r == Err(MarketNotAssociated)
      ensures r.Ok? <==> supermarketId in store.markets && cityId in store.cities &&
                         Associated(store.cities[cityId].supermercados, supermarketId)
      ensures r.Ok? ==> r.value.id == supermarketId
      ensures r.Ok? ==> FirstWithId(store.cities[cityId].supermercados, supermarketId, r.value)
    {
      var supermercado := GetSupermarketBySupermarketId(supermarketId);
      if supermercado.Err? {
        return Err(supermercado.exception);
      }
      var ciudad := GetCityByCityId(cityId);
      if ciudad.Err? {
        return Err(ciudad.exception);
      }
      var ciudadSupermercado := Find(ciudad.value.supermercados, supermercado.value.id);
      if ciudadSupermercado.None? {
        return Err(MarketNotAssociated);
      }
      r := Ok(ciudadSupermercado.value);
    }

    /**
     * Resolves the city, then every supplied supermarket in list order, and
     * replaces the city's whole list by the supplied one. The first key that
     * does not resolve fails with NotFound; nothing is saved on failure.
     */
    method UpdateSupermarketsFromCity(cityId: Id, supermarkets: seq<Supermercado>) returns (r: Result<Ciudad>)
      requires store.Valid()
      modifies store`cities
      ensures store.Valid()
      ensures cityId !in old(store.cities) ==> r == Err(CityNotFound)
      ensures (cityId in old(store.cities) &&
               exists i :: 0 <= i < |supermarkets| && supermarkets[i].id !in store.markets) ==> r == Err(MarketNotFound)
      ensures r.Err? ==> store.cities == old(store.cities)
      ensures r.Ok? <==> cityId in old(store.cities) &&
                         forall i :: 0 <= i < |supermarkets| ==> supermarkets[i].id in store.markets
      ensures r.Ok? ==> r.value == old(store.cities)[cityId].(supermercados := supermarkets)
      ensures r.Ok? ==> store.cities == old(store.cities)[cityId := r.value]
    {
      var ciudad := GetCityByCityId(cityId);
      if ciudad.Err? {
        return Err(ciudad.exception);
      }
      for i := 0 to |supermarkets|
        invariant store.cities == old(store.cities)
        invariant forall j :: 0 <= j < i ==> supermarkets[j].id in store.markets
      {
        var resolved := GetSupermarketBySupermarketId(supermarkets[i].id);
        if resolved.Err? {
          return Err(resolved.exception);
        }
      }
      var saved := ciudad.value.(supermercados := supermarkets);
      store.cities := store.cities[saved.id := saved];
      r := Ok(saved);
    }

    /**
     * Resolves the supermarket, then the city, requires the supermarket to be
     * in the city's list, and drops every entry with its key. Nothing is saved
     * on failure.
     */
    method DeleteSupermarketFromCity(cityId: Id, supermarketId: Id) returns (r: Outcome)
      requires store.Valid()
      modifies store`cities
      ensures store.Valid()
      ensures supermarketId !in store.markets ==> r == Fail(MarketNotFound)
      ensures supermarketId in store.markets && cityId !in old(store.cities) ==> r == Fail(CityNotFound)
      ensures (supermarketId in store.markets && cityId in old(store.cities) &&
               !Associated(old(store.cities)[cityId].supermercados, supermarketId)) ==> r == Fail(MarketNotAssociated)
      ensures r != Pass ==> store.cities == old(store.cities)
      ensures r == Pass <==> supermarketId in store.markets && cityId in old(store.cities) &&
                             Associated(old(store.cities)[cityId].supermercados, supermarketId)
      ensures r == Pass ==> store.cities == old(store.cities)[cityId :=
                old(store.cities)[cityId].(supermercados := Without(old(store.cities)[cityId].supermercados, supermarketId))]
    {
      var supermercado := GetSupermarketBySupermarketId(supermarketId);
      if supermercado.Err? {
        return Fail(supermercado.exception);
      }
      var ciudad := GetCityByCityId(cityId);
      if ciudad.Err? {
        return Fail(ciudad.exception);
      }
      var ciudadSupermercado := Find(ciudad.value.supermercados, supermercado.value.id);
      if ciudadSupermercado.None? {
        return Fail(MarketNotAssociated);
      }
      var saved := ciudad.value.(supermercados := Without(ciudad.value.supermercados, supermarketId));
      store.cities := store.cities[saved.id := saved];
      r := Pass;
    }
  }
}
