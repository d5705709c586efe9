/**
 * Callers of the three services: what a sequence of calls guarantees, derived
 * only from the contracts of the service methods.
 */
module Scenarios {
  import opened Entities
  import opened Persistence
  import opened CityService
  import opened SupermarketService
  import opened CityMarketService

  /**
   * A city created in an allowed country and a supermarket created with a long
   * enough name, then associated: the city's list holds exactly that
   * supermarket, with the fields it was created with.
   */
  method CreateCityAndSupermarketThenAdd(store: Store, ciudad: Ciudad, supermercado: Supermercado,
                                         cityId: Id, marketId: Id) returns (r: Result<Ciudad>)
    requires store.Valid()
    requires cityId !in store.cities && marketId !in store.markets
    requires ciudad.pais in ValidCountries && ciudad.supermercados == []
    requires Utf16Length(supermercado.nombre) > 10
    modifies store
    ensures store.Valid()
    ensures r == Ok(ciudad.(id := cityId, supermercados := [supermercado.(id := marketId)]))
    ensures store.cities == old(store.cities)[cityId := r.value]
  {
    var cities := new CiudadService(store);
    var markets := new SupermercadoService(store);
    var links := new CiudadSupermercadoService(store);
    var c := cities.Create(ciudad, cityId);
    var m := markets.Create(supermercado, marketId);
    r := links.AddSupermarketToCity(c.value.id, m.value.id);
    assert [] + [supermercado.(id := marketId)] == [supermercado.(id := marketId)];
  }

  /**
   * Adding and then looking up the same pair: the lookup succeeds exactly when
   * the add did, and finds the added supermarket unless an entry with its key
   * was already there; otherwise it fails with the add's own error.
   */
  method AddThenFind(links: CiudadSupermercadoService, cityId: Id, marketId: Id)
    returns (added: Result<Ciudad>, found: Result<Supermercado>)
    requires links.store.Valid()
    modifies links.store`cities
    ensures links.store.Valid()
    ensures added.Err? ==> found == Err(added.exception)
    ensures added.Ok? ==> found.Ok? && found.value.id == marketId
    ensures added.Ok? && cityId in old(links.store.cities) && marketId in links.store.markets &&
            !Associated(old(links.store.cities)[cityId].supermercados, marketId) ==>
              found == Ok(links.store.markets[marketId])
  {
    added := links.AddSupermarketToCity(cityId, marketId);
    if added.Ok? {
      FindAfterAppend(old(links.store.cities)[cityId].supermercados, links.store.markets[marketId]);
    }
    found := links.FindSupermarketFromCity(cityId, marketId);
  }

  /**
   * Removing and then looking up the same pair: after a successful removal the
   * pair is no longer associated, and on a list without duplicate keys exactly
   * one entry went away; a failed removal fails the lookup the same way.
   */
  method DeleteThenFind(links: CiudadSupermercadoService, cityId: Id, marketId: Id)
    returns (deleted: Outcome, found: Result<Supermercado>)
    requires links.store.Valid()
    modifies links.store`cities
    ensures links.store.Valid()
    ensures deleted != Pass ==> found == Err(deleted.exception)
    ensures deleted == Pass ==> found == Err(MarketNotAssociated)
    ensures deleted == Pass ==> cityId in old(links.store.cities) && cityId in links.store.cities
    ensures deleted == Pass && cityId in old(links.store.cities) && cityId in links.store.cities &&
            DistinctIds(old(links.store.cities)[cityId].supermercados) ==>
              |links.store.cities[cityId].supermercados| == |old(links.store.cities)[cityId].supermercados| - 1
  {
    deleted := links.DeleteSupermarketFromCity(cityId, marketId);
    if deleted == Pass {
      var before := old(links.store.cities)[cityId].supermercados;
      FindAfterWithout(before, marketId);
      if DistinctIds(before) {
        WithoutRemovesOne(before, marketId);
      }
    }
    found := links.FindSupermarketFromCity(cityId, marketId);
  }

  /** Replacing a city's list and then listing it returns the supplied list: prior entries are gone. */
  method ReplaceThenList(links: CiudadSupermercadoService, cityId: Id, supermarkets: seq<Supermercado>)
    returns (replaced: Result<Ciudad>, listed: Result<seq<Supermercado>>)
    requires links.store.Valid()
    modifies links.store`cities
    ensures links.store.Valid()
    ensures replaced.Ok? ==> listed == Ok(supermarkets)
    ensures replaced.Err? ==> listed.Err? || replaced.exception == MarketNotFound
  {
    replaced := links.UpdateSupermarketsFromCity(cityId, supermarkets);
    listed := links.FindSupermarketsFromCity(cityId);
  }
}
