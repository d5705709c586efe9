/**
 * City CRUD (src/ciudad/ciudad.service.ts): lookups that fail with NotFound,
 * and writes guarded by the country allow-list.
 */
module CityService {
  import opened Entities
  import opened Persistence

  /** The only countries a city may be created in or moved to. */
  const ValidCountries: seq<string> := ["Argentina", "Ecuador", "Paraguay"]

  /** Exact string membership in the allow-list; anything else is a failed precondition. */
  function ValidateCountry(pais: string): (r: Outcome)
    ensures r == Pass <==> pais == "Argentina" || pais == "Ecuador" || pais == "Paraguay"
    ensures r != Pass ==> r == Fail(InvalidCountry)
  {
    if pais in ValidCountries then Pass else Fail(InvalidCountry)
  }

  /**
   * The payload of an update. The country is always read (it is validated), the
   * other fields may be absent, and an absent field keeps its stored value.
   * The primary key comes from the request path, never from the payload.
   */
  datatype CiudadPatch = CiudadPatch(
    nombre: Option<string>,
    pais: string,
    habitantes: Option<int>,
    supermercados: Option<seq<Supermercado>>)

  /** `{...persisted, ...patch}`: the shallow merge that update saves. */
  function MergeCiudad(persisted: Ciudad, patch: CiudadPatch): (r: Ciudad)
    ensures r.id == persisted.id
    ensures r.pais == patch.pais
  {
    Ciudad(
      persisted.id,
      Overlay(patch.nombre, persisted.nombre),
      patch.pais,
      Overlay(patch.habitantes, persisted.habitantes),
      Overlay(patch.supermercados, persisted.supermercados))
  }

  /** The payload that carries every field of a city. */
  function FullPatch(c: Ciudad): (p: CiudadPatch)
    ensures p.pais == c.pais
  {
    CiudadPatch(Some(c.nombre), c.pais, Some(c.habitantes), Some(c.supermercados))
  }

  /** Applying the same payload twice stores what applying it once stores. */
  lemma MergeCiudadIdempotent(persisted: Ciudad, patch: CiudadPatch)
    ensures MergeCiudad(MergeCiudad(persisted, patch), patch) == MergeCiudad(persisted, patch)
  {
  }

  /**
   * A payload that supplies every field overwrites the whole record except its
   * key: the stored record no longer depends on what was persisted before.
   */
  lemma MergeFullPatch(persisted: Ciudad, c: Ciudad)
    requires persisted.id == c.id
    ensures MergeCiudad(persisted, FullPatch(c)) == c
  {
  }

  /** A payload with only the country changes the country and nothing else. */
  lemma MergeCountryOnly(persisted: Ciudad, pais: string)
    ensures MergeCiudad(persisted, CiudadPatch(None, pais, None, None)) == persisted.(pais := pais)
  {
  }

  /** CiudadService with its injected city repository. */
  class CiudadService {
    const store: Store

    constructor (store: Store)
      ensures this.store == store
    {
      this.store := store;
    }

    /** Every stored city, each once. */
    method FindAll() returns (r: seq<Ciudad>)
      requires store.Valid()
      ensures |r| == |store.cities|
      ensures forall id :: id in store.cities ==> store.cities[id] in r
      ensures forall i :: 0 <= i < |r| ==> r[i].id in store.cities && store.cities[r[i].id] == r[i]
    {
      r := TableRows(store.cities);
      forall i | 0 <= i < |r|
        ensures r[i].id in store.cities && store.cities[r[i].id] == r[i]
      {
        var k :| k in store.cities && store.cities[k] == r[i];
      }
    }

    /** The stored city with this key, or NotFound. */
    method FindOne(id: Id) returns (r: Result<Ciudad>)
      requires store.Valid()
      ensures r.Ok? <==> id in store.cities
      ensures r.Ok? ==> r.value == store.cities[id] && r.value.id == id
      ensures r.Err? ==> r.exception == CityNotFound
    {
      if id !in store.cities {
        return Err(CityNotFound);
      }
      r := Ok(store.cities[id]);
    }

    /**
     * Validates the country, then saves the city under the fresh key the store
     * generates (`freshId`, the uuid column default). Nothing is stored on failure.
     */
    method Create(ciudad: Ciudad, freshId: Id) returns (r: Result<Ciudad>)
      requires store.Valid()
      requires freshId !in store.cities
      modifies store`cities
      ensures store.Valid()
      ensures r.Ok? <==> ciudad.pais in ValidCountries
      ensures r.Ok? ==> r.value == ciudad.(id := freshId)
      ensures r.Ok? ==> store.cities == old(store.cities)[freshId := r.value]
      ensures r.Ok? ==> |store.cities| == |old(store.cities)| + 1
      ensures r.Err? ==> r.exception == InvalidCountry && store.cities == old(store.cities)
    {
      var valid := ValidateCountry(ciudad.pais);
      if valid.Fail? {
        return Err(valid.exception);
      }
      var saved := ciudad.(id := freshId);
      store.cities := store.cities[freshId := saved];
      r := Ok(saved);
    }

    /**
     * Validates the country before looking the key up, so an invalid country
     * wins over a missing city; on success saves the shallow merge under the
     * same key and touches no other city.
     */
    method Update(id: Id, ciudad: CiudadPatch) returns (r: Result<Ciudad>)
      requires store.Valid()
      modifies store`cities
      ensures store.Valid()
      ensures ciudad.pais !in ValidCountries ==> r == Err(InvalidCountry)
      ensures ciudad.pais in ValidCountries && id !in old(store.cities) ==> r == Err(CityNotFound)
      ensures r.Err? ==> store.cities == old(store.cities)
      ensures ciudad.pais in ValidCountries && id in old(store.cities) ==>
                r == Ok(MergeCiudad(old(store.cities)[id], ciudad)) &&
                store.cities == old(store.cities)[id := r.value]
    {
      var valid := ValidateCountry(ciudad.pais);
      if valid.Fail? {
        return Err(valid.exception);
      }
      if id !in store.cities {
        return Err(CityNotFound);
      }
      var persisted := store.cities[id];
      var saved := MergeCiudad(persisted, ciudad);
      store.cities := store.cities[saved.id := saved];
      r := Ok(saved);
    }

    /** Removes exactly the city with this key, or fails with NotFound and removes nothing. */
    method Delete(id: Id) returns (r: Outcome)
      requires store.Valid()
      modifies store`cities
      ensures store.Valid()
      ensures r == Pass <==> id in old(store.cities)
      ensures r == Pass ==> store.cities == old(store.cities) - {id}
      ensures r != Pass ==> r == Fail(CityNotFound) && store.cities == old(store.cities)
    {
      if id !in store.cities {
        return Fail(CityNotFound);
      }
      var ciudad := store.cities[id];
      store.cities := store.cities - {ciudad.id};
      r := Pass;
    }
  }
}
