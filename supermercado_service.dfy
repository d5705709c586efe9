/**
 * Supermarket CRUD (src/supermercado/supermercado.service.ts): the same shape
 * as the city service, with a strict name-length rule instead of the
 * country allow-list.
 */
module SupermarketService {
  import opened Entities
  import opened Persistence

  /** A name must be strictly longer than this. */
  const MinNameLength: nat := 10

  /**
   * JavaScript's `string.length`: the number of UTF-16 code units, so a
   * character outside the Basic Multilingual Plane counts twice.
   */
  function Utf16Length(s: string): (n: nat)
    ensures |s| <= n <= 2 * |s|
    ensures (forall i :: 0 <= i < |s| ==> s[i] as int < 0x1_0000) ==> n == |s|
  {
    if s == [] then 0
    else (if s[0] as int < 0x1_0000 then 1 else 2) + Utf16Length(s[1..])
  }

  /** Rejects exactly the names of at most ten UTF-16 code units. */
  function ValidateNameLength(nombre: string): (r: Outcome)
    ensures r == Pass <==> Utf16Length(nombre) > 10
    ensures r != Pass ==> r == Fail(InvalidName)
  {
    if Utf16Length(nombre) <= MinNameLength then Fail(InvalidName) else Pass
  }

  /** A ten-character name is one too short: the rule is strict. */
  lemma TenCharactersRejected()
    ensures ValidateNameLength("lessthan10") == Fail(InvalidName)
    ensures ValidateNameLength("more than 10 chara.") == Pass
  {
  }

  /**
   * The payload of an update. The name is always read (it is validated), the
   * other fields may be absent, and an absent field keeps its stored value.
   * The primary key comes from the request path, never from the payload.
   */
  datatype SupermercadoPatch = SupermercadoPatch(
    nombre: string,
    longitud: Option<Coordinate>,
    latitud: Option<Coordinate>,
    web: Option<string>)

  /** `{...persisted, ...patch}`: the shallow merge that update saves. */
  function MergeSupermercado(persisted: Supermercado, patch: SupermercadoPatch): (r: Supermercado)
    ensures r.id == persisted.id
    ensures r.nombre == patch.nombre
  {
    Supermercado(
      persisted.id,
      patch.nombre,
      Overlay(patch.longitud, persisted.longitud),
      Overlay(patch.latitud, persisted.latitud),
      Overlay(patch.web, persisted.web))
  }

  /** The payload that carries every field of a supermarket. */
  function FullPatch(m: Supermercado): (p: SupermercadoPatch)
    ensures p.nombre == m.nombre
  {
    SupermercadoPatch(m.nombre, Some(m.longitud), Some(m.latitud), Some(m.web))
  }

  /** Applying the same payload twice stores what applying it once stores. */
  lemma MergeSupermercadoIdempotent(persisted: Supermercado, patch: SupermercadoPatch)
    ensures MergeSupermercado(MergeSupermercado(persisted, patch), patch) == MergeSupermercado(persisted, patch)
  {
  }

  /** A payload that supplies every field overwrites the whole record except its key. */
  lemma MergeFullPatch(persisted: Supermercado, m: Supermercado)
    requires persisted.id == m.id
    ensures MergeSupermercado(persisted, FullPatch(m)) == m
  {
  }

  /** A payload with only the name changes the name and keeps every other stored field. */
  lemma MergeNameOnly(persisted: Supermercado, nombre: string)
    ensures MergeSupermercado(persisted, SupermercadoPatch(nombre, None, None, None)) == persisted.(nombre := nombre)
  {
  }

  /** SupermercadoService with its injected supermarket repository. */
  class SupermercadoService {
    const store: Store

    constructor (store: Store)
      ensures this.store == store
    {
      this.store := store;
    }

    /** Every stored supermarket, each once. */
    method FindAll() returns (r: seq<Supermercado>)
      requires store.Valid()
      ensures |r| == |store.markets|
      ensures forall id :: id in store.markets ==> store.markets[id] in r
      ensures forall i :: 0 <= i < |r| ==> r[i].id in store.markets && store.markets[r[i].id] == r[i]
    {
      r := TableRows(store.markets);
      forall i | 0 <= i < |r|
        ensures r[i].id in store.markets && store.markets[r[i].id] == r[i]
      {
        var k :| k in store.markets && store.markets[k] == r[i];
      }
    }

    /** The stored supermarket with this key, or NotFound. */
    method FindOne(id: Id) returns (r: Result<Supermercado>)
      requires store.Valid()
      ensures r.Ok? <==> id in store.markets
      ensures r.Ok? ==> r.value == store.markets[id] && r.value.id == id
      ensures r.Err? ==> r.exception == MarketNotFound
    {
      if id !in store.markets {
        return Err(MarketNotFound);
      }
      r := Ok(store.markets[id]);
    }

    /**
     * Validates the name, then saves the supermarket under the fresh key the
     * store generates (`freshId`, the uuid column default). Nothing is stored
     * on failure.
     */
    method Create(supermercado: Supermercado, freshId: Id) returns (r: Result<Supermercado>)
      requires store.Valid()
      requires freshId !in store.markets
      modifies store`markets
      ensures store.Valid()
      ensures r.Ok? <==> Utf16Length(supermercado.nombre) > 10
      ensures r.Ok? ==> r.value == supermercado.(id := freshId)
      ensures r.Ok? ==> store.markets == old(store.markets)[freshId := r.value]
      ensures r.Ok? ==> |store.markets| == |old(store.markets)| + 1
      ensures r.Err? ==> r.exception == InvalidName && store.markets == old(store.markets)
    {
      var valid := ValidateNameLength(supermercado.nombre);
      if valid.Fail? {
        return Err(valid.exception);
      }
      var saved := supermercado.(id := freshId);
      store.markets := store.markets[freshId := saved];
      r := Ok(saved);
    }

    /**
     * Validates the name before looking the key up, so a short name wins over
     * a missing supermarket; on success saves the shallow merge under the same
     * key and touches no other supermarket.
     */
    method Update(id: Id, supermercado: SupermercadoPatch) returns (r: Result<Supermercado>)
      requires store.Valid()
      modifies store`markets
      ensures store.Valid()
      ensures Utf16Length(supermercado.nombre) <= 10 ==> r == Err(InvalidName)
      ensures Utf16Length(supermercado.nombre) > 10 && id !in old(store.markets) ==> r == Err(MarketNotFound)
      ensures r.Err? ==> store.markets == old(store.markets)
      ensures Utf16Length(supermercado.nombre) > 10 && id in old(store.markets) ==>
                r == Ok(MergeSupermercado(old(store.markets)[id], supermercado)) &&
                store.markets == old(store.markets)[id := r.value]
    {
      var valid := ValidateNameLength(supermercado.nombre);
      if valid.Fail? {
        return Err(valid.exception);
      }
      if id !in store.markets {
        return Err(MarketNotFound);
      }
      var persisted := store.markets[id];
      var saved := MergeSupermercado(persisted, supermercado);
      store.markets := store.markets[saved.id := saved];
      r := Ok(saved);
    }

    /** Removes exactly the supermarket with this key, or fails with NotFound and removes nothing. */
    method Delete(id: Id) returns (r: Outcome)
      requires store.Valid()
      modifies store`markets
      ensures store.Valid()
      ensures r == Pass <==> id in old(store.markets)
      ensures r == Pass ==> store.markets == old(store.markets) - {id}
      ensures r != Pass ==> r == Fail(MarketNotFound) && store.markets == old(store.markets)
    {
      if id !in store.markets {
        return Fail(MarketNotFound);
      }
      var supermercado := store.markets[id];
      store.markets := store.markets - {supermercado.id};
      r := Pass;
    }
  }
}
