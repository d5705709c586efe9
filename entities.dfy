/**
 * The two persisted entities of the city/supermarket backend, the errors its
 * services throw, and the small result types that stand for "returns a value
 * or throws".
 */
module Entities {

  /** Primary keys are server-generated UUID strings; the model treats them as opaque. */
  type Id = string

  /**
   * Longitude and latitude are floating-point columns that no service ever
   * compares or computes with, so they are carried as opaque values.
   */
  type Coordinate(==)

  /** A row of the supermarket table (src/supermercado/supermercado.entity.ts). */
  datatype Supermercado = Supermercado(
    id: Id,
    nombre: string,
    longitud: Coordinate,
    latitud: Coordinate,
    web: string)

  /**
   * A row of the city table (src/ciudad/ciudad.entity.ts). The one-to-many
   * relation is the list of supermarkets as the services load and assign it.
   */
  datatype Ciudad = Ciudad(
    id: Id,
    nombre: string,
    pais: string,
    habitantes: int,
    supermercados: seq<Supermercado>)

  datatype Option<T> = None | Some(value: T)

  /**
   * One field of an object spread `{...persisted, ...supplied}`: a field the
   * supplied object carries wins, an absent one keeps the persisted value.
   */
  function Overlay<T>(supplied: Option<T>, persisted: T): T {
    if supplied.Some? then supplied.value else persisted
  }

  /** The two error kinds a service may raise. */
  datatype BusinessError = NotFound | PreconditionFailed

  /** What a service throws: a human-readable message and its kind. */
  datatype BusinessLogicException = BusinessLogicException(message: string, error: BusinessError)

  /** The outcome of a service call that returns a value. */
  datatype Result<T> = Ok(value: T) | Err(exception: BusinessLogicException)

  /** The outcome of a service call (or a validator) that returns nothing. */
  datatype Outcome = Pass | Fail(exception: BusinessLogicException)

  const CityNotFound := BusinessLogicException("La ciudad con el id dado no fue encontrada", NotFound)
  const MarketNotFound := BusinessLogicException("El supermercado con el id dado no fue encontrado", NotFound)
  const MarketNotAssociated :=
    BusinessLogicException("El supermercado con el id dado no esta asociado a la ciudad", PreconditionFailed)
  const InvalidCountry := BusinessLogicException("El país indicado no es valido", PreconditionFailed)
  const InvalidName := BusinessLogicException("El nombre debe tener más de 10 caracteres", PreconditionFailed)

  /** A table is well formed when every row is stored under its own primary key. */
  ghost predicate CitiesKeyed(t: map<Id, Ciudad>) {
    forall k :: k in t ==> t[k].id == k
  }

  ghost predicate MarketsKeyed(t: map<Id, Supermercado>) {
    forall k :: k in t ==> t[k].id == k
  }

  /**
   * Whatever ids are in use, an unused one exists: the uuid generator behind
   * `create` can always deliver a fresh key. The witness is longer than every key.
   */
  lemma {:induction false} FreshIdExists(used: set<Id>) returns (id: Id)
    ensures id !in used
    ensures forall k :: k in used ==> |k| < |id|
  {
    if used == {} {
      id := "";
    } else {
      var k :| k in used;
      var shorter := FreshIdExists(used - {k});
      id := if |k| < |shorter| then shorter else k + "-";
    }
  }
}
