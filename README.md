# City and supermarket backend — a Dafny model of its three services

The backend keeps two tables, cities (`CiudadEntity`) and supermarkets
(`SupermercadoEntity`). A city owns an ordered list of supermarkets. Three
NestJS services sit on top of the TypeORM repositories:

- `CiudadService` does city CRUD. Writes are guarded by the country allow-list
  {Argentina, Ecuador, Paraguay}.
- `SupermercadoService` does supermarket CRUD. Writes are guarded by a strict
  name-length rule: more than 10 characters.
- `CiudadSupermercadoService` manages a city's `supermercados` list. It can
  append an entry, look one up, list all, replace the whole list, and remove
  entries by key.

Every operation either returns a value or throws a `BusinessLogicException`.
The exception has a verbatim message and one of two kinds, `NotFound` or
`PreconditionFailed`.

Files:

- `entities.dfy` (module `Entities`): the two records as datatypes, the
  exception and its five messages, and `Result`/`Outcome` standing for "returns
  or throws". Keys are opaque strings. Longitude and latitude are an opaque
  type, because no service computes with them.
- `persistence.dfy` (module `Persistence`): the `Store` class with the two
  tables as `map<Id, …>` fields. Its invariant `Valid()` says every row is
  stored under its own key. `TableRows` stands for `repository.find()`.
- `ciudad_service.dfy`, `supermercado_service.dfy`,
  `ciudad_supermercado_service.dfy`: one module per service, each with the
  service class. A class holds the injected store, and its methods perform the
  source's checks in the source's order. Mutating methods change only the
  table the service writes (`modifies store`cities` or `store`markets`). Each
  one states its whole new state, so "nothing else changes" and "a failing call
  saves nothing" are part of its contract. The pure helpers (allow-list
  membership, UTF-16 length, the shallow merge, `find`, `filter`) are
  functions, with lemmas about them.
- `scenarios.dfy` (module `Scenarios`): callers that chain service calls.
  These are the multi-call properties: add then find, delete then find,
  replace then list, and create city and supermarket then associate them.
  They are proved from the service contracts and the list lemmas.

Two rules one might expect of the stored data are "every city's country is in
the allow-list" and "a city lists each supermarket once".

- The services enforce the allow-list only for cities written by
  `create`/`update`. Rows stored by other means keep any country.
- The service code never checks for duplicate supermarkets: `addSupermarketToCity`
  appends without looking for an existing entry, and `AppendAssociatedDuplicates`
  proves that the array it builds then holds the key twice. The schema, not the
  service, rules duplicates out. The relation is one-to-many, and its foreign key
  is a column of the supermarket row (src/supermercado/supermercado.entity.ts:21-22,
  src/ciudad/ciudad.entity.ts:18-19). So every list a city is loaded with has
  distinct keys, and a supermarket sits in at most one city's list. The
  duplicate exists only in the array that the add call returns.
- The model stores lists as the services assign them, so `DistinctIds` is a
  hypothesis of the lemmas that need it, not an invariant of the store. On every
  list the real program reads, it holds.
- `deleteSupermarketFromCity` filters out every entry with the key. On a list
  with distinct keys, which is every list the database loads, that is exactly
  one entry (`WithoutRemovesOne`).

## Model

| member | source | states |
|---|---|---|
| `Entities.FreshIdExists` | src/ciudad/ciudad.entity.ts:6-7 | for any set of keys in use there is an unused key, so the generated-key precondition of `create` can always be met |
| `Persistence.TableRows` | src/ciudad/ciudad.service.ts:19-21 | `repository.find()` yields one entry per stored key: the result has the table's size, contains every stored row, and contains nothing else |
| `CityService.ValidateCountry` | src/ciudad/ciudad.service.ts:36-43 | passes exactly for "Argentina", "Ecuador" and "Paraguay" (exact string membership in the constant list of line 10); anything else fails with PreconditionFailed "El país indicado no es valido" |
| `CityService.MergeCiudad` | src/ciudad/ciudad.service.ts:61 | the saved record keeps the persisted key and carries the validated country of the payload |
| `CityService.MergeCiudadIdempotent` | src/ciudad/ciudad.service.ts:61 | saving the same payload twice stores what saving it once stores |
| `CityService.MergeFullPatch` | src/ciudad/ciudad.service.ts:61 | a payload that carries every field overwrites the whole record except the key |
| `CityService.MergeCountryOnly` | src/ciudad/ciudad.service.ts:61 | a payload with only the country changes the country and keeps every other stored field |
| `CityService.CiudadService.FindAll` | src/ciudad/ciudad.service.ts:19-21 | returns every stored city exactly once: length equals the table size, each stored city appears, each returned city is the one stored under its key |
| `CityService.CiudadService.FindOne` | src/ciudad/ciudad.service.ts:23-34 | succeeds exactly when the key is stored and returns that row; otherwise NotFound "La ciudad con el id dado no fue encontrada"; reads only |
| `CityService.CiudadService.Create` | src/ciudad/ciudad.service.ts:45-48 | succeeds exactly when the country is allowed; then adds one row under the fresh key with the supplied fields and keeps all other rows; otherwise PreconditionFailed and the table is unchanged |
| `CityService.CiudadService.Update` | src/ciudad/ciudad.service.ts:50-62 | the country is checked before the key, so an invalid country wins over a missing city; on success only that key's row changes, to the shallow merge; every failure leaves the table unchanged |
| `CityService.CiudadService.Delete` | src/ciudad/ciudad.service.ts:64-75 | succeeds exactly when the key is stored and then removes exactly that key; otherwise NotFound and the table is unchanged |
| `SupermarketService.Utf16Length` | src/supermercado/supermercado.service.ts:38 | JavaScript `length` counts UTF-16 code units: between the number of characters and twice it, and equal to it for Basic Multilingual Plane text |
| `SupermarketService.ValidateNameLength` | src/supermercado/supermercado.service.ts:37-44 | passes exactly when the name is longer than 10 code units (`MIN_NAME_LENGTH`, line 10); otherwise PreconditionFailed "El nombre debe tener más de 10 caracteres" |
| `SupermarketService.TenCharactersRejected` | src/supermercado/supermercado.service.spec.ts:80-118 | the 10-character "lessthan10" is rejected and "more than 10 chara." is accepted: the bound is strict |
| `SupermarketService.MergeSupermercado` | src/supermercado/supermercado.service.ts:66-69 | the saved record keeps the persisted key and carries the validated name of the payload |
| `SupermarketService.MergeSupermercadoIdempotent` | src/supermercado/supermercado.service.ts:66-69 | saving the same payload twice stores what saving it once stores |
| `SupermarketService.MergeNameOnly` | src/supermercado/supermercado.service.ts:66-69 | a payload with only the name changes the name and keeps the stored longitude, latitude and web: fields absent from the payload keep their values |
| `SupermarketService.MergeFullPatch` | src/supermercado/supermercado.service.ts:66-69 | a payload that carries every field overwrites the whole record except the key |
| `SupermarketService.SupermercadoService.FindAll` | src/supermercado/supermercado.service.ts:19-21 | returns every stored supermarket exactly once; its length equals the table size |
| `SupermarketService.SupermercadoService.FindOne` | src/supermercado/supermercado.service.ts:23-35 | succeeds exactly when the key is stored and returns that row; otherwise NotFound "El supermercado con el id dado no fue encontrado"; reads only |
| `SupermarketService.SupermercadoService.Create` | src/supermercado/supermercado.service.ts:46-49 | succeeds exactly when the name is long enough; then adds one row under the fresh key with the supplied fields and keeps the others; otherwise stores nothing |
| `SupermarketService.SupermercadoService.Update` | src/supermercado/supermercado.service.ts:51-70 | the name is checked before the key, so a short name on a missing key gives PreconditionFailed, not NotFound; on success only that key's row changes, to the shallow merge; failures change nothing |
| `SupermarketService.SupermercadoService.Delete` | src/supermercado/supermercado.service.ts:72-84 | removes exactly the given key and keeps all other rows, or fails with NotFound and changes nothing |
| `CityMarketService.Find` | src/ciudad-supermercado/ciudad-supermercado.service.ts:77-79 | `find` returns nothing exactly when no entry has the key; otherwise it returns an entry with the key, and no earlier entry has that key |
| `CityMarketService.Without` | src/ciudad-supermercado/ciudad-supermercado.service.ts:121-123 | `filter` keeps no entry with the key, keeps every entry without it, and adds nothing |
| `CityMarketService.WithoutDistributes` | src/ciudad-supermercado/ciudad-supermercado.service.ts:121-123 | filtering distributes over concatenation, so the remaining entries keep their relative order |
| `CityMarketService.WithoutAbsent` | src/ciudad-supermercado/ciudad-supermercado.service.ts:121-123 | filtering a key that no entry carries returns the list unchanged |
| `CityMarketService.WithoutRemovesOne` | src/ciudad-supermercado/ciudad-supermercado.service.ts:121-123 | on a list with distinct keys, removing an associated supermarket shortens the list by exactly one |
| `CityMarketService.WithoutKeepsDistinct` | src/ciudad-supermercado/ciudad-supermercado.service.ts:121-123 | filtering preserves distinct keys |
| `CityMarketService.FindAfterWithout` | src/ciudad-supermercado/ciudad-supermercado.service.ts:111-123 | after the filter, `find` for that key returns nothing, so a later lookup reports "not associated" |
| `CityMarketService.FindAfterAppend` | src/ciudad-supermercado/ciudad-supermercado.service.ts:30 | after the append, `find` for the appended key succeeds; it returns the appended supermarket when no entry had its key before |
| `CityMarketService.AppendAssociatedDuplicates` | src/ciudad-supermercado/ciudad-supermercado.service.ts:30 | the array built by the append holds the key twice when the supermarket was already in the list (the schema removes such a duplicate on save; see "## Left out") |
| `CityMarketService.AppendNewKeepsDistinct` | src/ciudad-supermercado/ciudad-supermercado.service.ts:30 | appending a supermarket that is not yet in the list keeps the keys distinct |
| `CityMarketService.CiudadSupermercadoService.GetSupermarketBySupermarketId` | src/ciudad-supermercado/ciudad-supermercado.service.ts:35-46 | resolves the stored supermarket for the key, or NotFound "El supermercado con el id dado no fue encontrado" |
| `CityMarketService.CiudadSupermercadoService.GetCityByCityId` | src/ciudad-supermercado/ciudad-supermercado.service.ts:48-59 | resolves the stored city, with its list, for the key, or NotFound "La ciudad con el id dado no fue encontrada" |
| `CityMarketService.CiudadSupermercadoService.AddSupermarketToCity` | src/ciudad-supermercado/ciudad-supermercado.service.ts:21-33 | a missing supermarket wins over a missing city; it succeeds exactly when both exist; then the city's list is the old list with the supermarket appended at the end (length plus one) and no other city changes; failures change nothing |
| `CityMarketService.CiudadSupermercadoService.FindSupermarketsFromCity` | src/ciudad-supermercado/ciudad-supermercado.service.ts:61-66 | returns exactly the city's stored list, or NotFound for a missing city; reads only |
| `CityMarketService.CiudadSupermercadoService.FindSupermarketFromCity` | src/ciudad-supermercado/ciudad-supermercado.service.ts:68-88 | supermarket checked before city; succeeds exactly when both exist and the list holds the key, returning the first such entry; an existing but unlisted supermarket gives PreconditionFailed "El supermercado con el id dado no esta asociado a la ciudad" |
| `CityMarketService.CiudadSupermercadoService.UpdateSupermarketsFromCity` | src/ciudad-supermercado/ciudad-supermercado.service.ts:90-102 | city checked first, then every supplied key; succeeds exactly when all resolve, and then the city's list is exactly the supplied list; a missing key gives NotFound and saves nothing |
| `CityMarketService.CiudadSupermercadoService.DeleteSupermarketFromCity` | src/ciudad-supermercado/ciudad-supermercado.service.ts:104-125 | supermarket, then city, then association are checked in that order; it succeeds exactly when all three hold, and then the list is the filter of the old one by the key; failures change nothing |
| `Scenarios.CreateCityAndSupermarketThenAdd` | src/ciudad-supermercado/ciudad-supermercado.service.spec.ts:73-88 | a city created with an allowed country, a supermarket created with a long name, then associated: the city's list is exactly that one supermarket with its created fields |
| `Scenarios.AddThenFind` | src/ciudad-supermercado/ciudad-supermercado.service.ts:21-88 | after a successful add the lookup of the same pair succeeds, returning the stored supermarket if it was not associated before; after a failed add the lookup fails with the same error |
| `Scenarios.DeleteThenFind` | src/ciudad-supermercado/ciudad-supermercado.service.ts:68-125 | after a successful removal the lookup fails with "not associated", and with distinct keys exactly one entry went away; after a failed removal the lookup fails with the same error |
| `Scenarios.ReplaceThenList` | src/ciudad-supermercado/ciudad-supermercado.service.ts:61-102 | after a successful replacement, listing the city returns exactly the supplied list |

## Left out

- HTTP routing, status codes and the interceptor that maps NotFound to 404 and PreconditionFailed to 412 are not modelled. The same holds for `plainToInstance` conversion and the `class-validator` decorators on the DTO. All of these are plumbing outside the services.
- `async`/`await` and the window between resolving and saving are not modelled. Each operation is an atomic sequential method.
- Key generation (`PrimaryGeneratedColumn('uuid')`) is not modelled. `Create` takes the new key as an argument that must be unused. `FreshIdExists` shows that such a key always exists. Both `Create` methods ignore any `id` the payload carries, whereas `save` would upsert on a non-empty one.
- How TypeORM writes the one-to-many foreign key on `save` is not modelled. A city's list holds the supermarket records as the service assigned them. It is not re-read from the supermarket table, so a later supermarket update or delete does not show in it. The model's stored list can also keep duplicate keys, after adding an associated supermarket again. It can also keep one supermarket in two cities' lists. The database collapses both, because the foreign key is a single column on the supermarket row.
- The `ciudad` back-reference of a supermarket is not modelled.
- The `bigint` storage of `habitantes` is not modelled; it is an unbounded integer.
- Longitude and latitude are not modelled as floats. They are opaque values that are only copied.
- CityService.CiudadService.FindOne: returns the stored record with its supermarket list. The source loads no relation on this path, so its result has no list.
- CityService.CiudadService.FindAll: returns rows in the store's enumeration order. The order of the SQL query is not modelled.
- SupermarketService.SupermercadoService.FindAll: the order of the SQL query is not modelled, and neither is the eager load of `ciudad`.
- CityService.CiudadService.Update: merges onto the stored record including its supermarket list. The source loads `persistedCiudad` without relations, so the record it saves and returns has no list unless the payload carries one.
- CityService.CiudadService.Update: a payload `id` is not modelled. The key from the path decides the row. A spread payload carrying a different `id` would make `save` write another row.
- SupermarketService.SupermercadoService.Update: a payload `id` is not modelled, as for the city update.
- A payload without the validated field is not modelled: the update payloads always carry `pais` or `nombre`. In the source a missing name raises a JavaScript `TypeError` before validation.
