/**
 * The relational store behind the services: one table of cities and one of
 * supermarkets, each keyed by primary key, as the TypeORM repositories that
 * the services receive by injection.
 */
module Persistence {
  import opened Entities

  class Store {
    var cities: map<Id, Ciudad>
    var markets: map<Id, Supermercado>

    /** Every row sits under its own primary key. */
    ghost predicate Valid()
      reads this
    {
      CitiesKeyed(cities) && MarketsKeyed(markets)
    }

    constructor (cities: map<Id, Ciudad>, markets: map<Id, Supermercado>)
      requires CitiesKeyed(cities) && MarketsKeyed(markets)
      ensures Valid()
      ensures this.cities == cities && this.markets == markets
    {
      this.cities := cities;
      this.markets := markets;
    }
  }

  /**
   * `repository.find()`: every row of a table, one entry per primary key, in
   * the order the store enumerates them.
   */
  method TableRows<T(==)>(table: map<Id, T>) returns (rows: seq<T>)
    ensures |rows| == |table|
    ensures forall k :: k in table ==> table[k] in rows
    ensures forall i :: 0 <= i < |rows| ==> rows[i] in table.Values
  {
    var pending := table.Keys;
    rows := [];
    while pending != {}
      invariant pending <= table.Keys
      invariant |rows| + |pending| == |table|
      invariant forall k :: k in table && k !in pending ==> table[k] in rows
      invariant forall i :: 0 <= i < |rows| ==> rows[i] in table.Values
      decreases |pending|
    {
      var k :| k in pending;
      rows := rows + [table[k]];
      pending := pending - {k};
    }
  }
}
