/** The house store (HouseCom/Repositories/HouseRepository.cs): the Houses table
    held as a map from key to record, with the identity seed that generates keys. */
module Repositories {
  import opened Wrappers
  import opened Models

  /** Whether a house passes an optional query filter; no filter admits every house. */
  predicate Admits(filter: Option<House -> bool>, h: House) {
    filter.None? || filter.value(h)
  }

  /** The record UpdateHouse leaves in the store: the timestamps take two clock
      readings, `updatedAt` (read first) and `createdAt` (read second), six fields
      come from the argument, and the stored key is kept. */
  function Updated(stored: House, house: House, updatedAt: DateTime, createdAt: DateTime): House {
    stored.(updatedDate := updatedAt, createdDate := createdAt,
            occupancy := house.occupancy, price := house.price, details := house.details,
            name := house.name, sqft := house.sqft, imageUrl := house.imageUrl)
  }

  /** The updated record has the stored key, the argument's six content fields and
      the two clock readings as timestamps; in particular the original creation date
      is lost. */
  lemma UpdatedFields(stored: House, house: House, updatedAt: DateTime, createdAt: DateTime)
    ensures var r := Updated(stored, house, updatedAt, createdAt);
      && r.id == stored.id
      && r.occupancy == house.occupancy && r.price == house.price
      && r.details == house.details && r.name == house.name
      && r.sqft == house.sqft && r.imageUrl == house.imageUrl
      && r.updatedDate == updatedAt && r.createdDate == createdAt
  {
  }

  /** Nothing of the stored record except its key survives an update. */
  lemma UpdatedForgetsStoredContent(s1: House, s2: House, house: House, updatedAt: DateTime, createdAt: DateTime)
    requires s1.id == s2.id
    ensures Updated(s1, house, updatedAt, createdAt) == Updated(s2, house, updatedAt, createdAt)
  {
  }

  /** The argument's key and timestamps are ignored. */
  lemma UpdatedIgnoresArgumentKeyAndDates(stored: House, h1: House, h2: House, updatedAt: DateTime, createdAt: DateTime)
    requires h1.(id := h2.id, createdDate := h2.createdDate, updatedDate := h2.updatedDate) == h2
    ensures Updated(stored, h1, updatedAt, createdAt) == Updated(stored, h2, updatedAt, createdAt)
  {
  }

  /** Repeating the same update with the same clock readings changes nothing further. */
  lemma UpdatedIdempotent(stored: House, house: House, updatedAt: DateTime, createdAt: DateTime)
    ensures Updated(Updated(stored, house, updatedAt, createdAt), house, updatedAt, createdAt)
            == Updated(stored, house, updatedAt, createdAt)
  {
  }

  class HouseRepository {
    /** The Houses table, by key. */
    var houses: map<int, House>
    /** The identity seed: the key the store generates for the next insert. */
    var nextId: int

    /** Every key was generated by the seed (they start at 1) and is the record's own Id. */
    ghost predicate Valid()
      reads this
    {
      && 1 <= nextId
      && forall id :: id in houses ==> 1 <= id < nextId && houses[id].id == id
    }

    constructor ()
      ensures Valid() && houses == map[] && nextId == 1
    {
      houses := map[];
      nextId := 1;
    }

    /** CreateHouse: inserts the house under a fresh store-generated key, which is
        written back into the returned record; every other field is the argument's. */
    method CreateHouse(house: House) returns (created: House)
      requires Valid()
      modifies this
      ensures Valid()
      ensures created.id !in old(houses)
      ensures created == house.(id := created.id)
      ensures houses == old(houses)[created.id := created]
      ensures |houses| == |old(houses)| + 1
      ensures old(nextId) < nextId
    {
      created := house.(id := nextId);
      houses := houses[nextId := created];
      nextId := nextId + 1;
    }

    /** DeleteHouse: removes the stored record that has the argument's key; the
        caller has fetched it first. Keys are never reused. */
    method DeleteHouse(house: House)
      requires Valid() && house.id in houses
      modifies this
      ensures Valid()
      ensures houses == old(houses) - {house.id}
      ensures |houses| == |old(houses)| - 1
      ensures nextId == old(nextId)
    {
      houses := houses - {house.id};
    }

    /** GetAllHouses: every stored record that passes the filter, each once, in the
        unspecified order of the table scan. */
    method GetAllHouses(filter: Option<House -> bool>) returns (r: seq<House>)
      requires Valid()
      ensures forall h :: h in r ==> h.id in houses && houses[h.id] == h && Admits(filter, h)
      ensures forall id :: id in houses && Admits(filter, houses[id]) ==> houses[id] in r
      ensures DistinctIds(r)
      ensures filter.None? ==> |r| == |houses|
    {
      var table := houses;
      r := [];
      var pending := table.Keys;
      while exists id :: id in pending
        invariant pending <= table.Keys
        invariant forall i :: 0 <= i < |r| ==> r[i].id in table && table[r[i].id] == r[i] && r[i].id !in pending
        invariant forall i :: 0 <= i < |r| ==> Admits(filter, r[i])
        invariant forall id :: id in table && id !in pending && Admits(filter, table[id]) ==> table[id] in r
        invariant DistinctIds(r)
        invariant filter.None? ==> |r| + |pending| == |table|
        decreases pending
      {
        var id :| id in pending;
        var h := table[id];
        if Admits(filter, h) {
          r := r + [h];
        }
        pending := pending - {id};
      }
    }

    /** GetHouse(id): the stored record with that key, or none. */
    method GetHouse(id: int) returns (r: Option<House>)
      requires Valid()
      ensures r.Some? <==> id in houses
      ensures r.Some? ==> r.value == houses[id] && r.value.id == id
    {
      if id in houses {
        r := Some(houses[id]);
      } else {
        r := None;
      }
    }

    /** GetHouse(filter): some stored record that passes the filter (which one, when
        several do, is up to the store), or none when no record passes. */
    method GetHouseWhere(filter: House -> bool) returns (r: Option<House>)
      requires Valid()
      ensures r.None? <==> forall id :: id in houses ==> !filter(houses[id])
      ensures r.Some? ==> r.value.id in houses && houses[r.value.id] == r.value && filter(r.value)
    {
      if exists id :: id in houses && filter(houses[id]) {
        var id :| id in houses && filter(houses[id]);
        r := Some(houses[id]);
      } else {
        r := None;
      }
    }

    /** UpdateHouse(id, house): no change and no result when the key is absent;
        otherwise the stored record becomes Updated(...) and is returned as re-read. */
    method UpdateHouse(id: int, house: House, updatedAt: DateTime, createdAt: DateTime)
      returns (r: Option<House>)
      requires Valid()
      modifies this
      ensures Valid()
      ensures nextId == old(nextId)
      ensures r.None? <==> id !in old(houses)
      ensures r.None? ==> houses == old(houses)
      ensures r.Some? ==> r.value == Updated(old(houses)[id], house, updatedAt, createdAt)
      ensures r.Some? ==> houses == old(houses)[id := r.value] && houses[id] == r.value
    {
      if id !in houses {
        return None;
      }
      var entity := houses[id];
      entity := entity.(updatedDate := updatedAt);
      entity := entity.(createdDate := createdAt);
      entity := entity.(occupancy := house.occupancy);
      entity := entity.(price := house.price);
      entity := entity.(details := house.details);
      entity := entity.(name := house.name);
      entity := entity.(sqft := house.sqft);
      entity := entity.(imageUrl := house.imageUrl);
      houses := houses[id := entity];
      r := GetHouse(id);
    }
  }

  /** A client of the store: create, read back, list and delete one house, checking what
      the contracts above promise about each step. */
  method CreateReadDeleteScenario(repo: HouseRepository, house: House)
    requires repo.Valid()
    modifies repo
    ensures repo.Valid() && repo.houses == old(repo.houses)
  {
    var before := repo.GetAllHouses(None);
    var created := repo.CreateHouse(house);
    var after := repo.GetAllHouses(None);
    assert |after| == |before| + 1;
    var found := repo.GetHouse(created.id);
    assert found == Some(created);
    repo.DeleteHouse(created);
    found := repo.GetHouse(created.id);
    assert found == None;
    var final := repo.GetAllHouses(None);
    assert |final| == |before|;
  }
}
