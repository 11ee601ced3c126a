/** The House entity (HouseCom/Models/House.cs) and the create request
    (HouseCom/Models/DTO/HouseCreateDTO.cs). */
module Models {
  import opened Linq

  /** A DateTime, as a tick count. */
  type DateTime = int

  /** The price is a double that the core only copies; no arithmetic is done on it. */
  type Price = real

  /** One row of the Houses table. `id` is the identity key the store generates. */
  datatype House = House(
    id: int,
    name: string,
    details: string,
    price: Price,
    sqft: int,
    occupancy: int,
    imageUrl: string,
    createdDate: DateTime,
    updatedDate: DateTime)

  /** The create request: every field of a House except the key. */
  datatype HouseCreateDto = HouseCreateDto(
    name: string,
    details: string,
    price: Price,
    sqft: int,
    occupancy: int,
    imageUrl: string,
    createdDate: DateTime,
    updatedDate: DateTime)

  /** The mapping from a create request to a House: shared fields are copied and
      the key keeps its default 0 until the store assigns one. */
  function FromCreateDto(dto: HouseCreateDto): House {
    House(0, dto.name, dto.details, dto.price, dto.sqft, dto.occupancy, dto.imageUrl,
          dto.createdDate, dto.updatedDate)
  }

  /** No two houses of the list share a key. */
  predicate DistinctIds(s: seq<House>) {
    forall i, j :: 0 <= i < j < |s| ==> s[i].id != s[j].id
  }

  /** Filtering a list with distinct keys keeps the keys distinct. */
  lemma {:induction false} WhereKeepsDistinctIds(s: seq<House>, p: House -> bool)
    requires DistinctIds(s)
    ensures DistinctIds(Where(s, p))
  {
    if s != [] {
      var rest := Where(s[1..], p);
      WhereKeepsDistinctIds(s[1..], p);
      WhereMembers(s[1..], p);
      if p(s[0]) {
        forall k | 0 <= k < |rest|
          ensures rest[k].id != s[0].id
        {
          assert rest[k] in s[1..];
          var m :| 0 <= m < |s[1..]| && s[1..][m] == rest[k];
          assert s[m + 1] == rest[k];
        }
        assert Where(s, p) == [s[0]] + rest;
      } else {
        assert Where(s, p) == rest;
      }
    }
  }
}
