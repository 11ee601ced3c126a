/** The decision logic of HouseCom/Controllers/HousesController.cs: which result each
    action returns for which id, request body and store content, and how each action
    changes the shared APIResponse and the store. */
module Controllers {
  import opened Wrappers
  import opened Models
  import opened Text
  import opened Linq
  import Http
  import opened Repositories
  import Error

  /** What APIResponse.Result holds. */
  datatype Payload = NoResult | OneHouse(house: House) | HouseList(houses: seq<House>)

  /** The response envelope every action fills in. */
  datatype ApiResponse = ApiResponse(
    result: Payload,
    statusCode: int,
    isSuccess: bool,
    errorMessages: seq<string>)

  /** `new APIResponse()`: no result, status 0, success, no errors. */
  const NewApiResponse := ApiResponse(NoResult, 0, true, [])

  /** The action results the controller returns. `Plain` is `return _response;`,
      which the framework sends with HTTP status 200 whatever the envelope's StatusCode says;
      OkObject is 200, the BadRequest forms 400 and the NotFound forms 404. */
  datatype ActionResult =
    | OkObject(body: ApiResponse)
    | BadRequestEmpty
    | BadRequestObject(body: ApiResponse)
    | BadRequestModelState(errors: seq<(string, string)>)
    | NotFoundEmpty
    | NotFoundObject(body: ApiResponse)
    | Plain(body: ApiResponse)

  /** The catch block shared by the actions: the response is marked failed and carries
      exactly the one message ex.ToString(); its Result and StatusCode stay as they were. */
  function Failed(response: ApiResponse, e: Error.Exception): (r: ApiResponse)
    ensures !r.isSuccess && |r.errorMessages| == 1 && r.errorMessages[0] == Error.ErrorText(e)
    ensures r.result == response.result && r.statusCode == response.statusCode
  {
    response.(isSuccess := false, errorMessages := [Error.ErrorText(e)])
  }

  /** The exception a member access on a null request body raises (the exact type that
      reaches the catch block depends on the query provider; contracts do not rely on it). */
  const NullReference := Error.Exception(
    Error.OtherType("NullReferenceException"),
    [Error.OtherType("SystemException"), Error.OtherType("Exception")],
    "Object reference not set to an instance of an object.",
    None, None, None, None)

  /** The repository query for `occupancy > 0`: a nullable int compares false when null,
      so only a positive occupancy filters, and then on equality. */
  function OccupancyFilter(occupancy: Option<int>): (f: Option<House -> bool>)
    ensures f.Some? <==> occupancy.Some? && occupancy.value > 0
    ensures forall h :: Admits(f, h) <==> (occupancy.Some? && occupancy.value > 0 ==> h.occupancy == occupancy.value)
  {
    if occupancy.Some? && occupancy.value > 0 then Some((h: House) => h.occupancy == occupancy.value) else None
  }

  /** The name search: the lower-cased name contains the search text as given. */
  predicate NameMatches(search: string, h: House) {
    Contains(ToLower(h.name), search)
  }

  /** The empty search occurs in every name, so filtering by it keeps every house in
      order; skipping the filter for an empty search therefore changes nothing. */
  lemma {:induction false} EmptySearchKeepsAll(s: seq<House>)
    ensures Where(s, (h: House) => NameMatches("", h)) == s
  {
    if s != [] {
      ContainsEmpty(ToLower(s[0].name));
      EmptySearchKeepsAll(s[1..]);
    }
  }

  /** Because only the name is lower-cased, a search text with an upper-case letter
      matches no house at all. */
  lemma SearchWithUpperCaseMatchesNothing(search: string, h: House, j: int)
    requires 0 <= j < |search| && IsUpper(search[j])
    ensures !NameMatches(search, h)
  {
  }

  /** The key lookup `u => u.Id == id`. */
  function ById(id: int): House -> bool {
    (h: House) => h.id == id
  }

  /** The duplicate check `u => u.Name.ToLower() == name.ToLower()`. */
  function SameNameIgnoringCase(name: string): House -> bool {
    (h: House) => EqualsIgnoreCase(h.name, name)
  }

  /** Some stored house has this name, ignoring case. */
  predicate NameTaken(houses: map<int, House>, name: string) {
    exists id :: id in houses && EqualsIgnoreCase(houses[id].name, name)
  }

  /** The store after UpdateHouse(house.Id, house): the record under the body's key,
      if there is one, is updated; otherwise nothing changes. */
  function AfterUpdate(houses: map<int, House>, house: House, updatedAt: DateTime, createdAt: DateTime)
    : map<int, House>
  {
    if house.id in houses then houses[house.id := Updated(houses[house.id], house, updatedAt, createdAt)]
    else houses
  }

  class HousesController {
    /** The injected repository. */
    const repo: HouseRepository
    /** `_response`, shared by the actions of one controller instance. */
    var response: ApiResponse

    ghost predicate Valid()
      reads this, repo
    {
      repo.Valid()
    }

    constructor (repo: HouseRepository)
      ensures this.repo == repo && response == NewApiResponse
    {
      this.repo := repo;
      response := NewApiResponse;
    }

    /** GET api/Houses. `fault` is the exception the store raises, if it fails.
        The list holds exactly the stored houses that pass the occupancy filter and,
        for a non-empty search, the name search; the store is left as it is. */
    method GetHouses(occupancy: Option<int>, search: Option<string>, fault: Option<Error.Exception>)
      returns (r: ActionResult)
      requires Valid()
      modifies this
      ensures fault.Some? ==> response == Failed(old(response), fault.value) && r == Plain(response)
      ensures fault.None? ==> r == OkObject(response) && response.statusCode == Http.OK
      ensures fault.None? ==>
                response.isSuccess == old(response).isSuccess && response.errorMessages == old(response).errorMessages
      ensures fault.None? ==> response.result.HouseList? && DistinctIds(response.result.houses)
      ensures fault.None? ==> forall h :: h in response.result.houses <==>
                && h.id in repo.houses && repo.houses[h.id] == h
                && (occupancy.Some? && occupancy.value > 0 ==> h.occupancy == occupancy.value)
                && (search.Some? && search.value != "" ==> NameMatches(search.value, h))
    {
      if fault.Some? {
        response := Failed(response, fault.value);
        return Plain(response);
      }
      var houseList := repo.GetAllHouses(OccupancyFilter(occupancy));
      if search.Some? && search.value != "" {
        var matches := (h: House) => NameMatches(search.value, h);
        WhereMembers(houseList, matches);
        WhereKeepsDistinctIds(houseList, matches);
        houseList := Where(houseList, matches);
      }
      response := response.(result := HouseList(houseList), statusCode := Http.OK);
      r := OkObject(response);
    }

    /** GET api/Houses/{id}: 400 for id 0 without consulting the store, 404 when no
        house has the id, otherwise 200 with that house. */
    method GetHouse(id: int, fault: Option<Error.Exception>) returns (r: ActionResult)
      requires Valid()
      modifies this
      ensures id == 0 ==>
                response == old(response).(statusCode := Http.BadRequest) && r == BadRequestObject(response)
      ensures id != 0 && fault.Some? ==> response == Failed(old(response), fault.value) && r == Plain(response)
      ensures id != 0 && fault.None? && id !in repo.houses ==>
                response == old(response).(statusCode := Http.NotFound) && r == NotFoundObject(response)
      ensures id != 0 && fault.None? && id in repo.houses ==>
                response == old(response).(result := OneHouse(repo.houses[id]), statusCode := Http.OK)
                && r == OkObject(response)
    {
      if id == 0 {
        response := response.(statusCode := Http.BadRequest);
        return BadRequestObject(response);
      }
      if fault.Some? {
        response := Failed(response, fault.value);
        return Plain(response);
      }
      var house := repo.GetHouseWhere(ById(id));
      if house.None? {
        response := response.(statusCode := Http.NotFound);
        return NotFoundObject(response);
      }
      response := response.(result := OneHouse(house.value), statusCode := Http.OK);
      r := OkObject(response);
    }

    /** PUT api/Houses/{id}: an empty 400 for id 0, a null body or a missing house
        (never 404); otherwise the body is stored through UpdateHouse under the BODY's key
        and the response is returned untouched. */
    method PutHouse(id: int, houseDto: Option<House>, updatedAt: DateTime, createdAt: DateTime,
                    fault: Option<Error.Exception>)
      returns (r: ActionResult)
      requires Valid()
      modifies this, repo
      ensures Valid() && repo.nextId == old(repo.nextId)
      ensures id == 0 || houseDto.None? ==>
                r == BadRequestEmpty && response == old(response) && repo.houses == old(repo.houses)
      ensures id != 0 && houseDto.Some? && fault.Some? ==>
                response == Failed(old(response), fault.value) && r == Plain(response)
                && repo.houses == old(repo.houses)
      ensures id != 0 && houseDto.Some? && fault.None? && id !in old(repo.houses) ==>
                r == BadRequestEmpty && response == old(response) && repo.houses == old(repo.houses)
      ensures id != 0 && houseDto.Some? && fault.None? && id in old(repo.houses) ==>
                r == Plain(old(response)) && response == old(response)
                && repo.houses == AfterUpdate(old(repo.houses), houseDto.value, updatedAt, createdAt)
    {
      if id == 0 || houseDto.None? {
        return BadRequestEmpty;
      }
      if fault.Some? {
        response := Failed(response, fault.value);
        return Plain(response);
      }
      var house := repo.GetHouseWhere(ById(id));
      if house.None? {
        return BadRequestEmpty;
      }
      var houseUpdated := houseDto.value;
      var _ := repo.UpdateHouse(houseUpdated.id, houseUpdated, updatedAt, createdAt);
      r := Plain(response);
    }

    /** POST api/Houses: a null body faults on the duplicate check before its own null
        check; a name already stored (ignoring case) is a 400 that creates nothing;
        otherwise the house is created under a fresh key and put in the response. */
    method PostHouse(createDto: Option<HouseCreateDto>, fault: Option<Error.Exception>)
      returns (r: ActionResult)
      requires Valid()
      modifies this, repo
      ensures Valid()
      ensures createDto.None? ==>
                && !response.isSuccess && |response.errorMessages| == 1
                && response.result == old(response).result && response.statusCode == old(response).statusCode
                && r == Plain(response) && repo.houses == old(repo.houses)
      ensures createDto.Some? && fault.Some? ==>
                response == Failed(old(response), fault.value) && r == Plain(response)
                && repo.houses == old(repo.houses)
      ensures createDto.Some? && fault.None? && NameTaken(old(repo.houses), createDto.value.name) ==>
                r == BadRequestModelState([("ErrorMessages", "Villa already Exists!")])
                && response == old(response) && repo.houses == old(repo.houses)
      ensures createDto.Some? && fault.None? && !NameTaken(old(repo.houses), createDto.value.name) ==>
                && r == Plain(response)
                && response.result.OneHouse?
                && var created := response.result.house;
                && created.id !in old(repo.houses)
                && created == FromCreateDto(createDto.value).(id := created.id)
                && repo.houses == old(repo.houses)[created.id := created]
                && response == old(response).(result := OneHouse(created), statusCode := Http.Created)
    {
      if createDto.None? {
        response := Failed(response, NullReference);
        return Plain(response);
      }
      if fault.Some? {
        response := Failed(response, fault.value);
        return Plain(response);
      }
      var dto := createDto.value;
      var existing := repo.GetHouseWhere(SameNameIgnoringCase(dto.name));
      if existing.Some? {
        assert SameNameIgnoringCase(dto.name)(repo.houses[existing.value.id]);
        return BadRequestModelState([("ErrorMessages", "Villa already Exists!")]);
      }
      assert !NameTaken(repo.houses, dto.name) by {
        forall id | id in repo.houses
          ensures !EqualsIgnoreCase(repo.houses[id].name, dto.name)
        {
          assert !SameNameIgnoringCase(dto.name)(repo.houses[id]);
        }
      }
      var house := FromCreateDto(dto);
      var created := repo.CreateHouse(house);
      response := response.(result := OneHouse(created), statusCode := Http.Created);
      r := Plain(response);
    }

    /** DELETE api/Houses/{id}: an empty 400 for id 0, an empty 404 when no house has
        the id; otherwise exactly that house is deleted and the response says 204 and success. */
    method DeleteHouse(id: int, fault: Option<Error.Exception>) returns (r: ActionResult)
      requires Valid()
      modifies this, repo
      ensures Valid() && repo.nextId == old(repo.nextId)
      ensures id == 0 ==> r == BadRequestEmpty && response == old(response) && repo.houses == old(repo.houses)
      ensures id != 0 && fault.Some? ==>
                response == Failed(old(response), fault.value) && r == Plain(response)
                && repo.houses == old(repo.houses)
      ensures id != 0 && fault.None? && id !in old(repo.houses) ==>
                r == NotFoundEmpty && response == old(response) && repo.houses == old(repo.houses)
      ensures id != 0 && fault.None? && id in old(repo.houses) ==>
                repo.houses == old(repo.houses) - {id}
                && response == old(response).(statusCode := Http.NoContent, isSuccess := true)
                && r == OkObject(response)
    {
      if id == 0 {
        return BadRequestEmpty;
      }
      if fault.Some? {
        response := Failed(response, fault.value);
        return Plain(response);
      }
      var house := repo.GetHouseWhere(ById(id));
      if house.None? {
        return NotFoundEmpty;
      }
      repo.DeleteHouse(house.value);
      response := response.(statusCode := Http.NoContent, isSuccess := true);
      r := OkObject(response);
    }
  }
}
