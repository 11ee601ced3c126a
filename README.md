# HouseCom core, modelled in Dafny

HouseCom is a small ASP.NET Core web API that manages House listing records. This
project models the three parts of it that make decisions:

- **The house store** (`HouseRepository`). The Houses table is a class holding a
  map from key to `House` record, plus the identity seed that generates keys.
  `CreateHouse`, `DeleteHouse` and `UpdateHouse` change the map in place.
  `GetAllHouses`, `GetHouse` and the predicate lookup the controller uses only read it.
  `UpdateHouse` is specified by the function `Updated`:
  - the two timestamps take two clock readings (UpdatedDate the first, CreatedDate
    the second), so the creation date is lost;
  - six fields come from the argument;
  - the stored key is kept.
- **The global exception handler** (`GlobalExceptionHandler`). An exception is its
  runtime type plus the types it derives from, so `e is T` is modelled as it is in
  C#. The switch is an ordered table of arms in which the first match wins, with a
  500 fallback. `TryHandle` runs the same steps as the source:
  - it creates the error response;
  - it attaches diagnostics only in Development;
  - it writes the status, the JSON content type and the body;
  - it returns true.
- **The controller's decision rules** (`HousesController`). The controller owns the
  shared `APIResponse` (a datatype field that the actions reassign) and calls the
  store. Each action's contract says which `ActionResult` comes back for which id,
  request body and store content, and how the response and the store change.
  - `fault` stands for the database: it is the exception the action's first store
    call raises, or `None`.
  - `updatedAt` and `createdAt` stand for the two clock readings of an update.

Modules follow the C# namespaces: `Models`, `Repositories`, `Error` and `Controllers`.
The helper modules are `Wrappers` (Option), `Http` (status codes), `Text` (ASCII
`ToLower`, ordinal `Contains`) and `Linq` (`Where`).

Where the documented API contract and the code disagree, the model follows the code:
- POST answers HTTP 200 carrying `StatusCode = Created`, not 201.
- PUT never answers 404. A missing house is an empty 400, and success is HTTP 200
  with the response left as it was, not 204.
- DELETE answers `Ok` (HTTP 200) carrying `StatusCode = NoContent`.
- The create request's `CreatedDate` and `UpdatedDate` are copied into the new row.
  They are not assigned by the server.
- HouseRepository.cs implements no page-size clamping or offsets.

The controller calls `GetHouse(predicate, tracked)`, `GetAllHouses(predicate, pageSize,
pageNumber)` and `UpdateHouse(house)` (HouseCom/Controllers/HousesController.cs:58, 113,
151, 159). HouseCom/Repositories/IHouseRepository.cs:7-11 declares none of them. They are
modelled as follows:
- `GetHouseWhere` returns some stored match, or none. Which match is unspecified.
- `GetAllHouses` takes an optional filter and returns every stored match once, in
  unspecified order.
- `UpdateHouse(house)` is the two-argument `UpdateHouse(id, house)` of
  HouseCom/Repositories/HouseRepository.cs:42-61, called with the body's own key.
  So `PutHouse` checks that the route id exists but updates the record under the
  body's `Id`.

## Model

| member | source | states |
|---|---|---|
| Text.ToLower | HouseCom/Controllers/HousesController.cs:68 | lower-casing keeps the length and lower-cases each character; no upper-case letter remains |
| Text.ToLowerIdempotent | HouseCom/Controllers/HousesController.cs:221 | lower-casing an already lower-cased string changes nothing |
| Text.EqualsIgnoreCaseCharwise | HouseCom/Controllers/HousesController.cs:221 | the duplicate-name comparison holds exactly when the lengths agree and the characters agree once lower-cased |
| Text.LowerTextMissesUpperPattern | HouseCom/Controllers/HousesController.cs:68 | a lower-cased text never contains a pattern that has an upper-case letter |
| Text.ContainsEmpty | HouseCom/Controllers/HousesController.cs:66-69 | the empty search text occurs in every string |
| Controllers.EmptySearchKeepsAll | HouseCom/Controllers/HousesController.cs:66-69 | filtering any list of houses by the empty search keeps every house in order, so skipping the filter for an empty search changes nothing |
| Linq.Where | HouseCom/Controllers/HousesController.cs:68 | the filtered list is never longer than the input |
| Linq.WhereMembers | HouseCom/Controllers/HousesController.cs:68 | an element is in the filtered list exactly when it is in the input and passes the predicate |
| Linq.WhereCounts | HouseCom/Controllers/HousesController.cs:68 | every occurrence of a passing element is kept and every occurrence of a failing one is dropped |
| Linq.WhereAppend | HouseCom/Controllers/HousesController.cs:68 | filtering distributes over concatenation, so the kept houses stay in their original order |
| Models.WhereKeepsDistinctIds | HouseCom/Models/House.cs:12-14 | filtering a list whose keys are distinct leaves the keys distinct |
| Repositories.UpdatedFields | HouseCom/Repositories/HouseRepository.cs:49-56 | after an update the record has the stored key, the argument's Occupancy, Price, Details, Name, Sqft and ImageUrl, the first clock reading as UpdatedDate and the second as CreatedDate |
| Repositories.UpdatedForgetsStoredContent | HouseCom/Repositories/HouseRepository.cs:49-56 | two stored records with the same key give the same updated record, so the original creation date and every other stored field is lost |
| Repositories.UpdatedIgnoresArgumentKeyAndDates | HouseCom/Repositories/HouseRepository.cs:44-56 | arguments that differ only in Id, CreatedDate or UpdatedDate give the same updated record |
| Repositories.UpdatedIdempotent | HouseCom/Repositories/HouseRepository.cs:49-56 | repeating the same update with the same clock readings changes nothing further |
| Repositories.HouseRepository.CreateHouse | HouseCom/Repositories/HouseRepository.cs:14-18 | the house is inserted under a key not yet in the store and every other field is the argument's; no other record changes; the store has exactly one more record; the store stays valid |
| Repositories.HouseRepository.DeleteHouse | HouseCom/Repositories/HouseRepository.cs:20-24 | needs the house to be stored; removes exactly that key, so the store has one record fewer; keys are not reused |
| Repositories.HouseRepository.GetAllHouses | HouseCom/Repositories/HouseRepository.cs:26-30 | returns exactly the stored records that pass the optional filter, each once (distinct keys); with no filter, as many as the store holds |
| Repositories.HouseRepository.GetHouse | HouseCom/Repositories/HouseRepository.cs:32-40 | returns the stored record with that key, or none when there is none; reads only |
| Repositories.HouseRepository.GetHouseWhere | HouseCom/Controllers/HousesController.cs:113 | returns none exactly when no stored record passes the predicate, otherwise a stored record that passes it |
| Repositories.HouseRepository.UpdateHouse | HouseCom/Repositories/HouseRepository.cs:42-61 | an absent key gives none and no change; otherwise only that record is replaced, by `Updated` of it, and the result equals what the store holds afterwards |
| Repositories.CreateReadDeleteScenario | HouseCom/Repositories/HouseRepository.cs:14-40 | a client run: after create the list is one longer and the key reads back the created house; after delete the key reads back none and the store is as before |
| Error.FirstMatch | HouseCom/Error/GlobalExceptionHandler.cs:68-114 | the chosen position is the first arm whose type pattern matches, or past the end when none does |
| Error.Classify | HouseCom/Error/GlobalExceptionHandler.cs:68-114 | every exception gets exactly one (status, message); the status is one of 400, 401, 403, 404, 405, 409, 422, 500; the fallback comes exactly when no arm matches |
| Error.FirstMatchWins | HouseCom/Error/GlobalExceptionHandler.cs:68-114 | an exception matching arm i and no earlier arm is classified by arm i, whatever later arms it also matches |
| Error.InvalidOperationComesFirst | HouseCom/Error/GlobalExceptionHandler.cs:71-73 | any InvalidOperationException gives 400 "Invalid operation attempted" |
| Error.ArgumentComesSecond | HouseCom/Error/GlobalExceptionHandler.cs:74-76 | an ArgumentException that is not an InvalidOperationException gives 400 "Invalid input provided" |
| Error.UnlistedIsInternalError | HouseCom/Error/GlobalExceptionHandler.cs:110-113 | an exception of none of the ten named types gives 500 "An unexpected error occurred" |
| Error.ConflictOnlyForConcurrencyAndDeleteConstraint | HouseCom/Error/GlobalExceptionHandler.cs:87-100 | 409 comes exactly from ConcurrencyException or DeleteConstraintException, each with its own message |
| Error.NotFoundOnlyForKeyAndFile | HouseCom/Error/GlobalExceptionHandler.cs:79-84 | 404 comes exactly from KeyNotFoundException or FileNotFoundException, with different messages |
| Error.ErrorResponse.constructor | HouseCom/Error/GlobalExceptionHandler.cs:61-65 | a new error response carries the given trace id and timestamp and no diagnostics |
| Error.GlobalExceptionHandler.TryHandle | HouseCom/Error/GlobalExceptionHandler.cs:21-39 | always returns true; the response status is the classified status, the content type is "application/json", the body has the classified message and the request's trace identifier, and has diagnostics exactly in Development |
| Error.GlobalExceptionHandler.CreateErrorResponse | HouseCom/Error/GlobalExceptionHandler.cs:54-118 | a fresh error response with the classified status and message, the request's trace identifier and the current time |
| Error.GlobalExceptionHandler.AddDevelopmentDetails | HouseCom/Error/GlobalExceptionHandler.cs:120-139 | DeveloperMessage is set exactly when the environment is Development, to the exception's type name, stack trace, inner message, source and target site; nothing else changes |
| Error.GlobalExceptionHandler.SendErrorResponse | HouseCom/Error/GlobalExceptionHandler.cs:141-156 | the response status is the error's status, the content type is "application/json" and the body is the error response |
| Controllers.Failed | HouseCom/Controllers/HousesController.cs:78-83 | a caught exception leaves IsSuccess false and exactly one error message (the exception's text); Result and StatusCode keep their earlier values |
| Controllers.OccupancyFilter | HouseCom/Controllers/HousesController.cs:56-65 | there is a filter exactly when the occupancy is present and positive, and then it admits exactly the houses with that occupancy |
| Controllers.SearchWithUpperCaseMatchesNothing | HouseCom/Controllers/HousesController.cs:66-69 | because only the name is lower-cased, a search text with an upper-case letter matches no house |
| Controllers.HousesController.constructor | HouseCom/Controllers/HousesController.cs:31-36 | the controller holds the given repository and a new APIResponse |
| Controllers.HousesController.GetHouses | HouseCom/Controllers/HousesController.cs:44-87 | on success it returns Ok with status 200 and a list of distinct houses holding exactly the stored houses that pass the occupancy filter (only for a positive occupancy) and the name search (only for a non-empty search); a store failure gives the failed response |
| Controllers.HousesController.GetHouse | HouseCom/Controllers/HousesController.cs:95-130 | id 0 gives BadRequest with status 400 without using the store; a missing id gives NotFound with 404; otherwise Ok with 200 and that house as Result |
| Controllers.HousesController.PutHouse | HouseCom/Controllers/HousesController.cs:141-170 | id 0, a null body or a missing house gives an empty BadRequest and changes nothing; otherwise the record under the body's key is updated (nothing changes if that key is absent) and the untouched response is returned |
| Controllers.HousesController.PostHouse | HouseCom/Controllers/HousesController.cs:216-251 | a null body fails at the duplicate check, before its null check, and creates nothing; a name already stored, ignoring case, gives BadRequest with one model error and creates nothing; otherwise the house is created under a fresh key and returned with status Created |
| Controllers.HousesController.DeleteHouse | HouseCom/Controllers/HousesController.cs:261-289 | id 0 gives an empty BadRequest and a missing id an empty NotFound, both with no change; otherwise exactly that house is deleted and Ok is returned with status NoContent and IsSuccess true |

## Left out

- Authentication and registration (HouseCom/Services/AuthService.cs, HouseCom/Controllers/AuthController.cs): these are thin wrappers over ASP.NET Identity, and the interface and the implementation disagree on `Login`'s return type.
- `[Authorize(Roles = ...)]`, `[ResponseCache]` and the `X-Pagination` header: the framework enforces or writes these.
- `pageSize` and `pageNumber`: HouseRepository.cs implements no paging, so the model's `GetAllHouses` returns every match.
- AutoMapper: mapping copies the shared fields. `HouseDTO` is not part of this model, so the PUT body is a `House`.
- `UpdatePartialHouse`: it applies an opaque JSON-Patch document through a library.
- `LogErrorAsync`, `Task.Run`, cancellation tokens and JSON serialisation options (`WriteIndented`): these are I/O and async plumbing. The body written is the error response's field values.
- EF Core change tracking, the `tracked` flag and concurrent requests: each store operation is one atomic step on the map.
- `Price` is a double that is only copied. It is modelled as a real with no arithmetic.
- Integers are unbounded. The 32-bit width of `Id`, `Sqft` and `Occupancy`, and identity-seed overflow, are not modelled.
- Lower-casing covers ASCII letters only. Culture-sensitive Unicode case mapping and the database collation used by the duplicate check are not modelled.
- Null strings inside a House (`Name`, `Details`, `ImageUrl`) are not modelled. `Name` is `[Required]`, so the store never holds a null name.
- `ex.ToString()` is modelled as the short type name, ": " and the message. .NET's own text differs: it uses the namespace-qualified type name (such as `System.InvalidOperationException`), omits ": " when the message is empty, appends " ---> " and the inner exception's text, and adds the stack trace. Exceptions are modelled without inner exceptions or namespaces.
- Controllers.HousesController.GetHouses: a store failure is modelled only on the action's first store call. A failure in a later call, such as `CreateHouse` after the duplicate check, is not modelled. The same holds for the other actions.
- Controllers.HousesController.PostHouse: for a null body the contract fixes only that the response fails with exactly one message. HouseCom's code does not fix which exception type the query provider raises for the null dereference.
- Controllers.HousesController.constructor: the `APIResponse` class is not part of this model. Its defaults are taken as no Result, StatusCode 0, IsSuccess true and no error messages.
- Repositories.HouseRepository.GetAllHouses: the order of the table scan is not specified.
- Repositories.HouseRepository.UpdateHouse: the two `DateTime.UtcNow` readings at HouseRepository.cs:49-50 are independent parameters. The model does not promise that the second is not earlier than the first, because the system clock can be set back.
- Error.GlobalExceptionHandler.SendErrorResponse and Error.GlobalExceptionHandler.TryHandle: the content type modelled is the "application/json" that GlobalExceptionHandler.cs:147 assigns. `WriteAsJsonAsync` at line 155 then replaces it with "application/json; charset=utf-8", and that step is not modelled.
