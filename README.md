# Pet adoption registry — a Dafny model

This project models the ownership and authorization core of a small
pet-adoption listing API built on Django and Django REST Framework. Users sign
up and receive a token. Authenticated users list pets for adoption and become
their owners. Anyone may read pets. Only a pet's owner may change or delete it.
Deleting a pet removes its adoption requests; deleting a user removes their
pets and, through them, the requests about those pets.

The model has seven modules:

- `Wrappers` (wrappers.dfy): `Option` and `Result`.
- `Text` (text.dfy): prefix, suffix and first-occurrence helpers on
  strings, and `Trim`, Python's `str.strip()` over the characters
  `str.isspace` accepts.
- `Models` (models.dfy): the `User`, `Pet` and `AdoptionRequest` rows, the
  species and status choices, the default status, and the two `__str__`
  renderings: `PetLabel` (pets/models.py:19-20) and `RequestLabelOf`
  (pets/models.py:30-31). Each rendering comes with a parser. The pet label's parser
  inverts it for every pet. The request label's parser inverts it only when
  no " by " can start inside the pet name; `Models.RequestLabelAmbiguous`
  shows two different name pairs with the same label.
- `Permissions` (permissions.dfy): `IsOwnerOrReadOnly` and `IsPetOwner` as
  predicates over the HTTP method, the caller and the object.
- `Serializers` (serializers.dfy): signup validation and user creation
  (`CreateUserAsWritten` is `SignupSerializer.create` as written,
  pets/serializers.py:14-21, and `CreateUser` the corrected one), how
  the pet and adoption-request serializers bind their field lists, and which
  inputs they accept. Read-only fields are ignored on input.
- `Views` (views.dfy): the pet viewset's guards (`IsAuthenticatedOrReadOnly`
  and the owner check of `check_object_permissions`), the exact-match
  filter on `species`, `city` and `status` (the `city` value stripped of
  surrounding whitespace, as its form field does), and `get_object`, which applies
  that filter before looking up one pet.
- `Store` (store.dfy): class `Registry`, which holds the user, token, pet and
  request tables as maps. Its methods are signup, pet create, retrieve, list,
  update and destroy, the CASCADE deletes, and the insertion done by the
  create serializer for adoption requests. `Valid()` is the invariant of the
  tables: foreign keys point at existing rows, usernames are unique, and the
  id counters are fresh.

The registry models the program with both findings below corrected. Pets bind
through the field list without `photo_url` (`Serializers.PET_FIELDS`). A
signup without an email stores an empty email (`Serializers.CreateUser`).

As written, the program behaves differently:
- Create and update of a pet validate their body, which builds the pet
  serializer's fields, so both end in ImproperlyConfigured.
- No pet can be stored through the API, so the pet table can only be filled
  from outside it.
- Retrieving a stored pet fails the same way, and so does listing once the
  table holds a pet. Listing an empty table answers an empty list, because
  the fields are built only to render an item.
- A signup without an email ends in an integrity error.

The as-written members in "## Findings" show both causes.

Each operation runs atomically, one after another. Calls outside the model
become parameters:

- The password hasher behind `set_password` is the registry's `hasher`
  function value.
- The random token key is the `key` parameter of `Signup`.
- The insertion time of a request is the `now` parameter.
- The authenticated user is the `Caller` parameter. `Anonymous` stands for
  Django's anonymous user, which compares unequal to every stored user.

Two facts about the source shape the model:

- `AdoptionRequest` (pets/models.py:22-31) has no requester field, and
  pets/views.py defines no adoption-request handler. So there are no
  self-request or duplicate-request checks to model.
- `PetViewSet` does not list `IsOwnerOrReadOnly` among its permission
  classes. Its own owner check together with `IsAuthenticatedOrReadOnly`
  admits exactly what `IsOwnerOrReadOnly` admits. `Views.ViewGuardIsOwnerOrReadOnly`
  proves this.

## Model

| member | source | states |
|---|---|---|
| `Models.ParseSpecies` | pets/models.py:7 | a submitted species is accepted exactly when it is "dog", "cat" or "bird", and the accepted choice stores that same key |
| `Models.SpeciesRoundTrip` | pets/models.py:12 | parsing the stored key of a species gives back that species |
| `Models.ParseStatus` | pets/models.py:8 | a submitted status is accepted exactly when it is "available" or "adopted", and the accepted choice stores that same key |
| `Models.StatusRoundTrip` | pets/models.py:15 | parsing the stored key of a status gives back that status |
| `Models.PetLabelRoundTrip` | pets/models.py:19-20 | the label "name (species) - status" can be parsed back into the pet's name, species and status, whatever characters the name has |
| `Models.PetLabelInjective` | pets/models.py:19-20 | two pets with the same label have the same name, species and status |
| `Models.RequestLabelRoundTrip` | pets/models.py:30-31 | "Adoption Request for <pet name> by <requester_name>" parses back into both names when no " by " can start inside the pet name |
| `Models.RequestLabelAmbiguous` | pets/models.py:30-31 | without that condition two different name pairs render the same label |
| `Permissions.SafeMethodAlwaysPermitted` | pets/permissions.py:20-21 | GET, HEAD and OPTIONS are permitted for any caller and any pet |
| `Permissions.UnsafeMethodNeedsOwner` | pets/permissions.py:22 | any other method is permitted exactly when the caller is the pet's owner |
| `Permissions.OwnerPermittedEveryMethod` | pets/permissions.py:20-22 | the owner is permitted every method |
| `Permissions.NonOwnerOnlyReads` | pets/permissions.py:9-15 | a caller who is not the owner (or is anonymous) may GET but not PUT, PATCH or DELETE |
| `Permissions.IsPetOwnerExactly` | pets/permissions.py:37-39 | `IsPetOwner` holds exactly when the caller owns the request's pet |
| `Permissions.IsPetOwnerIgnoresMethod` | pets/permissions.py:39 | `IsPetOwner` gives the same answer for every method |
| `Permissions.IsPetOwnerNoReadException` | pets/permissions.py:35 | a non-owner of the pet is refused even GET on its requests, while the pet itself stays readable |
| `Permissions.IsPetOwnerImpliesOwnerOrReadOnly` | pets/permissions.py:39 | whatever `IsPetOwner` permits on a request, `IsOwnerOrReadOnly` permits on its pet |
| `Serializers.ValidateSignup` | pets/serializers.py:6-11 | signup is accepted exactly when the username is present, not blank and not taken, and the password has at least 8 characters; the validated data is the submitted data; the password length and uniqueness errors are reported exactly when they apply |
| `Serializers.ShortPasswordRejected` | pets/serializers.py:7 | a password shorter than 8 characters is always refused |
| `Serializers.EmailIsOptional` | pets/serializers.py:17 | dropping the email from an accepted signup keeps it accepted |
| `Serializers.SignupWithoutEmailFailsAsWritten` | pets/serializers.py:14-20 | as written, a validated signup without an email fails to save |
| `Serializers.CreateUser` | pets/serializers.py:14-21 | the created user has the submitted username, only the hasher's output as password, and the submitted email or an empty one |
| `Serializers.BindFields` | pets/serializers.py:28-35 | a field list binds exactly when every name resolves on the model; a failure names the first name that does not; `id` and the listed read-only names come out read-only |
| `Serializers.PetFieldsAsWrittenDoNotBind` | pets/serializers.py:31-34 | the field list as written fails on `photo_url` |
| `Serializers.PetFieldsBind` | pets/serializers.py:35 | the corrected pet field list binds, and its read-only fields are exactly `id` and `owner` |
| `Serializers.RequestFieldsBind` | pets/serializers.py:37-43 | the request serializer binds, and its read-only fields are exactly `id`, `pet` and `created_at` |
| `Serializers.ValidatePet` | pets/models.py:10-16 | a pet body is accepted exactly when the required fields are present (unless partial), texts are not blank, age is not negative and species and status are valid choices; the result carries exactly the submitted values; a full body is complete |
| `Serializers.PetInvalidValuesRejected` | pets/models.py:11-15 | a negative age, a species outside dog, cat or bird, or a status outside available or adopted is refused |
| `Serializers.PetOwnerInputIgnored` | pets/serializers.py:35 | what a client sends for `owner` never changes the validation result |
| `Serializers.ApplyPetChanges` | pets/serializers.py:35 | an update never changes the pet's owner |
| `Serializers.ApplyPetChangesIdempotent` | pets/serializers.py:28-35 | applying the same validated changes twice is the same as applying them once |
| `Serializers.NewPet` | pets/models.py:15 | a new pet gets the given owner, status available when none was sent, and every supplied value |
| `Serializers.ValidateRequest` | pets/serializers.py:37-43 | a request body is accepted exactly when the contact fields are present (unless partial) and not blank; the pet and creation time sent by the client are not part of the result |
| `Serializers.RequestReadOnlyInputIgnored` | pets/serializers.py:38-43 | what a client sends for `pet` or `created_at` never changes the validation result |
| `Serializers.ApplyRequestChanges` | pets/serializers.py:38-43 | updating a request never changes its pet or its creation time |
| `Serializers.ValidateRequestCreate` | pets/serializers.py:45-48 | creating a request needs a `pet` key naming an existing pet and valid contact fields |
| `Serializers.NewRequest` | pets/models.py:22-28 | a new request refers to the given pet, is stamped with the insertion time, keeps every supplied contact value and has a NULL message when none was sent |
| `Views.CheckPermissions` | pets/views.py:73 | the view-level check can only fail with NotAuthenticated |
| `Views.CheckObjectPermissions` | pets/views.py:81-85 | the object-level check can only fail with PermissionDenied |
| `Views.ReadsAreOpen` | pets/views.py:73 | list and retrieve pass both checks for every caller, anonymous included |
| `Views.WritesNeedAuthentication` | pets/views.py:73 | create, update, partial update and destroy refuse the anonymous caller |
| `Views.NonOwnerDenied` | pets/views.py:83-85 | update, partial update and destroy by someone other than the owner fail with PermissionDenied |
| `Views.OwnerPasses` | pets/views.py:83-85 | the owner passes both checks for every action |
| `Views.ViewGuardIsOwnerOrReadOnly` | pets/views.py:81-85 | on retrieve, update, partial update and destroy, the two checks admit exactly what `IsOwnerOrReadOnly` admits |
| `Views.GetObject` | pets/views.py:74-76 | looking up one pet first applies the query's filter: an invalid query is a validation error, and the pet is found exactly when it is stored and matches every supplied value |
| `Views.UnfilteredLookup` | pets/views.py:76 | without a query every stored pet is found |
| `Views.MismatchedQueryHidesPet` | pets/views.py:74-76 | `?species=cat` on a dog answers NotFound |
| `Views.InvalidQueryFailsLookup` | pets/views.py:74-75 | `?species=fish` answers a validation error on `species`, whatever the id |
| `Views.ParseFilter` | pets/views.py:74-75 | a query is valid exactly when each non-empty species or status value is a valid choice; each non-empty species or status value becomes a constraint equal to it; the city value is stripped of surrounding whitespace and constrains the city to what is left unless that is empty; absent or empty values impose none |
| `Views.PaddedCityIsStripped` | pets/views.py:75 | `?city=%20Paris` constrains the city to "Paris" |
| `Views.BlankCityIsNoFilter` | pets/views.py:75 | a whitespace-only `?city=` imposes no constraint |
| `Text.Trim` | pets/views.py:75 | the stripped text is the part of the input after its leading whitespace, followed in the input only by whitespace, and neither starts nor ends with whitespace; it is empty exactly when the input is all whitespace |
| `Text.TrimKeepsUnpadded` | pets/views.py:75 | text with no whitespace at either end is left unchanged |
| `Text.TrimIdempotent` | pets/views.py:75 | stripping twice gives the same as stripping once |
| `Views.Select` | pets/views.py:74-75 | the filter selects only stored pets |
| `Views.NoFilterSelectsAll` | pets/views.py:74-75 | with no constraint every pet is listed |
| `Views.SelectIsConjunction` | pets/views.py:74-75 | filtering on several fields gives the intersection of the single-field filters |
| `Views.SelectExact` | pets/views.py:75 | a pet is listed exactly when it equals every supplied species, city and status |
| `Store.UserCascadeSparesOthers` | pets/models.py:17 | the pets left after a user's deletion are exactly the pets of other users |
| `Store.CascadeKeepsLinks` | pets/models.py:23 | deleting pets together with their requests leaves no request pointing at a missing pet |
| `Store.UserCascadeKeepsLinks` | pets/models.py:17-23 | deleting a user with their pets and those pets' requests leaves every foreign key valid |
| `Store.UserCascadeIsTransitive` | pets/models.py:17-23 | a request survives a user's deletion exactly when its pet belongs to someone else |
| `Store.Registry.GetOrCreateToken` | pets/views.py:27 | an existing token is returned unchanged; otherwise the new key is stored for the user |
| `Store.Registry.TokenIsStable` | pets/views.py:27 | two get-or-create calls for one user return the same token |
| `Store.Registry.Signup` | pets/views.py:23-28 | invalid input raises before any user or token is stored; valid input adds exactly one user, built by the corrected `CreateUser`, under a fresh id, stores the key as its token, and returns that token with the submitted username |
| `Store.Registry.CreatePet` | pets/views.py:78-79 | with the corrected pet field list: the anonymous caller and invalid bodies are refused without change; otherwise exactly one pet is added under a fresh id, owned by the caller whatever owner the body names |
| `Store.Registry.RetrievePet` | pets/views.py:73-76 | with the corrected pet field list, through both permission checks and `get_object`: any caller, anonymous included, gets the pet exactly when it is stored and matches the query; an invalid query fails as a validation error and otherwise only NotFound is possible |
| `Store.Registry.ListPets` | pets/views.py:73-75 | with the corrected pet field list, through the view-level check: any caller gets exactly the pets that match the filter; only an invalid filter fails |
| `Store.Registry.UpdatePet` | pets/views.py:73-85 | with the corrected pet field list: anonymous callers, invalid queries, pets that are missing or do not match the query, non-owners and invalid bodies fail in that order with NotAuthenticated, a validation error, NotFound, PermissionDenied and a validation error, and change nothing; the owner's update replaces the pet with the changed one, same owner |
| `Store.Registry.DeletePet` | pets/models.py:23 | the pet and exactly the requests about it are removed |
| `Store.Registry.DestroyPet` | pets/views.py:73-85 | anonymous callers, invalid queries, pets that are missing or do not match the query, and non-owners are refused in that order and nothing changes; the owner's destroy deletes the pet with its requests |
| `Store.Registry.DeleteUser` | pets/models.py:17 | a user's deletion removes their token, their pets and the requests about those pets, and nothing else |
| `Store.Registry.CreateRequest` | pets/serializers.py:45-48 | an accepted request body adds exactly one request under a fresh id; a refused one changes nothing |
| `Store.Registry.VisibleRequests` | pets/permissions.py:37-39 | a caller sees exactly the requests about pets they own |

## Findings

| source | as written | input that shows it | evidently intended | confidence | as-written member | corrected member |
|---|---|---|---|---|---|---|
| pets/serializers.py:33 | `PetSerializer.Meta.fields` lists `photo_url`, which is neither a field nor an attribute of `Pet`, so binding the serializer's fields raises ImproperlyConfigured. This breaks create and update of pets, retrieve of a stored pet, a list of a non-empty table, and rendering the nested pet of an adoption request. A list of an empty table still answers `[]`, and no pet can be stored through the API, only from outside it | an authenticated POST to /pets/ with any body: validating it builds the serializer's writable fields and fails on `photo_url` | the field list without `photo_url`, or a declared read-only field for the photo's address | high; not executed | `Serializers.PetFieldsAsWrittenDoNotBind` | `Serializers.PetFieldsBind` |
| pets/serializers.py:17 | `email=validated_data.get("email")` sets the email to None when none was sent, and the user table's email column is NOT NULL, so `save()` fails | signup with username "bob", password "secret123" and no email | an absent email is stored as empty, as the comment "Email is optional" says | medium; not executed | `Serializers.SignupWithoutEmailFailsAsWritten` | `Serializers.CreateUser` |

## Left out

- HTTP routing and dispatch (pets/urls.py) are framework wiring. pets/urls.py imports `AdoptionRequestViewSet`, which pets/views.py does not define.
- No adoption-request handler is modelled, because the source defines none. `AdoptionRequest` has no requester field, so there is no self-request or duplicate-request rule to model. Request visibility reuses `IsPetOwner` (`Store.Registry.VisibleRequests`). `ValidateRequest` and `ApplyRequestChanges` model the update serializer on values only. `CreateRequest` models the create serializer's save without any permission check.
- The commented-out per-action views (pets/views.py:31-68) are dead code.
- Password hashing is a function value. The random salt of real hashes is not modelled.
- Token key generation is a parameter. Key collisions between users are not modelled.
- Image upload and storage are out of scope. `photo` is the stored path, and image content is not validated.
- Framework validators are left out: maximum lengths, e-mail format, the username character rule, the database's upper bound on `age`, and DRF's trimming of whitespace around serializer text input (the list filter's trimming of `city` is modelled).
- Response rendering is not modelled: output fields, the write-only password, and the photo's address.
- Urls with an id that is not an integer give 404 in the source. Here ids are natural numbers.
- Users are deleted outside the handlers. `DeleteUser` models only the cascade. The token row's cascade comes from the token model of Django REST Framework, which is not among the shown files.
- Concurrency, transactions and database races are out of scope: every operation is atomic and sequential.
