/** The pure parts of the pet handler (pets/views.py): which action maps to
    which HTTP method, the view-level permission IsAuthenticatedOrReadOnly,
    the owner check of `check_object_permissions`, and the exact-match list
    filter on species, city and status. */
module Views {
  import opened Wrappers
  import opened Text
  import opened Models
  import opened Permissions
  import opened Serializers

  /** What a handler call can fail with (401, 403, 404, 400). */
  datatype ApiError = NotAuthenticated | PermissionDenied | NotFound | Invalid(errors: set<FieldError>)

  /** The actions of the pet viewset. */
  datatype Action = List | Retrieve | Create | Update | PartialUpdate | Destroy

  function MethodOf(a: Action): HttpMethod {
    match a
    case List => Get
    case Retrieve => Get
    case Create => Post
    case Update => Put
    case PartialUpdate => Patch
    case Destroy => Delete
  }

  /** The actions that work on one pet, after it has been looked up. */
  const OBJECT_ACTIONS: set<Action> := {Retrieve, Update, PartialUpdate, Destroy}

  /** The actions the extra owner check applies to. */
  const OWNER_ACTIONS: set<Action> := {Update, PartialUpdate, Destroy}

  /** IsAuthenticatedOrReadOnly.has_permission, the viewset's only permission class. */
  predicate IsAuthenticatedOrReadOnly(m: HttpMethod, c: Caller) {
    IsSafe(m) || c.Authenticated?
  }

  /** `check_permissions`, run before anything else: the anonymous caller is
      refused as not authenticated. */
  function CheckPermissions(a: Action, c: Caller): (r: Option<ApiError>)
    ensures r.Some? ==> r.value == NotAuthenticated
  {
    if IsAuthenticatedOrReadOnly(MethodOf(a), c) then None else Some(NotAuthenticated)
  }

  /** PetViewSet.check_object_permissions: the inherited check always passes
      (IsAuthenticatedOrReadOnly has no object rule); then update,
      partial_update and destroy need the caller to be the pet's owner. */
  function CheckObjectPermissions(a: Action, c: Caller, pet: Pet): (r: Option<ApiError>)
    ensures r.Some? ==> r.value == PermissionDenied
  {
    if a in OWNER_ACTIONS && !IsUser(pet.owner, c) then Some(PermissionDenied) else None
  }

  /** A handler step after a check: the check's refusal, if any, else the step's own result. */
  function Guarded<T>(check: Option<ApiError>, next: Result<T, ApiError>): Result<T, ApiError> {
    if check.Some? then Failure(check.value) else next
  }

  /** Reads are never blocked: no authentication needed and no owner check. */
  lemma ReadsAreOpen(c: Caller, pet: Pet)
    ensures CheckPermissions(List, c).None? && CheckPermissions(Retrieve, c).None?
    ensures CheckObjectPermissions(Retrieve, c, pet).None?
  {
  }

  /** Every write needs an authenticated caller. */
  lemma WritesNeedAuthentication(a: Action)
    requires a !in {List, Retrieve}
    ensures CheckPermissions(a, Anonymous) == Some(NotAuthenticated)
  {
  }

  /** An authenticated caller who is not the owner is refused update, partial update and destroy. */
  lemma NonOwnerDenied(a: Action, c: Caller, pet: Pet)
    requires a in OWNER_ACTIONS && c != Authenticated(pet.owner)
    ensures CheckObjectPermissions(a, c, pet) == Some(PermissionDenied)
  {
  }

  lemma OwnerPasses(a: Action, pet: Pet)
    ensures CheckPermissions(a, Authenticated(pet.owner)).None?
    ensures CheckObjectPermissions(a, Authenticated(pet.owner), pet).None?
  {
  }

  /** The two checks of the pet viewset together admit exactly what
      IsOwnerOrReadOnly admits, on every action that works on one pet. */
  lemma ViewGuardIsOwnerOrReadOnly(a: Action, c: Caller, pet: Pet)
    requires a in OBJECT_ACTIONS
    ensures (CheckPermissions(a, c).None? && CheckObjectPermissions(a, c, pet).None?)
        <==> IsOwnerOrReadOnly(MethodOf(a), c, pet)
  {
  }

  // ---------------------------------------------------------------------
  // filterset_fields = ['species', 'city', 'status']

  /** The query-string values of the three filters, each possibly absent. */
  datatype FilterQuery = FilterQuery(species: Option<string>, city: Option<string>, status: Option<string>)

  /** The constraints the query imposes; None is no constraint. */
  datatype PetFilter = PetFilter(species: Option<Species>, city: Option<string>, status: Option<Status>)

  const NO_FILTER: PetFilter := PetFilter(None, None, None)

  /** An absent or empty value imposes nothing; a choice filter given a value
      outside its choices makes the whole query invalid. The `city` filter's
      form field strips surrounding whitespace first, so a blank city is
      empty too; the choice filters do not strip. */
  function ParseFilter(q: FilterQuery): (r: Result<PetFilter, set<FieldError>>)
    ensures r.Success? <==>
      (q.species.Some? && q.species.value != "" ==> q.species.value in SPECIES_KEYS) &&
      (q.status.Some? && q.status.value != "" ==> q.status.value in STATUS_KEYS)
    ensures r.Success? ==> (r.value.species.Some? <==> q.species.Some? && q.species.value != "")
    ensures r.Success? && r.value.species.Some? ==> r.value.species.value.Key() == q.species.value
    ensures r.Success? ==> (r.value.city.Some? <==> q.city.Some? && Trim(q.city.value) != "")
    ensures r.Success? && r.value.city.Some? ==> r.value.city.value == Trim(q.city.value)
    ensures r.Success? ==> (r.value.status.Some? <==> q.status.Some? && q.status.value != "")
    ensures r.Success? && r.value.status.Some? ==> r.value.status.value.Key() == q.status.value
    ensures r.Failure? ==> r.error != {}
  {
    var species := if q.species.Some? && q.species.value != "" then Some(ParseSpecies(q.species.value)) else None;
    var status := if q.status.Some? && q.status.value != "" then Some(ParseStatus(q.status.value)) else None;
    var errors :=
      (if species.Some? && species.value.None? then {FieldError(SpeciesField, InvalidChoice)} else {})
      + (if status.Some? && status.value.None? then {FieldError(StatusField, InvalidChoice)} else {});
    if errors != {} then Failure(errors)
    else
      Success(PetFilter(
        if species.Some? then species.value else None,
        if q.city.Some? && Trim(q.city.value) != "" then Some(Trim(q.city.value)) else None,
        if status.Some? then status.value else None))
  }

  /** `?city=%20Paris` constrains the city to "Paris". */
  lemma PaddedCityIsStripped()
    ensures ParseFilter(FilterQuery(None, Some(" Paris"), None)) == Success(PetFilter(None, Some("Paris"), None))
  {
    var c := " Paris";
    assert IsSpace(c[0]) && !IsSpace(c[1]) && !IsSpace(c[5]);
    assert Lead(c) == 1 by {
      assert SkipSpace(c, 1) == 1;
    }
    assert Trim(c) == c[1..6];
    assert c[1..6] == "Paris";
    var q := FilterQuery(None, Some(c), None);
    assert ParseFilter(q).Success?;
    assert ParseFilter(q).value.city == Some("Paris");
  }

  /** `?city=%20` imposes no constraint. */
  lemma BlankCityIsNoFilter()
    ensures ParseFilter(FilterQuery(None, Some(" "), None)) == Success(NO_FILTER)
  {
  }

  /** Exact match on every field the filter constrains. */
  predicate Matches(p: Pet, f: PetFilter) {
    && (f.species.Some? ==> p.species == f.species.value)
    && (f.city.Some? ==> p.city == f.city.value)
    && (f.status.Some? ==> p.status == f.status.value)
  }

  /** The queryset after filtering: the ids of the matching pets. */
  function Select(pets: map<PetId, Pet>, f: PetFilter): (r: set<PetId>)
    ensures r <= pets.Keys
  {
    set id | id in pets && Matches(pets[id], f)
  }

  lemma NoFilterSelectsAll(pets: map<PetId, Pet>)
    ensures Select(pets, NO_FILTER) == pets.Keys
  {
  }

  /** Filters combine by logical AND: selecting on several fields is
      intersecting the selections on each field alone. */
  lemma SelectIsConjunction(pets: map<PetId, Pet>, f: PetFilter)
    ensures Select(pets, f)
         == Select(pets, NO_FILTER.(species := f.species))
          * Select(pets, NO_FILTER.(city := f.city))
          * Select(pets, NO_FILTER.(status := f.status))
  {
  }

  /** A filter that a pet fails excludes it; one it passes on every field keeps it. */
  lemma SelectExact(pets: map<PetId, Pet>, f: PetFilter, id: PetId)
    requires id in pets
    ensures id in Select(pets, f) <==>
      (f.species.Some? ==> pets[id].species == f.species.value) &&
      (f.city.Some? ==> pets[id].city == f.city.value) &&
      (f.status.Some? ==> pets[id].status == f.status.value)
  {
  }

  // ---------------------------------------------------------------------
  // get_object: the filter backend runs on the queryset of every action
  // that looks up one pet, before the lookup by `id`.

  const NO_QUERY: FilterQuery := FilterQuery(None, None, None)

  /** GenericAPIView.get_object: filter the pets by the query (an invalid
      query is a validation error), then look the id up among those left
      (missing is NotFound). */
  function GetObject(pets: map<PetId, Pet>, q: FilterQuery, id: PetId): (r: Result<Pet, ApiError>)
    ensures r.Success? <==> ParseFilter(q).Success? && id in pets && Matches(pets[id], ParseFilter(q).value)
    ensures r.Success? ==> id in pets && r.value == pets[id]
    ensures ParseFilter(q).Failure? ==> r == Failure(Invalid(ParseFilter(q).error))
    ensures ParseFilter(q).Success? && r.Failure? ==> r.error == NotFound
  {
    match ParseFilter(q)
    case Failure(e) => Failure(Invalid(e))
    case Success(f) => if id in Select(pets, f) then Success(pets[id]) else Failure(NotFound)
  }

  /** Without a query string the lookup finds every stored pet. */
  lemma UnfilteredLookup(pets: map<PetId, Pet>, id: PetId)
    ensures GetObject(pets, NO_QUERY, id).Success? <==> id in pets
  {
  }

  /** A query the pet does not match hides it: `?species=cat` on a dog is NotFound. */
  lemma MismatchedQueryHidesPet(pets: map<PetId, Pet>, id: PetId)
    requires id in pets && pets[id].species == Dog
    ensures GetObject(pets, FilterQuery(Some("cat"), None, None), id) == Failure(NotFound)
  {
    assert ParseSpecies("cat") == Some(Cat);
  }

  /** A species outside the choices fails the lookup with a validation error, whatever the id. */
  lemma InvalidQueryFailsLookup(pets: map<PetId, Pet>, id: PetId)
    ensures GetObject(pets, FilterQuery(Some("fish"), None, None), id)
         == Failure(Invalid({FieldError(SpeciesField, InvalidChoice)}))
  {
    var q := FilterQuery(Some("fish"), None, None);
    assert "fish" !in SPECIES_KEYS by {
      assert "fish" != "dog" && "fish" != "cat" && "fish" != "bird";
    }
    assert ParseSpecies("fish") == None;
    // The status filter is absent, so it adds no error to the species error.
    assert {FieldError(SpeciesField, InvalidChoice)} + {} == {FieldError(SpeciesField, InvalidChoice)};
    assert ParseFilter(q) == Failure({FieldError(SpeciesField, InvalidChoice)});
  }
}
