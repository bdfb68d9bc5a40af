/** The registry: the user, token, pet and adoption-request tables as one
    object whose methods are the handler operations of pets/views.py
    (signup, pet create, retrieve, list, update, destroy) and the ORM's
    CASCADE deletes of pets/models.py, all atomic and sequential. */
module Store {
  import opened Wrappers
  import opened Models
  import opened Permissions
  import opened Serializers
  import opened Views

  /** An authentication token's key. Key generation is random, so keys come in as parameters. */
  type TokenKey = string

  /** The body of a successful signup response. */
  datatype SignupResponse = SignupResponse(token: TokenKey, username: string)

  /** The usernames already taken. */
  function Usernames(users: map<UserId, User>): (r: set<string>)
    ensures forall id :: id in users ==> users[id].username in r
    ensures forall n :: n in r ==> exists id :: id in users && users[id].username == n
  {
    set id | id in users :: users[id].username
  }

  /** No two users share a username (the column is unique). */
  ghost predicate UniqueUsernames(users: map<UserId, User>) {
    forall a, b :: a in users && b in users && users[a].username == users[b].username ==> a == b
  }

  /** Every foreign key points at an existing row. */
  ghost predicate Linked(users: map<UserId, User>, tokens: map<UserId, TokenKey>,
                         pets: map<PetId, Pet>, requests: map<RequestId, AdoptionRequest>) {
    && (forall u :: u in tokens ==> u in users)
    && (forall id :: id in pets ==> pets[id].owner in users)
    && (forall id :: id in requests ==> requests[id].pet in pets)
  }

  /** The pets a user owns. */
  function PetsOwnedBy(pets: map<PetId, Pet>, owner: UserId): set<PetId> {
    set id | id in pets && pets[id].owner == owner
  }

  /** The requests left after the pets in `doomed` are deleted: exactly those
      whose pet survives, each unchanged. */
  function RequestsWithout(requests: map<RequestId, AdoptionRequest>, doomed: set<PetId>): map<RequestId, AdoptionRequest> {
    map id | id in requests && requests[id].pet !in doomed :: requests[id]
  }

  /** Deleting a set of pets together with their requests keeps every foreign key valid. */
  lemma CascadeKeepsLinks(users: map<UserId, User>, tokens: map<UserId, TokenKey>,
                          pets: map<PetId, Pet>, requests: map<RequestId, AdoptionRequest>, doomed: set<PetId>)
    requires Linked(users, tokens, pets, requests)
    ensures Linked(users, tokens, pets - doomed, RequestsWithout(requests, doomed))
  {
  }

  /** Deleting a user with their pets and those pets' requests keeps every foreign key valid. */
  lemma UserCascadeKeepsLinks(users: map<UserId, User>, tokens: map<UserId, TokenKey>,
                              pets: map<PetId, Pet>, requests: map<RequestId, AdoptionRequest>, u: UserId)
    requires Linked(users, tokens, pets, requests)
    ensures Linked(users - {u}, tokens - {u}, pets - PetsOwnedBy(pets, u), RequestsWithout(requests, PetsOwnedBy(pets, u)))
  {
  }

  /** The pets left after a user's cascade are exactly the other users' pets. */
  lemma UserCascadeSparesOthers(pets: map<PetId, Pet>, u: UserId)
    ensures forall id :: id in pets - PetsOwnedBy(pets, u) <==> id in pets && pets[id].owner != u
  {
  }

  /** After a user's cascade, no remaining request is about a pet of theirs,
      and every request about another user's pet remains. */
  lemma UserCascadeIsTransitive(pets: map<PetId, Pet>, requests: map<RequestId, AdoptionRequest>, u: UserId, rid: RequestId)
    requires rid in requests && requests[rid].pet in pets
    ensures rid in RequestsWithout(requests, PetsOwnedBy(pets, u)) <==> pets[requests[rid].pet].owner != u
  {
  }

  class Registry {
    var users: map<UserId, User>
    var tokens: map<UserId, TokenKey>
    var pets: map<PetId, Pet>
    var requests: map<RequestId, AdoptionRequest>
    var nextUser: nat
    var nextPet: nat
    var nextRequest: nat

    /** The password hasher behind `set_password`. */
    const hasher: string -> string

    ghost predicate Valid()
      reads this
    {
      && Linked(users, tokens, pets, requests)
      && UniqueUsernames(users)
      && (forall id :: id in users ==> id < nextUser)
      && (forall id :: id in pets ==> id < nextPet)
      && (forall id :: id in requests ==> id < nextRequest)
    }

    /** Token authentication only ever yields a stored user. */
    predicate KnownCaller(c: Caller)
      reads this
    {
      c.Authenticated? ==> c.user in users
    }

    constructor (hasher: string -> string)
      ensures Valid() && this.hasher == hasher
      ensures users == map[] && tokens == map[] && pets == map[] && requests == map[]
    {
      this.hasher := hasher;
      users, tokens, pets, requests := map[], map[], map[], map[];
      nextUser, nextPet, nextRequest := 0, 0, 0;
    }

    /** `Token.objects.get_or_create(user=user)`: the user's existing token, or
        a new one with the given key. */
    method GetOrCreateToken(u: UserId, key: TokenKey) returns (token: TokenKey)
      requires Valid() && u in users
      modifies this`tokens
      ensures Valid()
      ensures u in old(tokens) ==> token == old(tokens)[u] && tokens == old(tokens)
      ensures u !in old(tokens) ==> token == key && tokens == old(tokens)[u := key]
    {
      if u in tokens {
        token := tokens[u];
      } else {
        token := key;
        tokens := tokens[u := key];
      }
    }

    /** Asking for a user's token twice gives the same token, whatever key the second call offers. */
    method TokenIsStable(u: UserId, key1: TokenKey, key2: TokenKey) returns (t1: TokenKey, t2: TokenKey)
      requires Valid() && u in users
      modifies this`tokens
      ensures Valid()
      ensures u in tokens && t1 == t2 && tokens[u] == t1
    {
      t1 := GetOrCreateToken(u, key1);
      t2 := GetOrCreateToken(u, key2);
    }

    /** SignupView.create: validate (raising before anything is stored), save
        the user through SignupSerializer.create, get or create its token, and
        answer with the token and the username. */
    method Signup(data: SignupData, key: TokenKey) returns (r: Result<SignupResponse, set<FieldError>>)
      requires Valid()
      modifies this`users, this`tokens, this`nextUser
      ensures Valid()
      ensures var v := ValidateSignup(data, Usernames(old(users)));
        && (r.Success? <==> v.Success?)
        && (v.Failure? ==> r == Failure(v.error) && users == old(users) && tokens == old(tokens))
        && (v.Success? ==>
              && old(nextUser) !in old(users)
              && users == old(users)[old(nextUser) := CreateUser(v.value, hasher)]
              && tokens == old(tokens)[old(nextUser) := key]
              && r.value == SignupResponse(key, data.username.value))
    {
      var v := ValidateSignup(data, Usernames(users));
      if v.Failure? {
        return Failure(v.error);
      }
      var user := CreateUser(v.value, hasher);
      var id := nextUser;
      assert id !in tokens;
      users := users[id := user];
      nextUser := nextUser + 1;
      var token := GetOrCreateToken(id, key);
      r := Success(SignupResponse(token, user.username));
    }

    /** The create action: authentication, validation, then perform_create,
        which saves the pet with the caller as owner. */
    method CreatePet(caller: Caller, data: PetData) returns (r: Result<PetId, ApiError>)
      requires Valid() && KnownCaller(caller)
      modifies this`pets, this`nextPet
      ensures Valid()
      ensures caller.Anonymous? ==> r == Failure(NotAuthenticated)
      ensures caller.Authenticated? && ValidatePet(data, false).Failure? ==>
        r == Failure(Invalid(ValidatePet(data, false).error))
      ensures r.Failure? ==> pets == old(pets)
      ensures r.Success? <==> caller.Authenticated? && ValidatePet(data, false).Success?
      ensures r.Success? ==>
        && r.value !in old(pets)
        && pets == old(pets)[r.value := NewPet(ValidatePet(data, false).value, caller.user)]
        && pets[r.value].owner == caller.user
    {
      var denied := CheckPermissions(Create, caller);
      if denied.Some? {
        return Failure(denied.value);
      }
      var v := ValidatePet(data, false);
      if v.Failure? {
        return Failure(Invalid(v.error));
      }
      var pet := NewPet(v.value, caller.user);
      r := Success(nextPet);
      pets := pets[nextPet := pet];
      nextPet := nextPet + 1;
    }

    /** The retrieve action: the view-level check, get_object (the query's
        filter, then the lookup), then the object-level check. Reads are open
        to every caller, so only the query and the lookup can fail. */
    function RetrievePet(caller: Caller, id: PetId, q: FilterQuery): (r: Result<Pet, ApiError>)
      reads this
      ensures r.Success? <==> ParseFilter(q).Success? && id in pets && Matches(pets[id], ParseFilter(q).value)
      ensures r.Success? ==> r.value == pets[id]
      ensures ParseFilter(q).Failure? ==> r == Failure(Invalid(ParseFilter(q).error))
      ensures ParseFilter(q).Success? && r.Failure? ==> r.error == NotFound
    {
      Guarded(CheckPermissions(Retrieve, caller),
        match GetObject(pets, q, id)
        case Failure(e) => Failure(e)
        case Success(pet) => Guarded(CheckObjectPermissions(Retrieve, caller, pet), Success(pet)))
    }

    /** The list action: open to every caller; the filter selects exactly the
        pets equal to each supplied value, and only a malformed filter fails. */
    function ListPets(caller: Caller, q: FilterQuery): (r: Result<set<PetId>, ApiError>)
      reads this
      ensures r.Success? <==> ParseFilter(q).Success?
      ensures r.Failure? ==> r.error == Invalid(ParseFilter(q).error)
      ensures r.Success? ==> forall id :: id in r.value <==> id in pets && Matches(pets[id], ParseFilter(q).value)
    {
      Guarded(CheckPermissions(List, caller),
        match ParseFilter(q)
        case Failure(e) => Failure(Invalid(e))
        case Success(f) => Success(Select(pets, f)))
    }

    /** The update (PUT, `partial` false) and partial_update (PATCH) actions:
        authentication, get_object (the query's filter, then the lookup), the
        owner check, validation, then save. The owner never changes. */
    method UpdatePet(caller: Caller, id: PetId, q: FilterQuery, data: PetData, partial: bool) returns (r: Result<Pet, ApiError>)
      requires Valid() && KnownCaller(caller)
      modifies this`pets
      ensures Valid()
      ensures caller.Anonymous? ==> r == Failure(NotAuthenticated)
      ensures caller.Authenticated? && ParseFilter(q).Failure? ==> r == Failure(Invalid(ParseFilter(q).error))
      ensures (caller.Authenticated? && ParseFilter(q).Success?
        && (id !in old(pets) || !Matches(old(pets)[id], ParseFilter(q).value))) ==> r == Failure(NotFound)
      ensures caller.Authenticated? && GetObject(old(pets), q, id).Success? && old(pets)[id].owner != caller.user ==>
        r == Failure(PermissionDenied)
      ensures (caller.Authenticated? && GetObject(old(pets), q, id).Success? && old(pets)[id].owner == caller.user
        && ValidatePet(data, partial).Failure?) ==> r == Failure(Invalid(ValidatePet(data, partial).error))
      ensures r.Failure? ==> pets == old(pets)
      ensures r.Success? <==>
        caller.Authenticated? && GetObject(old(pets), q, id).Success? && old(pets)[id].owner == caller.user
        && ValidatePet(data, partial).Success?
      ensures r.Success? ==>
        && r.value == ApplyPetChanges(old(pets)[id], ValidatePet(data, partial).value)
        && r.value.owner == old(pets)[id].owner
        && pets == old(pets)[id := r.value]
    {
      var action := if partial then PartialUpdate else Update;
      var denied := CheckPermissions(action, caller);
      if denied.Some? {
        return Failure(denied.value);
      }
      var found := GetObject(pets, q, id);
      if found.Failure? {
        return Failure(found.error);
      }
      var pet := found.value;
      var forbidden := CheckObjectPermissions(action, caller, pet);
      if forbidden.Some? {
        return Failure(forbidden.value);
      }
      var v := ValidatePet(data, partial);
      if v.Failure? {
        return Failure(Invalid(v.error));
      }
      var updated := ApplyPetChanges(pet, v.value);
      pets := pets[id := updated];
      r := Success(updated);
    }

    /** `Pet.delete()`: the pet goes, and with it (CASCADE) exactly the
        requests about it; every other row stays. */
    method DeletePet(id: PetId)
      requires Valid() && id in pets
      modifies this`pets, this`requests
      ensures Valid()
      ensures pets == old(pets) - {id}
      ensures requests == RequestsWithout(old(requests), {id})
    {
      CascadeKeepsLinks(users, tokens, pets, requests, {id});
      requests := RequestsWithout(requests, {id});
      pets := pets - {id};
    }

    /** The destroy action: authentication, get_object (the query's filter,
        then the lookup), the owner check, then the cascading delete. */
    method DestroyPet(caller: Caller, id: PetId, q: FilterQuery) returns (r: Option<ApiError>)
      requires Valid() && KnownCaller(caller)
      modifies this`pets, this`requests
      ensures Valid()
      ensures caller.Anonymous? ==> r == Some(NotAuthenticated)
      ensures caller.Authenticated? && ParseFilter(q).Failure? ==> r == Some(Invalid(ParseFilter(q).error))
      ensures (caller.Authenticated? && ParseFilter(q).Success?
        && (id !in old(pets) || !Matches(old(pets)[id], ParseFilter(q).value))) ==> r == Some(NotFound)
      ensures caller.Authenticated? && GetObject(old(pets), q, id).Success? && old(pets)[id].owner != caller.user ==>
        r == Some(PermissionDenied)
      ensures r.None? <==> caller.Authenticated? && GetObject(old(pets), q, id).Success? && old(pets)[id].owner == caller.user
      ensures r.Some? ==> pets == old(pets) && requests == old(requests)
      ensures r.None? ==> pets == old(pets) - {id} && requests == RequestsWithout(old(requests), {id})
    {
      var denied := CheckPermissions(Destroy, caller);
      if denied.Some? {
        return denied;
      }
      var found := GetObject(pets, q, id);
      if found.Failure? {
        return Some(found.error);
      }
      var forbidden := CheckObjectPermissions(Destroy, caller, found.value);
      if forbidden.Some? {
        return forbidden;
      }
      DeletePet(id);
      r := None;
    }

    /** Deleting a user (done outside the handlers): CASCADE removes their
        token, the pets they own, and those pets' requests. */
    method DeleteUser(u: UserId)
      requires Valid() && u in users
      modifies this`users, this`tokens, this`pets, this`requests
      ensures Valid()
      ensures users == old(users) - {u} && tokens == old(tokens) - {u}
      ensures pets == old(pets) - PetsOwnedBy(old(pets), u)
      ensures requests == RequestsWithout(old(requests), PetsOwnedBy(old(pets), u))
    {
      var doomed := PetsOwnedBy(pets, u);
      UserCascadeKeepsLinks(users, tokens, pets, requests, u);
      requests := RequestsWithout(requests, doomed);
      pets := pets - doomed;
      tokens := tokens - {u};
      users := users - {u};
    }

    /** AdoptionRequestCreateSerializer.save: the pet key must name a stored
        pet, the contact fields must be valid, and `created_at` is set to the
        time of insertion. */
    method CreateRequest(data: RequestData, now: int) returns (r: Result<RequestId, ApiError>)
      requires Valid()
      modifies this`requests, this`nextRequest
      ensures Valid()
      ensures var v := ValidateRequestCreate(data, old(pets).Keys);
        && (r.Success? <==> v.Success?)
        && (v.Failure? ==> r == Failure(Invalid(v.error)) && requests == old(requests))
        && (v.Success? ==>
              && r.value !in old(requests)
              && requests == old(requests)[r.value := NewRequest(v.value.0, v.value.1, now)])
    {
      var v := ValidateRequestCreate(data, pets.Keys);
      if v.Failure? {
        return Failure(Invalid(v.error));
      }
      var (pet, changes) := v.value;
      var request := NewRequest(pet, changes, now);
      r := Success(nextRequest);
      requests := requests[nextRequest := request];
      nextRequest := nextRequest + 1;
    }

    /** The requests a caller may see: those IsPetOwner admits, i.e. those
        about the caller's own pets. */
    function VisibleRequests(caller: Caller): (r: set<RequestId>)
      reads this
      requires Valid()
      ensures forall rid :: rid in r <==>
        rid in requests && caller == Authenticated(pets[requests[rid].pet].owner)
    {
      set rid | rid in requests && IsPetOwner(Get, caller, requests[rid], pets)
    }
  }
}
