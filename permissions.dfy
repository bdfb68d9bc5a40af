/** The two object-level permission rules (pets/permissions.py). Each is a
    pure decision over the HTTP method, the caller and the object. */
module Permissions {
  import opened Models

  datatype HttpMethod = Get | Post | Put | Patch | Delete | Head | Options | Trace

  /** The methods that only read (DRF's SAFE_METHODS). */
  const SAFE_METHODS: set<HttpMethod> := {Get, Head, Options}

  predicate IsSafe(m: HttpMethod) {
    m in SAFE_METHODS
  }

  /** Who sends the request: the anonymous user, or a user authenticated by token. */
  datatype Caller = Anonymous | Authenticated(user: UserId)

  /** `owner == request.user`: only an authenticated caller with that id is
      equal to a stored user; the anonymous user equals no user. */
  predicate IsUser(owner: UserId, c: Caller) {
    c.Authenticated? && c.user == owner
  }

  /** IsOwnerOrReadOnly.has_object_permission, for objects with an owner (a Pet). */
  predicate IsOwnerOrReadOnly(m: HttpMethod, c: Caller, obj: Pet) {
    if IsSafe(m) then true else IsUser(obj.owner, c)
  }

  /** IsPetOwner.has_object_permission, for an adoption request: the owner of
      the request's pet, looked up in the pet table, must be the caller. */
  predicate IsPetOwner(m: HttpMethod, c: Caller, obj: AdoptionRequest, pets: map<PetId, Pet>)
    requires obj.pet in pets
  {
    IsUser(pets[obj.pet].owner, c)
  }

  lemma SafeMethodAlwaysPermitted(m: HttpMethod, c: Caller, obj: Pet)
    requires IsSafe(m)
    ensures IsOwnerOrReadOnly(m, c, obj)
  {
  }

  lemma UnsafeMethodNeedsOwner(m: HttpMethod, c: Caller, obj: Pet)
    requires !IsSafe(m)
    ensures IsOwnerOrReadOnly(m, c, obj) <==> c == Authenticated(obj.owner)
  {
  }

  lemma OwnerPermittedEveryMethod(m: HttpMethod, obj: Pet)
    ensures IsOwnerOrReadOnly(m, Authenticated(obj.owner), obj)
  {
  }

  /** Alice owns the pet: Bob may view it, but not edit or delete it. */
  lemma NonOwnerOnlyReads(c: Caller, obj: Pet)
    requires c != Authenticated(obj.owner)
    ensures IsOwnerOrReadOnly(Get, c, obj)
    ensures !IsOwnerOrReadOnly(Put, c, obj)
    ensures !IsOwnerOrReadOnly(Patch, c, obj)
    ensures !IsOwnerOrReadOnly(Delete, c, obj)
  {
  }

  lemma IsPetOwnerExactly(m: HttpMethod, c: Caller, obj: AdoptionRequest, pets: map<PetId, Pet>)
    requires obj.pet in pets
    ensures IsPetOwner(m, c, obj, pets) <==> c == Authenticated(pets[obj.pet].owner)
  {
  }

  lemma IsPetOwnerIgnoresMethod(m1: HttpMethod, m2: HttpMethod, c: Caller, obj: AdoptionRequest, pets: map<PetId, Pet>)
    requires obj.pet in pets
    ensures IsPetOwner(m1, c, obj, pets) == IsPetOwner(m2, c, obj, pets)
  {
  }

  /** There is no read exception for requests: a non-owner of the pet may not even GET them. */
  lemma IsPetOwnerNoReadException(c: Caller, obj: AdoptionRequest, pets: map<PetId, Pet>)
    requires obj.pet in pets && c != Authenticated(pets[obj.pet].owner)
    ensures !IsPetOwner(Get, c, obj, pets)
    ensures IsOwnerOrReadOnly(Get, c, pets[obj.pet])
  {
  }

  /** What IsPetOwner permits on a request, IsOwnerOrReadOnly permits on its pet. */
  lemma IsPetOwnerImpliesOwnerOrReadOnly(m: HttpMethod, c: Caller, obj: AdoptionRequest, pets: map<PetId, Pet>)
    requires obj.pet in pets && IsPetOwner(m, c, obj, pets)
    ensures IsOwnerOrReadOnly(m, c, pets[obj.pet])
  {
  }
}
