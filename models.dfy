/** The records of the registry (pets/models.py): users, pets and adoption
    requests, the two choice enumerations with the default status, and the
    fixed `__str__` renderings together with parsers that invert them. */
module Models {
  import opened Wrappers
  import opened Text

  /** Primary keys: the tables' auto-incremented ids. */
  type UserId = nat
  type PetId = nat
  type RequestId = nat

  /** A saved row of Django's user table. The `email` column is NOT NULL (it
      may be empty); `password` holds what `set_password` produced. */
  datatype User = User(username: string, email: string, password: string)

  /** The species choices; `Key` is the value stored in the column. */
  datatype Species = Dog | Cat | Bird {
    function Key(): (k: string)
      ensures k in SPECIES_KEYS
    {
      match this
      case Dog => "dog"
      case Cat => "cat"
      case Bird => "bird"
    }
  }

  const SPECIES_KEYS: set<string> := {"dog", "cat", "bird"}

  /** The status choices; `Key` is the value stored in the column. */
  datatype Status = Available | Adopted {
    function Key(): (k: string)
      ensures k in STATUS_KEYS
    {
      match this
      case Available => "available"
      case Adopted => "adopted"
    }
  }

  const STATUS_KEYS: set<string> := {"available", "adopted"}

  /** The status a pet gets when none is supplied. */
  const DEFAULT_STATUS: Status := Available

  /** The choice a submitted species value denotes, if it is one of the choices. */
  function ParseSpecies(s: string): (r: Option<Species>)
    ensures r.Some? <==> s in SPECIES_KEYS
    ensures r.Some? ==> r.value.Key() == s
  {
    if s == "dog" then Some(Dog)
    else if s == "cat" then Some(Cat)
    else if s == "bird" then Some(Bird)
    else None
  }

  /** The choice a submitted status value denotes, if it is one of the choices. */
  function ParseStatus(s: string): (r: Option<Status>)
    ensures r.Some? <==> s in STATUS_KEYS
    ensures r.Some? ==> r.value.Key() == s
  {
    if s == "available" then Some(Available)
    else if s == "adopted" then Some(Adopted)
    else None
  }

  lemma SpeciesRoundTrip(sp: Species)
    ensures ParseSpecies(sp.Key()) == Some(sp)
  {
  }

  lemma StatusRoundTrip(st: Status)
    ensures ParseStatus(st.Key()) == Some(st)
  {
  }

  /** A pet row. `age` is a `nat` (PositiveIntegerField), `species` and
      `status` can only hold their choices, `photo` is the stored image path
      and `owner` the id of the owning user. */
  datatype Pet = Pet(
    name: string,
    age: nat,
    species: Species,
    city: string,
    photo: string,
    status: Status,
    description: string,
    owner: UserId)

  /** An adoption-request row: `pet` is the id of the pet it is about;
      `message` may be NULL; `createdAt` is the time the row was inserted. */
  datatype AdoptionRequest = AdoptionRequest(
    pet: PetId,
    requesterName: string,
    phone: string,
    email: string,
    message: Option<string>,
    createdAt: int)

  // ---------------------------------------------------------------------
  // Pet.__str__: "<name> (<species>) - <status>"

  function SpeciesTag(sp: Species): string {
    " (" + sp.Key()
  }

  function StatusTag(st: Status): string {
    ") - " + st.Key()
  }

  function PetLabel(p: Pet): string {
    p.name + SpeciesTag(p.species) + StatusTag(p.status)
  }

  /** Reads the status back from the end of a pet label. */
  function ParseStatusTag(s: string): Option<(string, Status)> {
    match StripSuffix(s, StatusTag(Available))
    case Some(rest) => Some((rest, Available))
    case None =>
      match StripSuffix(s, StatusTag(Adopted))
      case Some(rest) => Some((rest, Adopted))
      case None => None
  }

  /** Reads the species back from the end of what precedes the status tag. */
  function ParseSpeciesTag(s: string): Option<(string, Species)> {
    match StripSuffix(s, SpeciesTag(Dog))
    case Some(rest) => Some((rest, Dog))
    case None =>
      match StripSuffix(s, SpeciesTag(Cat))
      case Some(rest) => Some((rest, Cat))
      case None =>
        match StripSuffix(s, SpeciesTag(Bird))
        case Some(rest) => Some((rest, Bird))
        case None => None
  }

  /** Recovers name, species and status from a pet label, reading from the
      right, so that any name (even one containing " (" or ") - ") is kept. */
  function ParsePetLabel(s: string): Option<(string, Species, Status)> {
    match ParseStatusTag(s)
    case None => None
    case Some((front, st)) =>
      match ParseSpeciesTag(front)
      case None => None
      case Some((name, sp)) => Some((name, sp, st))
  }

  lemma ParseStatusTagOf(front: string, st: Status)
    ensures ParseStatusTag(front + StatusTag(st)) == Some((front, st))
  {
    StripSuffixOfConcat(front, StatusTag(st));
    if st == Adopted {
      SuffixMismatch(front, StatusTag(Adopted), StatusTag(Available));
    }
  }

  lemma ParseSpeciesTagOf(name: string, sp: Species)
    ensures ParseSpeciesTag(name + SpeciesTag(sp)) == Some((name, sp))
  {
    StripSuffixOfConcat(name, SpeciesTag(sp));
    match sp
    case Dog =>
    case Cat =>
      SuffixMismatch(name, SpeciesTag(Cat), SpeciesTag(Dog));
    case Bird =>
      SuffixMismatch(name, SpeciesTag(Bird), SpeciesTag(Dog));
      SuffixMismatch(name, SpeciesTag(Bird), SpeciesTag(Cat));
  }

  /** The pet label determines the pet's name, species and status. */
  lemma PetLabelRoundTrip(p: Pet)
    ensures ParsePetLabel(PetLabel(p)) == Some((p.name, p.species, p.status))
  {
    ParseStatusTagOf(p.name + SpeciesTag(p.species), p.status);
    ParseSpeciesTagOf(p.name, p.species);
  }

  /** Two pets with the same label agree on name, species and status. */
  lemma PetLabelInjective(p: Pet, q: Pet)
    requires PetLabel(p) == PetLabel(q)
    ensures p.name == q.name && p.species == q.species && p.status == q.status
  {
    PetLabelRoundTrip(p);
    PetLabelRoundTrip(q);
  }

  // ---------------------------------------------------------------------
  // AdoptionRequest.__str__: "Adoption Request for <pet name> by <requester_name>"

  const REQUEST_PREFIX: string := "Adoption Request for "
  const SEPARATOR: string := " by "

  function RequestLabelOf(petName: string, requesterName: string): string {
    REQUEST_PREFIX + petName + SEPARATOR + requesterName
  }

  /** The label of a request, through its pet (`self.pet.name`). */
  function RequestLabel(r: AdoptionRequest, pets: map<PetId, Pet>): string
    requires r.pet in pets
  {
    RequestLabelOf(pets[r.pet].name, r.requesterName)
  }

  /** Splits a request label at the first separator after the prefix. */
  function ParseRequestLabel(s: string): Option<(string, string)> {
    match StripPrefix(s, REQUEST_PREFIX)
    case None => None
    case Some(rest) =>
      match IndexOf(rest, SEPARATOR, 0)
      case None => None
      case Some(i) => Some((rest[..i], rest[i + |SEPARATOR|..]))
  }

  /** No separator starts inside the pet name, even one running into the
      separator that follows it. */
  predicate SeparatorFree(petName: string) {
    forall i :: 0 <= i < |petName| ==> !OccursAt(petName + SEPARATOR, SEPARATOR, i)
  }

  /** For pet names in which no separator can start, the request label
      determines the pet name and the requester name. */
  lemma RequestLabelRoundTrip(petName: string, requesterName: string)
    requires SeparatorFree(petName)
    ensures ParseRequestLabel(RequestLabelOf(petName, requesterName)) == Some((petName, requesterName))
  {
    var head := petName + SEPARATOR;
    var rest := head + requesterName;
    assert RequestLabelOf(petName, requesterName) == REQUEST_PREFIX + rest;
    StripPrefixOfConcat(REQUEST_PREFIX, rest);
    assert rest[|petName|..|petName| + |SEPARATOR|] == SEPARATOR;
    assert OccursAt(rest, SEPARATOR, |petName|);
    forall j | 0 <= j < |petName|
      ensures !OccursAt(rest, SEPARATOR, j)
    {
      OccursAtExtended(head, requesterName, SEPARATOR, j);
    }
    var k := IndexOf(rest, SEPARATOR, 0);
    assert k == Some(|petName|);
    assert rest[..|petName|] == petName;
    assert rest[|petName| + |SEPARATOR|..] == requesterName;
  }

  /** Without that condition the label is ambiguous: two different
      (pet name, requester name) pairs render the same. */
  lemma RequestLabelAmbiguous()
    ensures RequestLabelOf("Rex by", "Bob") == RequestLabelOf("Rex", "by Bob")
    ensures !SeparatorFree("Rex by")
  {
    assert OccursAt("Rex by" + SEPARATOR, SEPARATOR, 3);
  }
}
