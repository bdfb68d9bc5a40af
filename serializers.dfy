/** Input validation and field handling (pets/serializers.py): signup
    validation and user creation, how the pet and adoption-request
    serializers bind their fields, which submitted values they accept, and
    how validated values become or change a row. */
module Serializers {
  import opened Wrappers
  import opened Models

  /** The field and attribute names the serializers refer to, one constructor
      per Python name (`PhotoUrlField` is `photo_url`, `CreatedAtField` is
      `created_at`, and so on). */
  datatype FieldName =
    | IdField | PkField | UsernameField | EmailField | PasswordField
    | NameField | AgeField | SpeciesField | CityField | PhotoField | PhotoUrlField
    | StatusField | DescriptionField | OwnerField | AdoptionRequestsField
    | PetField | RequesterNameField | PhoneField | MessageField | CreatedAtField

  /** DRF's validation error codes used here. */
  datatype ErrorCode = Required | Blank | InvalidChoice | MinValue | MinLength | Unique | DoesNotExist

  /** One entry of a ValidationError: the field it is about and why. */
  datatype FieldError = FieldError(field: FieldName, code: ErrorCode)

  /** A text field that may not be blank: missing is an error when the field is required. */
  function TextErrors(field: FieldName, v: Option<string>, required: bool): set<FieldError> {
    match v
    case None => if required then {FieldError(field, Required)} else {}
    case Some(s) => if s == "" then {FieldError(field, Blank)} else {}
  }

  /** A choice field: the submitted value must be one of the stored keys ("" is not). */
  function ChoiceErrors(field: FieldName, v: Option<string>, keys: set<string>, required: bool): set<FieldError> {
    match v
    case None => if required then {FieldError(field, Required)} else {}
    case Some(s) => if s in keys then {} else {FieldError(field, InvalidChoice)}
  }

  // ---------------------------------------------------------------------
  // SignupSerializer

  const PASSWORD_MIN_LENGTH: nat := 8

  /** The submitted signup body; each key may be absent. */
  datatype SignupData = SignupData(username: Option<string>, email: Option<string>, password: Option<string>)

  /** `validated_data` of a signup that passed validation. */
  datatype ValidSignup = ValidSignup(username: string, email: Option<string>, password: string)

  /** `username`: required, not blank, unique among the existing usernames. */
  function UsernameErrors(u: Option<string>, taken: set<string>): set<FieldError> {
    if u.Some? && u.value != "" && u.value in taken then {FieldError(UsernameField, Unique)}
    else TextErrors(UsernameField, u, true)
  }

  /** `password`: required, not blank, at least PASSWORD_MIN_LENGTH characters. */
  function PasswordErrors(p: Option<string>): set<FieldError> {
    if p.Some? && p.value != "" && |p.value| < PASSWORD_MIN_LENGTH then {FieldError(PasswordField, MinLength)}
    else TextErrors(PasswordField, p, true)
  }

  /** The signup rules stated declaratively; `email` may be absent or blank. */
  predicate SignupAcceptable(d: SignupData, taken: set<string>) {
    && d.username.Some? && d.username.value != "" && d.username.value !in taken
    && d.password.Some? && |d.password.value| >= PASSWORD_MIN_LENGTH
  }

  /** `is_valid` of SignupSerializer, given the usernames already taken. */
  function ValidateSignup(d: SignupData, taken: set<string>): (r: Result<ValidSignup, set<FieldError>>)
    ensures r.Success? <==> SignupAcceptable(d, taken)
    ensures r.Success? ==> r.value == ValidSignup(d.username.value, d.email, d.password.value)
    ensures r.Failure? ==> r.error != {}
    ensures r.Failure? ==>
      (FieldError(PasswordField, MinLength) in r.error <==> d.password.Some? && 0 < |d.password.value| < PASSWORD_MIN_LENGTH)
    ensures r.Failure? ==>
      (FieldError(UsernameField, Unique) in r.error <==> d.username.Some? && d.username.value != "" && d.username.value in taken)
  {
    var errors := UsernameErrors(d.username, taken) + PasswordErrors(d.password);
    if errors == {} then Success(ValidSignup(d.username.value, d.email, d.password.value))
    else Failure(errors)
  }

  lemma ShortPasswordRejected(d: SignupData, taken: set<string>)
    requires d.password.Some? && |d.password.value| < PASSWORD_MIN_LENGTH
    ensures ValidateSignup(d, taken).Failure?
  {
  }

  lemma EmailIsOptional(d: SignupData, taken: set<string>)
    requires ValidateSignup(d, taken).Success?
    ensures ValidateSignup(d.(email := None), taken).Success?
  {
  }

  /** The User object `create` builds before saving it: in Python its
      `email` attribute may be None. */
  datatype UserInstance = UserInstance(username: string, email: Option<string>, password: string)

  datatype DbError = NotNullViolation(column: FieldName)

  /** `user.save()`: inserting the row fails when a NOT NULL column (email) holds None. */
  function SaveUser(u: UserInstance): Result<User, DbError> {
    match u.email
    case None => Failure(NotNullViolation(EmailField))
    case Some(e) => Success(User(u.username, e, u.password))
  }

  /** SignupSerializer.create as written: the email is read with `.get`, so it
      is None when none was sent; then `set_password`, then `save`. */
  function CreateUserAsWritten(v: ValidSignup, hasher: string -> string): Result<User, DbError> {
    var user := UserInstance(v.username, v.email, "");
    var hashed := user.(password := hasher(v.password));
    SaveUser(hashed)
  }

  /** As written, a signup without an email passes validation and then fails to save. */
  lemma SignupWithoutEmailFailsAsWritten(v: ValidSignup, hasher: string -> string)
    requires v.email.None?
    ensures CreateUserAsWritten(v, hasher) == Failure(NotNullViolation(EmailField))
  {
  }

  /** SignupSerializer.create with the absent email stored as empty: the save
      always succeeds, the username is the submitted one, and the password
      column holds only the hasher's result. */
  function CreateUser(v: ValidSignup, hasher: string -> string): (u: User)
    ensures u.username == v.username
    ensures u.password == hasher(v.password)
    ensures v.email.Some? ==> u.email == v.email.value
    ensures v.email.None? ==> u.email == ""
  {
    var user := UserInstance(v.username, Some(v.email.GetOr("")), "");
    var hashed := user.(password := hasher(v.password));
    var saved := SaveUser(hashed);
    saved.value
  }

  // ---------------------------------------------------------------------
  // Field binding of the model serializers

  datatype ConfigError = ImproperlyConfigured(field: FieldName)

  datatype BoundField = BoundField(name: FieldName, readOnly: bool)

  /** ModelSerializer binding `Meta.fields`: every name must resolve on the
      model, else the serializer is improperly configured; `id` and the names
      in `readOnly` become read-only fields. */
  function BindFields(names: seq<FieldName>, attributes: set<FieldName>, readOnly: set<FieldName>): (r: Result<seq<BoundField>, ConfigError>)
    ensures r.Success? <==> forall i :: 0 <= i < |names| ==> names[i] in attributes
    ensures r.Failure? ==> exists i :: 0 <= i < |names| && FirstUnresolved(names, attributes, i) && r.error.field == names[i]
    ensures r.Success? ==> |r.value| == |names|
    ensures r.Success? ==> forall i :: 0 <= i < |names| ==>
      r.value[i] == BoundField(names[i], names[i] == IdField || names[i] in readOnly)
  {
    if names == [] then Success([])
    else if names[0] !in attributes then Failure(ImproperlyConfigured(names[0]))
    else
      match BindFields(names[1..], attributes, readOnly)
      case Failure(e) => Failure(e)
      case Success(rest) => Success([BoundField(names[0], names[0] == IdField || names[0] in readOnly)] + rest)
  }

  /** `names[i]` is the first name that does not resolve. */
  predicate FirstUnresolved(names: seq<FieldName>, attributes: set<FieldName>, i: nat) {
    i < |names| && names[i] !in attributes && forall j :: 0 <= j < i ==> names[j] in attributes
  }

  lemma FirstUnresolvedUnique(names: seq<FieldName>, attributes: set<FieldName>, i: nat)
    requires FirstUnresolved(names, attributes, i)
    ensures forall k :: FirstUnresolved(names, attributes, k) ==> k == i
  {
  }

  /** The names that resolve on Pet: its fields, `pk` and the reverse relation. */
  const PET_ATTRIBUTES: set<FieldName> :=
    {IdField, PkField, NameField, AgeField, SpeciesField, CityField, PhotoField, StatusField, DescriptionField, OwnerField, AdoptionRequestsField}

  /** PetSerializer.Meta.fields as written. */
  const PET_FIELDS_AS_WRITTEN: seq<FieldName> :=
    [IdField, NameField, AgeField, SpeciesField, CityField, PhotoField, PhotoUrlField, StatusField, DescriptionField, OwnerField]

  /** PetSerializer.Meta.fields without the name that does not resolve. */
  const PET_FIELDS: seq<FieldName> :=
    [IdField, NameField, AgeField, SpeciesField, CityField, PhotoField, StatusField, DescriptionField, OwnerField]

  const PET_READ_ONLY: set<FieldName> := {OwnerField}

  lemma PetFieldsAsWrittenDoNotBind()
    ensures BindFields(PET_FIELDS_AS_WRITTEN, PET_ATTRIBUTES, PET_READ_ONLY) == Failure(ImproperlyConfigured(PhotoUrlField))
  {
    var names := PET_FIELDS_AS_WRITTEN;
    assert names[0] in PET_ATTRIBUTES && names[1] in PET_ATTRIBUTES && names[2] in PET_ATTRIBUTES;
    assert names[3] in PET_ATTRIBUTES && names[4] in PET_ATTRIBUTES && names[5] in PET_ATTRIBUTES;
    assert names[6] !in PET_ATTRIBUTES;
    assert FirstUnresolved(names, PET_ATTRIBUTES, 6);
    FirstUnresolvedUnique(names, PET_ATTRIBUTES, 6);
  }

  lemma PetFieldsResolve()
    ensures forall i :: 0 <= i < |PET_FIELDS| ==> PET_FIELDS[i] in PET_ATTRIBUTES
  {
    var names := PET_FIELDS;
    assert names[0] in PET_ATTRIBUTES && names[1] in PET_ATTRIBUTES && names[2] in PET_ATTRIBUTES;
    assert names[3] in PET_ATTRIBUTES && names[4] in PET_ATTRIBUTES && names[5] in PET_ATTRIBUTES;
    assert names[6] in PET_ATTRIBUTES && names[7] in PET_ATTRIBUTES && names[8] in PET_ATTRIBUTES;
  }

  /** The corrected field list binds, and its read-only fields are exactly `id` and `owner`. */
  lemma PetFieldsBind()
    ensures BindFields(PET_FIELDS, PET_ATTRIBUTES, PET_READ_ONLY).Success?
    ensures var f := BindFields(PET_FIELDS, PET_ATTRIBUTES, PET_READ_ONLY).value;
      forall i :: 0 <= i < |f| ==> f[i].name == PET_FIELDS[i] && (f[i].readOnly <==> f[i].name in {IdField, OwnerField})
  {
    PetFieldsResolve();
    var f := BindFields(PET_FIELDS, PET_ATTRIBUTES, PET_READ_ONLY).value;
    forall i | 0 <= i < |f|
      ensures f[i].name == PET_FIELDS[i] && (f[i].readOnly <==> f[i].name in {IdField, OwnerField})
    {
      assert f[i] == BoundField(PET_FIELDS[i], PET_FIELDS[i] == IdField || PET_FIELDS[i] in PET_READ_ONLY);
    }
  }

  /** The names that resolve on AdoptionRequest. */
  const REQUEST_ATTRIBUTES: set<FieldName> :=
    {IdField, PkField, PetField, RequesterNameField, PhoneField, EmailField, MessageField, CreatedAtField}

  /** AdoptionRequestSerializer.Meta.fields. */
  const REQUEST_FIELDS: seq<FieldName> := [IdField, PetField, RequesterNameField, PhoneField, EmailField, MessageField, CreatedAtField]

  /** `created_at` from Meta.read_only_fields; `pet` is declared as a read-only nested serializer. */
  const REQUEST_READ_ONLY: set<FieldName> := {PetField, CreatedAtField}

  /** The request serializer binds, and its read-only fields are exactly `id`, `pet` and `created_at`. */
  lemma RequestFieldsBind()
    ensures BindFields(REQUEST_FIELDS, REQUEST_ATTRIBUTES, REQUEST_READ_ONLY).Success?
    ensures var f := BindFields(REQUEST_FIELDS, REQUEST_ATTRIBUTES, REQUEST_READ_ONLY).value;
      forall i :: 0 <= i < |f| ==> f[i].name == REQUEST_FIELDS[i] && (f[i].readOnly <==> f[i].name in {IdField, PetField, CreatedAtField})
  {
    var names := REQUEST_FIELDS;
    assert names[0] in REQUEST_ATTRIBUTES && names[1] in REQUEST_ATTRIBUTES && names[2] in REQUEST_ATTRIBUTES;
    assert names[3] in REQUEST_ATTRIBUTES && names[4] in REQUEST_ATTRIBUTES && names[5] in REQUEST_ATTRIBUTES;
    assert names[6] in REQUEST_ATTRIBUTES;
  }

  // ---------------------------------------------------------------------
  // PetSerializer input

  /** A submitted pet body. Every key may be absent; `owner` is whatever the
      client sent for the read-only field. */
  datatype PetData = PetData(
    name: Option<string>,
    age: Option<int>,
    species: Option<string>,
    city: Option<string>,
    photo: Option<string>,
    status: Option<string>,
    description: Option<string>,
    owner: Option<UserId>)

  /** `validated_data`: the writable fields that were supplied, converted. */
  datatype PetChanges = PetChanges(
    name: Option<string>,
    age: Option<nat>,
    species: Option<Species>,
    city: Option<string>,
    photo: Option<string>,
    status: Option<Status>,
    description: Option<string>)

  function AgeErrors(v: Option<int>, required: bool): set<FieldError> {
    match v
    case None => if required then {FieldError(AgeField, Required)} else {}
    case Some(n) => if n < 0 then {FieldError(AgeField, MinValue)} else {}
  }

  function PhotoErrors(v: Option<string>, required: bool): set<FieldError> {
    if v.None? && required then {FieldError(PhotoField, Required)} else {}
  }

  /** All field errors of a pet body; `partial` (PATCH) drops the required checks.
      `status` is never required: the model gives it a default. */
  function PetErrors(d: PetData, partial: bool): set<FieldError> {
    TextErrors(NameField, d.name, !partial)
    + AgeErrors(d.age, !partial)
    + ChoiceErrors(SpeciesField, d.species, SPECIES_KEYS, !partial)
    + TextErrors(CityField, d.city, !partial)
    + PhotoErrors(d.photo, !partial)
    + ChoiceErrors(StatusField, d.status, STATUS_KEYS, false)
    + TextErrors(DescriptionField, d.description, !partial)
  }

  /** The pet input rules stated declaratively. */
  predicate PetAcceptable(d: PetData, partial: bool) {
    && (!partial ==> d.name.Some? && d.age.Some? && d.species.Some? && d.city.Some? && d.photo.Some? && d.description.Some?)
    && (d.name.Some? ==> d.name.value != "")
    && (d.city.Some? ==> d.city.value != "")
    && (d.description.Some? ==> d.description.value != "")
    && (d.age.Some? ==> d.age.value >= 0)
    && (d.species.Some? ==> d.species.value in SPECIES_KEYS)
    && (d.status.Some? ==> d.status.value in STATUS_KEYS)
  }

  /** The changes carry exactly the supplied values, as their typed counterparts. */
  predicate Reflects(c: PetChanges, d: PetData) {
    && c.name == d.name && c.city == d.city && c.photo == d.photo && c.description == d.description
    && (c.age.Some? <==> d.age.Some?) && (c.age.Some? ==> c.age.value == d.age.value)
    && (c.species.Some? <==> d.species.Some?) && (c.species.Some? ==> c.species.value.Key() == d.species.value)
    && (c.status.Some? <==> d.status.Some?) && (c.status.Some? ==> c.status.value.Key() == d.status.value)
  }

  /** Every field a new row needs, apart from the defaulted status. */
  predicate Complete(c: PetChanges) {
    c.name.Some? && c.age.Some? && c.species.Some? && c.city.Some? && c.photo.Some? && c.description.Some?
  }

  /** `is_valid` of PetSerializer (full for create and PUT, partial for PATCH). */
  function ValidatePet(d: PetData, partial: bool): (r: Result<PetChanges, set<FieldError>>)
    ensures r.Success? <==> PetAcceptable(d, partial)
    ensures r.Failure? ==> r.error != {}
    ensures r.Success? ==> Reflects(r.value, d)
    ensures r.Success? && !partial ==> Complete(r.value)
  {
    var errors := PetErrors(d, partial);
    if errors != {} then Failure(errors)
    else
      assert AgeErrors(d.age, !partial) == {};
      assert ChoiceErrors(SpeciesField, d.species, SPECIES_KEYS, !partial) == {};
      assert ChoiceErrors(StatusField, d.status, STATUS_KEYS, false) == {};
      Success(PetChanges(
        d.name,
        if d.age.Some? then Some(d.age.value as nat) else None,
        if d.species.Some? then ParseSpecies(d.species.value) else None,
        d.city,
        d.photo,
        if d.status.Some? then ParseStatus(d.status.value) else None,
        d.description))
  }

  /** `save()` on update: the supplied fields replace the row's; `owner` is not a writable field. */
  function ApplyPetChanges(p: Pet, c: PetChanges): (q: Pet)
    ensures q.owner == p.owner
  {
    Pet(
      c.name.GetOr(p.name),
      c.age.GetOr(p.age),
      c.species.GetOr(p.species),
      c.city.GetOr(p.city),
      c.photo.GetOr(p.photo),
      c.status.GetOr(p.status),
      c.description.GetOr(p.description),
      p.owner)
  }

  /** `save(owner=...)` on create: a new row from the changes, with the model's
      default status when none was supplied. Every supplied value is stored. */
  function NewPet(c: PetChanges, owner: UserId): (p: Pet)
    requires Complete(c)
    ensures p.owner == owner
    ensures c.status.None? ==> p.status == DEFAULT_STATUS
    ensures ApplyPetChanges(p, c) == p
  {
    Pet(c.name.value, c.age.value, c.species.value, c.city.value, c.photo.value,
        c.status.GetOr(DEFAULT_STATUS), c.description.value, owner)
  }

  /** A client-supplied owner has no effect on validation. */
  lemma PetOwnerInputIgnored(d: PetData, partial: bool, o: Option<UserId>)
    ensures ValidatePet(d.(owner := o), partial) == ValidatePet(d, partial)
  {
  }

  /** Applying the same changes twice is applying them once. */
  lemma ApplyPetChangesIdempotent(p: Pet, c: PetChanges)
    ensures ApplyPetChanges(ApplyPetChanges(p, c), c) == ApplyPetChanges(p, c)
  {
  }

  /** A species or status outside the choices, or a negative age, is refused. */
  lemma PetInvalidValuesRejected(d: PetData, partial: bool)
    requires (d.age.Some? && d.age.value < 0)
          || (d.species.Some? && d.species.value !in SPECIES_KEYS)
          || (d.status.Some? && d.status.value !in STATUS_KEYS)
    ensures ValidatePet(d, partial).Failure?
  {
  }

  // ---------------------------------------------------------------------
  // AdoptionRequest serializers input

  /** A submitted adoption-request body; `pet` and `createdAt` are what the
      client sent for those keys. */
  datatype RequestData = RequestData(
    pet: Option<PetId>,
    requesterName: Option<string>,
    phone: Option<string>,
    email: Option<string>,
    message: Option<Option<string>>,
    createdAt: Option<int>)

  /** The contact fields that were supplied (`message` may be null). */
  datatype RequestChanges = RequestChanges(
    requesterName: Option<string>,
    phone: Option<string>,
    email: Option<string>,
    message: Option<Option<string>>)

  /** `requester_name`, `phone` and `email` are required and not blank;
      `message` is optional and may be null or blank. */
  function ContactErrors(d: RequestData, partial: bool): set<FieldError> {
    TextErrors(RequesterNameField, d.requesterName, !partial)
    + TextErrors(PhoneField, d.phone, !partial)
    + TextErrors(EmailField, d.email, !partial)
  }

  predicate ContactAcceptable(d: RequestData, partial: bool) {
    && (!partial ==> d.requesterName.Some? && d.phone.Some? && d.email.Some?)
    && (d.requesterName.Some? ==> d.requesterName.value != "")
    && (d.phone.Some? ==> d.phone.value != "")
    && (d.email.Some? ==> d.email.value != "")
  }

  function ContactChanges(d: RequestData): RequestChanges {
    RequestChanges(d.requesterName, d.phone, d.email, d.message)
  }

  /** `is_valid` of AdoptionRequestSerializer: `pet` and `created_at` are
      read-only, so what the client sent for them is not consulted. */
  function ValidateRequest(d: RequestData, partial: bool): (r: Result<RequestChanges, set<FieldError>>)
    ensures r.Success? <==> ContactAcceptable(d, partial)
    ensures r.Failure? ==> r.error != {}
    ensures r.Success? ==> r.value == ContactChanges(d)
  {
    var errors := ContactErrors(d, partial);
    if errors == {} then Success(ContactChanges(d)) else Failure(errors)
  }

  /** `save()` on update of a request: the contact fields change, the pet and
      the creation time never do. */
  function ApplyRequestChanges(r: AdoptionRequest, c: RequestChanges): (q: AdoptionRequest)
    ensures q.pet == r.pet && q.createdAt == r.createdAt
  {
    AdoptionRequest(
      r.pet,
      c.requesterName.GetOr(r.requesterName),
      c.phone.GetOr(r.phone),
      c.email.GetOr(r.email),
      c.message.GetOr(r.message),
      r.createdAt)
  }

  lemma RequestReadOnlyInputIgnored(d: RequestData, partial: bool, pet: Option<PetId>, createdAt: Option<int>)
    ensures ValidateRequest(d.(pet := pet, createdAt := createdAt), partial) == ValidateRequest(d, partial)
  {
  }

  /** `is_valid` of AdoptionRequestCreateSerializer: `pet` is a writable key
      that must name an existing pet; `created_at` is not one of its fields. */
  function ValidateRequestCreate(d: RequestData, pets: set<PetId>): (r: Result<(PetId, RequestChanges), set<FieldError>>)
    ensures r.Success? <==> d.pet.Some? && d.pet.value in pets && ContactAcceptable(d, false)
    ensures r.Failure? ==> r.error != {}
    ensures r.Success? ==> r.value == (d.pet.value, ContactChanges(d))
  {
    var petErrors :=
      if d.pet.None? then {FieldError(PetField, Required)}
      else if d.pet.value !in pets then {FieldError(PetField, DoesNotExist)}
      else {};
    var errors := petErrors + ContactErrors(d, false);
    if errors == {} then Success((d.pet.value, ContactChanges(d))) else Failure(errors)
  }

  /** The inserted request row: `created_at` is the insertion time and an
      absent message is NULL. */
  function NewRequest(pet: PetId, c: RequestChanges, now: int): (r: AdoptionRequest)
    requires c.requesterName.Some? && c.phone.Some? && c.email.Some?
    ensures r.pet == pet && r.createdAt == now
    ensures ApplyRequestChanges(r, c) == r
    ensures c.message.None? ==> r.message.None?
  {
    AdoptionRequest(pet, c.requesterName.value, c.phone.value, c.email.value, c.message.GetOr(None), now)
  }
}
