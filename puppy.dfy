/** The Puppy schema: two required string columns, optional columns without
    defaults, a `status` that defaults to "Available" and an `images` list
    that defaults to the empty list. A default applies only when the key is
    missing from the body; an explicit null is stored as null. */
module PuppyModel {
  import opened Wrappers

  /** A create or update body, one field per column (never an id). */
  datatype PuppyBody = PuppyBody(
    name: Field<string>,
    breed: Field<string>,
    color: Field<string>,
    gender: Field<string>,
    price: Field<int>,
    status: Field<string>,
    dob: Field<string>,
    description: Field<string>,
    images: Field<seq<string>>)

  /** A stored Puppy's columns; `None` is a SQL null. */
  datatype Puppy = Puppy(
    name: string,
    breed: string,
    color: Option<string>,
    gender: Option<string>,
    price: Option<int>,
    status: Option<string>,
    dob: Option<string>,
    description: Option<string>,
    images: Option<seq<string>>)

  const DefaultStatus: string := "Available"

  /** The body with no keys at all. */
  const EmptyBody: PuppyBody :=
    PuppyBody(Absent, Absent, Absent, Absent, Absent, Absent, Absent, Absent, Absent)

  /** `allowNull: false` on `name` and `breed`: both keys present and not null. */
  predicate Accepts(b: PuppyBody) {
    b.name.Given? && b.breed.Given?
  }

  /** `Puppy.create(body)`: validation, then the record with defaults filled in.
      The ORM gathers every violated attribute into one error, which the
      handler never shows; naming only the first one is a simplification. */
  function Build(b: PuppyBody): (r: Checked<Puppy>)
    ensures r.Ok? <==> Accepts(b)
    ensures !b.name.Given? ==> r == NotNull("name")
    ensures b.name.Given? && !b.breed.Given? ==> r == NotNull("breed")
  {
    if !b.name.Given? then NotNull("name")
    else if !b.breed.Given? then NotNull("breed")
    else Ok(Puppy(
      b.name.value,
      b.breed.value,
      b.color.Nullable(),
      b.gender.Nullable(),
      b.price.Nullable(),
      WithDefault(b.status, DefaultStatus),
      b.dob.Nullable(),
      b.description.Nullable(),
      WithDefault(b.images, [])))
  }

  /** `Puppy.update(body)` validates only the keys it is given: a required
      column may be left out, but not set to null. */
  predicate PatchAccepts(b: PuppyBody) {
    !b.name.Null? && !b.breed.Null?
  }

  /** Every key the body supplies already holds in the record: a supplied
      value is the stored one, a supplied null is a null column. */
  predicate Agrees(p: Puppy, b: PuppyBody) {
    && (b.name.Given? ==> p.name == b.name.value)
    && (b.breed.Given? ==> p.breed == b.breed.value)
    && (!b.color.Absent? ==> p.color == b.color.Nullable())
    && (!b.gender.Absent? ==> p.gender == b.gender.Nullable())
    && (!b.price.Absent? ==> p.price == b.price.Nullable())
    && (!b.status.Absent? ==> p.status == b.status.Nullable())
    && (!b.dob.Absent? ==> p.dob == b.dob.Nullable())
    && (!b.description.Absent? ==> p.description == b.description.Nullable())
    && (!b.images.Absent? ==> p.images == b.images.Nullable())
  }

  /** The merge an update performs: afterwards the record holds every
      supplied key, and a body the record already agrees with changes nothing. */
  function Apply(p: Puppy, b: PuppyBody): (r: Puppy)
    requires PatchAccepts(b)
    ensures Agrees(r, b)
    ensures Agrees(p, b) ==> r == p
  {
    Puppy(
      Overwrite(p.name, b.name),
      Overwrite(p.breed, b.breed),
      OverwriteNullable(p.color, b.color),
      OverwriteNullable(p.gender, b.gender),
      OverwriteNullable(p.price, b.price),
      OverwriteNullable(p.status, b.status),
      OverwriteNullable(p.dob, b.dob),
      OverwriteNullable(p.description, b.description),
      OverwriteNullable(p.images, b.images))
  }

  /** A stored record written back as a body: every column present, null
      where the column is null. Used by the round-trip lemmas below. */
  function Serialize(p: Puppy): (b: PuppyBody)
    ensures Accepts(b) && PatchAccepts(b) && Agrees(p, b)
    ensures !b.color.Absent? && !b.gender.Absent? && !b.price.Absent? && !b.status.Absent?
    ensures !b.dob.Absent? && !b.description.Absent? && !b.images.Absent?
  {
    PuppyBody(
      Given(p.name),
      Given(p.breed),
      FromColumn(p.color),
      FromColumn(p.gender),
      FromColumn(p.price),
      FromColumn(p.status),
      FromColumn(p.dob),
      FromColumn(p.description),
      FromColumn(p.images))
  }

  /** A missing `status` becomes "Available" and a missing `images` the empty
      list; supplied values, null included, are stored exactly as given. */
  lemma BuildDefaults(b: PuppyBody)
    requires Accepts(b)
    ensures b.status.Absent? ==> Build(b).value.status == Some("Available")
    ensures !b.status.Absent? ==> Build(b).value.status == b.status.Nullable()
    ensures b.images.Absent? ==> Build(b).value.images == Some([])
    ensures !b.images.Absent? ==> Build(b).value.images == b.images.Nullable()
  {
  }

  /** The required columns hold what was sent, and the optional columns
      without a default hold a supplied value and stay null otherwise. */
  lemma BuildKeepsSupplied(b: PuppyBody)
    requires Accepts(b)
    ensures Build(b).value.name == b.name.value && Build(b).value.breed == b.breed.value
    ensures Build(b).value.price == b.price.Nullable()
    ensures b.price.Given? ==> Build(b).value.price == Some(b.price.value)
    ensures Build(b).value.color == b.color.Nullable()
    ensures Build(b).value.gender == b.gender.Nullable()
    ensures Build(b).value.dob == b.dob.Nullable()
    ensures Build(b).value.description == b.description.Nullable()
    ensures b.images.Given? ==> Build(b).value.images == Some(b.images.value)
  {
  }

  /** Nothing but presence is checked: empty strings are accepted. */
  lemma BuildAcceptsEmptyStrings()
    ensures Build(EmptyBody.(name := Given(""), breed := Given(""))).Ok?
    ensures Build(EmptyBody.(name := Given(""), breed := Given(""))).value.name == ""
  {
  }

  /** Posting a record as it is served stores that same record. */
  lemma BuildSerialize(p: Puppy)
    ensures Build(Serialize(p)) == Ok(p)
  {
  }

  /** Only supplied keys change; every other column keeps its value. */
  lemma ApplyOverwritesSupplied(p: Puppy, b: PuppyBody)
    requires PatchAccepts(b)
    ensures Apply(p, b).name == if b.name.Given? then b.name.value else p.name
    ensures Apply(p, b).breed == if b.breed.Given? then b.breed.value else p.breed
    ensures Apply(p, b).color == if b.color.Absent? then p.color else b.color.Nullable()
    ensures Apply(p, b).gender == if b.gender.Absent? then p.gender else b.gender.Nullable()
    ensures Apply(p, b).price == if b.price.Absent? then p.price else b.price.Nullable()
    ensures Apply(p, b).status == if b.status.Absent? then p.status else b.status.Nullable()
    ensures Apply(p, b).dob == if b.dob.Absent? then p.dob else b.dob.Nullable()
    ensures Apply(p, b).description == if b.description.Absent? then p.description else b.description.Nullable()
    ensures Apply(p, b).images == if b.images.Absent? then p.images else b.images.Nullable()
  {
  }

  /** Applying the same body twice gives the record applying it once gives. */
  lemma ApplyIdempotent(p: Puppy, b: PuppyBody)
    requires PatchAccepts(b)
    ensures Apply(Apply(p, b), b) == Apply(p, b)
  {
  }

  /** An update with no keys leaves the record as it was. */
  lemma ApplyEmpty(p: Puppy)
    ensures Apply(p, EmptyBody) == p
  {
  }

  /** An update carrying a whole served record replaces every column. */
  lemma ApplySerialize(p: Puppy, q: Puppy)
    ensures PatchAccepts(Serialize(q)) && Apply(p, Serialize(q)) == q
  {
  }

  /** An accepted create body is also an accepted update body, and re-sending
      it as an update changes nothing. */
  lemma ApplyCreateBody(b: PuppyBody)
    requires Accepts(b)
    ensures PatchAccepts(b) && Apply(Build(b).value, b) == Build(b).value
  {
  }
}
