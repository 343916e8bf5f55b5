/** The Parent schema: `name` and `role` required, five optional string
    columns, no defaults. `role` is meant to be "Sire" or "Dam", but the
    schema does not check it. */
module ParentModel {
  import opened Wrappers

  /** A create or update body, one field per column (never an id). */
  datatype ParentBody = ParentBody(
    name: Field<string>,
    role: Field<string>,
    breed: Field<string>,
    color: Field<string>,
    weight: Field<string>,
    description: Field<string>,
    image: Field<string>)

  /** A stored Parent's columns; `None` is a SQL null. */
  datatype Parent = Parent(
    name: string,
    role: string,
    breed: Option<string>,
    color: Option<string>,
    weight: Option<string>,
    description: Option<string>,
    image: Option<string>)

  /** The body with no keys at all. */
  const EmptyBody: ParentBody :=
    ParentBody(Absent, Absent, Absent, Absent, Absent, Absent, Absent)

  /** `allowNull: false` on `name` and `role`: both keys present and not null. */
  predicate Accepts(b: ParentBody) {
    b.name.Given? && b.role.Given?
  }

  /** `Parent.create(body)`: validation, then the record. The ORM gathers
      every violated attribute into one error, which the handler never
      shows; naming only the first one is a simplification. */
  function Build(b: ParentBody): (r: Checked<Parent>)
    ensures r.Ok? <==> Accepts(b)
    ensures !b.name.Given? ==> r == NotNull("name")
    ensures b.name.Given? && !b.role.Given? ==> r == NotNull("role")
  {
    if !b.name.Given? then NotNull("name")
    else if !b.role.Given? then NotNull("role")
    else Ok(Parent(
      b.name.value,
      b.role.value,
      b.breed.Nullable(),
      b.color.Nullable(),
      b.weight.Nullable(),
      b.description.Nullable(),
      b.image.Nullable()))
  }

  /** `Parent.update(body)` validates only the keys it is given. */
  predicate PatchAccepts(b: ParentBody) {
    !b.name.Null? && !b.role.Null?
  }

  /** Every key the body supplies already holds in the record. */
  predicate Agrees(p: Parent, b: ParentBody) {
    && (b.name.Given? ==> p.name == b.name.value)
    && (b.role.Given? ==> p.role == b.role.value)
    && (!b.breed.Absent? ==> p.breed == b.breed.Nullable())
    && (!b.color.Absent? ==> p.color == b.color.Nullable())
    && (!b.weight.Absent? ==> p.weight == b.weight.Nullable())
    && (!b.description.Absent? ==> p.description == b.description.Nullable())
    && (!b.image.Absent? ==> p.image == b.image.Nullable())
  }

  /** The merge an update performs: afterwards the record holds every
      supplied key, and a body the record already agrees with changes nothing. */
  function Apply(p: Parent, b: ParentBody): (r: Parent)
    requires PatchAccepts(b)
    ensures Agrees(r, b)
    ensures Agrees(p, b) ==> r == p
  {
    Parent(
      Overwrite(p.name, b.name),
      Overwrite(p.role, b.role),
      OverwriteNullable(p.breed, b.breed),
      OverwriteNullable(p.color, b.color),
      OverwriteNullable(p.weight, b.weight),
      OverwriteNullable(p.description, b.description),
      OverwriteNullable(p.image, b.image))
  }

  /** A stored record written back as a body: every column present, null
      where the column is null. Used by the round-trip lemmas below. */
  function Serialize(p: Parent): (b: ParentBody)
    ensures Accepts(b) && PatchAccepts(b) && Agrees(p, b)
    ensures !b.breed.Absent? && !b.color.Absent? && !b.weight.Absent?
    ensures !b.description.Absent? && !b.image.Absent?
  {
    ParentBody(Given(p.name), Given(p.role), FromColumn(p.breed), FromColumn(p.color),
               FromColumn(p.weight), FromColumn(p.description), FromColumn(p.image))
  }

  /** Any string is a role, not only "Sire" and "Dam". */
  lemma BuildAcceptsAnyRole(name: string, role: string)
    ensures Build(EmptyBody.(name := Given(name), role := Given(role))) ==
            Ok(Parent(name, role, None, None, None, None, None))
  {
  }

  /** The required columns hold what was sent; optional columns hold a
      supplied value and stay null when left out. */
  lemma BuildKeepsSupplied(b: ParentBody)
    requires Accepts(b)
    ensures Build(b).value.name == b.name.value && Build(b).value.role == b.role.value
    ensures Build(b).value.breed == b.breed.Nullable()
    ensures Build(b).value.color == b.color.Nullable()
    ensures Build(b).value.weight == b.weight.Nullable()
    ensures Build(b).value.description == b.description.Nullable()
    ensures Build(b).value.image == b.image.Nullable()
  {
  }

  /** Posting a record as it is served stores that same record. */
  lemma BuildSerialize(p: Parent)
    ensures Build(Serialize(p)) == Ok(p)
  {
  }

  /** Only supplied keys change; every other column keeps its value. */
  lemma ApplyOverwritesSupplied(p: Parent, b: ParentBody)
    requires PatchAccepts(b)
    ensures Apply(p, b).name == if b.name.Given? then b.name.value else p.name
    ensures Apply(p, b).role == if b.role.Given? then b.role.value else p.role
    ensures Apply(p, b).breed == if b.breed.Absent? then p.breed else b.breed.Nullable()
    ensures Apply(p, b).color == if b.color.Absent? then p.color else b.color.Nullable()
    ensures Apply(p, b).weight == if b.weight.Absent? then p.weight else b.weight.Nullable()
    ensures Apply(p, b).description == if b.description.Absent? then p.description else b.description.Nullable()
    ensures Apply(p, b).image == if b.image.Absent? then p.image else b.image.Nullable()
  {
  }

  /** Applying the same body twice gives the record applying it once gives. */
  lemma ApplyIdempotent(p: Parent, b: ParentBody)
    requires PatchAccepts(b)
    ensures Apply(Apply(p, b), b) == Apply(p, b)
  {
  }

  /** An update with no keys leaves the record as it was. */
  lemma ApplyEmpty(p: Parent)
    ensures Apply(p, EmptyBody) == p
  {
  }

  /** An update carrying a whole served record replaces every column. */
  lemma ApplySerialize(p: Parent, q: Parent)
    ensures PatchAccepts(Serialize(q)) && Apply(p, Serialize(q)) == q
  {
  }
}
