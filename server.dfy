/** The HTTP handlers: four CRUD handlers per entity over its table, the
    upload reply with the stored file's name, and the message reply.
    Each handler runs as one sequential step. `fault` stands for the
    database failing (unreachable, or rejecting the statement); the
    handlers then answer 500 and the table is left as it was. */
module Server {
  import opened Wrappers
  import opened Store
  import opened Runtime
  import PuppyModel
  import ParentModel

  type Puppy = PuppyModel.Puppy
  type Parent = ParentModel.Parent

  /** The JSON bodies the handlers send. */
  datatype Json =
    | PuppyObject(puppy: Row<Puppy>)
    | PuppyArray(puppies: seq<Row<Puppy>>)
    | ParentObject(parent: Row<Parent>)
    | ParentArray(parents: seq<Row<Parent>>)
    | ErrorObject(error: string)
    | UrlObject(url: string)
    | AckObject(success: bool, message: string)
    | NoContent

  datatype Response = Response(status: int, body: Json)

  class Api {
    const puppies: Table<Puppy>
    const parents: Table<Parent>

    ghost predicate Valid()
      reads this, puppies, parents
    {
      puppies.Valid() && parents.Valid()
    }

    /** A service over two empty tables. */
    constructor ()
      ensures Valid() && fresh(puppies) && fresh(parents)
      ensures puppies.rows == map[] && puppies.issued == {} && puppies.nextId == 1
      ensures parents.rows == map[] && parents.issued == {} && parents.nextId == 1
    {
      puppies := new Table<Puppy>();
      parents := new Table<Parent>();
    }

    // --- Puppies ---

    /** GET /api/puppies: every live puppy. */
    method ListPuppies(fault: bool) returns (res: Response)
      requires Valid()
      ensures fault ==> res == Response(500, ErrorObject("Internal Server Error"))
      ensures !fault ==> res.status == 200 && res.body.PuppyArray?
      ensures !fault ==> res.body.puppies == puppies.All()
    {
      if fault {
        res := Response(500, ErrorObject("Internal Server Error"));
      } else {
        res := Response(200, PuppyArray(puppies.All()));
      }
    }

    /** POST /api/puppies: a valid body is stored under a fresh id and the
        stored record is returned with 201; anything else is a 500. */
    method CreatePuppy(body: PuppyModel.PuppyBody, fault: bool) returns (res: Response)
      requires Valid()
      modifies puppies
      ensures Valid() && unchanged(parents)
      ensures res.status == 201 <==> PuppyModel.Accepts(body) && !fault
      ensures res.status == 201 ==>
        && res.body.PuppyObject?
        && res.body.puppy.id !in old(puppies.issued)
        && (forall k :: k in old(puppies.issued) ==> k < res.body.puppy.id)
        && puppies.nextId == old(puppies.nextId) + 1
        && PuppyModel.Build(body) == Ok(res.body.puppy.fields)
        && puppies.rows == old(puppies.rows)[res.body.puppy.id := res.body.puppy.fields]
        && puppies.issued == old(puppies.issued) + {res.body.puppy.id}
      ensures res.status != 201 ==>
        && res == Response(500, ErrorObject("Failed to create puppy"))
        && puppies.rows == old(puppies.rows)
        && puppies.issued == old(puppies.issued)
        && puppies.nextId == old(puppies.nextId)
    {
      var built := PuppyModel.Build(body);
      if fault || built.NotNull? {
        res := Response(500, ErrorObject("Failed to create puppy"));
      } else {
        var id := puppies.Insert(built.value);
        res := Response(201, PuppyObject(Row(id, built.value)));
      }
    }

    /** PUT /api/puppies/:id: merge the body into the record with that id
        and return the re-read record; 404 when no record has the id. */
    method UpdatePuppy(id: int, body: PuppyModel.PuppyBody, fault: bool) returns (res: Response)
      requires Valid()
      modifies puppies
      ensures Valid() && unchanged(parents)
      ensures puppies.issued == old(puppies.issued) && puppies.nextId == old(puppies.nextId)
      ensures fault || !PuppyModel.PatchAccepts(body) ==>
        res == Response(500, ErrorObject("Failed to update puppy")) && puppies.rows == old(puppies.rows)
      ensures !fault && PuppyModel.PatchAccepts(body) && id !in old(puppies.rows) ==>
        res == Response(404, ErrorObject("Puppy not found")) && puppies.rows == old(puppies.rows)
      ensures !fault && PuppyModel.PatchAccepts(body) && id in old(puppies.rows) ==>
        var merged := PuppyModel.Apply(old(puppies.rows)[id], body);
        res == Response(200, PuppyObject(Row(id, merged))) && puppies.rows == old(puppies.rows)[id := merged]
    {
      if fault || !PuppyModel.PatchAccepts(body) {
        res := Response(500, ErrorObject("Failed to update puppy"));
        return;
      }
      var updated := puppies.Update(id, p => PuppyModel.Apply(p, body));
      if updated == 1 {
        var reread := puppies.Find(id).value;
        res := Response(200, PuppyObject(Row(id, reread)));
      } else {
        res := Response(404, ErrorObject("Puppy not found"));
      }
    }

    /** DELETE /api/puppies/:id: 204 and the record is gone, or 404. */
    method DeletePuppy(id: int, fault: bool) returns (res: Response)
      requires Valid()
      modifies puppies
      ensures Valid() && unchanged(parents)
      ensures puppies.issued == old(puppies.issued) && puppies.nextId == old(puppies.nextId)
      ensures fault ==>
        res == Response(500, ErrorObject("Failed to delete puppy")) && puppies.rows == old(puppies.rows)
      ensures !fault && id in old(puppies.rows) ==>
        res == Response(204, NoContent) && puppies.rows == old(puppies.rows) - {id}
      ensures !fault && id !in old(puppies.rows) ==>
        res == Response(404, ErrorObject("Puppy not found")) && puppies.rows == old(puppies.rows)
    {
      if fault {
        res := Response(500, ErrorObject("Failed to delete puppy"));
        return;
      }
      var deleted := puppies.Destroy(id);
      if deleted == 1 {
        res := Response(204, NoContent);
      } else {
        res := Response(404, ErrorObject("Puppy not found"));
      }
    }

    // --- Parents ---

    /** GET /api/parents: every live parent. */
    method ListParents(fault: bool) returns (res: Response)
      requires Valid()
      ensures fault ==> res == Response(500, ErrorObject("Internal Server Error"))
      ensures !fault ==> res.status == 200 && res.body.ParentArray?
      ensures !fault ==> res.body.parents == parents.All()
    {
      if fault {
        res := Response(500, ErrorObject("Internal Server Error"));
      } else {
        res := Response(200, ParentArray(parents.All()));
      }
    }

    /** POST /api/parents. */
    method CreateParent(body: ParentModel.ParentBody, fault: bool) returns (res: Response)
      requires Valid()
      modifies parents
      ensures Valid() && unchanged(puppies)
      ensures res.status == 201 <==> ParentModel.Accepts(body) && !fault
      ensures res.status == 201 ==>
        && res.body.ParentObject?
        && res.body.parent.id !in old(parents.issued)
        && (forall k :: k in old(parents.issued) ==> k < res.body.parent.id)
        && parents.nextId == old(parents.nextId) + 1
        && ParentModel.Build(body) == Ok(res.body.parent.fields)
        && parents.rows == old(parents.rows)[res.body.parent.id := res.body.parent.fields]
        && parents.issued == old(parents.issued) + {res.body.parent.id}
      ensures res.status != 201 ==>
        && res == Response(500, ErrorObject("Failed to create parent"))
        && parents.rows == old(parents.rows)
        && parents.issued == old(parents.issued)
        && parents.nextId == old(parents.nextId)
    {
      var built := ParentModel.Build(body);
      if fault || built.NotNull? {
        res := Response(500, ErrorObject("Failed to create parent"));
      } else {
        var id := parents.Insert(built.value);
        res := Response(201, ParentObject(Row(id, built.value)));
      }
    }

    /** PUT /api/parents/:id. */
    method UpdateParent(id: int, body: ParentModel.ParentBody, fault: bool) returns (res: Response)
      requires Valid()
      modifies parents
      ensures Valid() && unchanged(puppies)
      ensures parents.issued == old(parents.issued) && parents.nextId == old(parents.nextId)
      ensures fault || !ParentModel.PatchAccepts(body) ==>
        res == Response(500, ErrorObject("Failed to update parent")) && parents.rows == old(parents.rows)
      ensures !fault && ParentModel.PatchAccepts(body) && id !in old(parents.rows) ==>
        res == Response(404, ErrorObject("Parent not found")) && parents.rows == old(parents.rows)
      ensures !fault && ParentModel.PatchAccepts(body) && id in old(parents.rows) ==>
        var merged := ParentModel.Apply(old(parents.rows)[id], body);
        res == Response(200, ParentObject(Row(id, merged))) && parents.rows == old(parents.rows)[id := merged]
    {
      if fault || !ParentModel.PatchAccepts(body) {
        res := Response(500, ErrorObject("Failed to update parent"));
        return;
      }
      var updated := parents.Update(id, p => ParentModel.Apply(p, body));
      if updated == 1 {
        var reread := parents.Find(id).value;
        res := Response(200, ParentObject(Row(id, reread)));
      } else {
        res := Response(404, ErrorObject("Parent not found"));
      }
    }

    /** DELETE /api/parents/:id. */
    method DeleteParent(id: int, fault: bool) returns (res: Response)
      requires Valid()
      modifies parents
      ensures Valid() && unchanged(puppies)
      ensures parents.issued == old(parents.issued) && parents.nextId == old(parents.nextId)
      ensures fault ==>
        res == Response(500, ErrorObject("Failed to delete parent")) && parents.rows == old(parents.rows)
      ensures !fault && id in old(parents.rows) ==>
        res == Response(204, NoContent) && parents.rows == old(parents.rows) - {id}
      ensures !fault && id !in old(parents.rows) ==>
        res == Response(404, ErrorObject("Parent not found")) && parents.rows == old(parents.rows)
    {
      if fault {
        res := Response(500, ErrorObject("Failed to delete parent"));
        return;
      }
      var deleted := parents.Destroy(id);
      if deleted == 1 {
        res := Response(204, NoContent);
      } else {
        res := Response(404, ErrorObject("Parent not found"));
      }
    }
  }

  // --- Upload ---

  /** The part of a multipart upload the file name is built from. */
  datatype UploadedFile = UploadedFile(fieldname: string, originalname: string)

  /** The timestamp and the random number, joined by '-': digits and one
      '-', from which both numbers read back. */
  function UniqueSuffix(now: nat, random: nat): (u: string)
    ensures forall i :: 0 <= i < |u| ==> IsDigit(u[i]) || u[i] == '-'
    ensures ParseSuffix(u) == Some((now, random, ""))
  {
    var d1, d2 := DecimalString(now), DecimalString(random);
    ParseSuffixShape(d1, d2);
    ParseTailShape(d2, "");
    assert d2 + "" == d2;
    DecimalRoundTrip(now);
    DecimalRoundTrip(random);
    d1 + "-" + d2
  }

  /** The disk-storage file name: it starts with the field name and '-',
      ends with the original name's extension, and between them holds the
      unique suffix. */
  function StoredFilename(file: UploadedFile, now: nat, random: nat): (s: string)
    ensures |s| == |file.fieldname| + 1 + |UniqueSuffix(now, random)| + |ExtName(file.originalname)|
    ensures s[..|file.fieldname| + 1] == file.fieldname + "-"
    ensures var e := ExtName(file.originalname); s[|s| - |e|..] == e
    ensures var e := ExtName(file.originalname);
      s[|file.fieldname| + 1..|s| - |e|] == UniqueSuffix(now, random)
  {
    file.fieldname + "-" + UniqueSuffix(now, random) + ExtName(file.originalname)
  }

  /** Reads a stored file name back into timestamp, random number and
      extension, given the field name it was built with. */
  function ParseStoredFilename(fieldname: string, s: string): Option<(nat, nat, string)> {
    var prefix := fieldname + "-";
    if |s| < |prefix| || s[..|prefix|] != prefix then None else ParseSuffix(s[|prefix|..])
  }

  /** Timestamp digits, '-', then what `ParseTail` accepts. */
  function ParseSuffix(rest: string): Option<(nat, nat, string)> {
    var k := LeadingDigits(rest);
    if k == 0 || k == |rest| || rest[k] != '-' then None
    else
      match ParseTail(rest[k + 1..])
      case None => None
      case Some(tail) => Some((DecimalValue(rest[..k]), tail.0, tail.1))
  }

  /** Random-number digits, then the extension. */
  function ParseTail(tail: string): Option<(nat, string)> {
    var j := LeadingDigits(tail);
    if j == 0 then None else Some((DecimalValue(tail[..j]), tail[j..]))
  }

  lemma ParseTailShape(d: string, ext: string)
    requires |d| >= 1 && AllDigits(d) && (ext == [] || ext[0] == '.')
    ensures ParseTail(d + ext) == Some((DecimalValue(d), ext))
  {
    LeadingDigitsOf(d, ext);
    assert (d + ext)[..|d|] == d && (d + ext)[|d|..] == ext;
  }

  lemma ParseSuffixShape(d: string, tail: string)
    requires |d| >= 1 && AllDigits(d)
    ensures ParseSuffix(d + "-" + tail) ==
      match ParseTail(tail)
      case None => None
      case Some(t) => Some((DecimalValue(d), t.0, t.1))
  {
    var rest := d + "-" + tail;
    assert rest == d + ("-" + tail);
    LeadingDigitsOf(d, "-" + tail);
    assert rest[..|d|] == d && rest[|d|] == '-' && rest[|d| + 1..] == tail;
  }

  lemma ParsePrefixShape(fieldname: string, rest: string)
    ensures ParseStoredFilename(fieldname, fieldname + "-" + rest) == ParseSuffix(rest)
  {
    var prefix := fieldname + "-";
    assert (prefix + rest)[..|prefix|] == prefix && (prefix + rest)[|prefix|..] == rest;
  }

  /** The stored name determines the timestamp, the random number and the
      extension it was built from. */
  lemma StoredFilenameRoundTrip(file: UploadedFile, now: nat, random: nat)
    ensures ParseStoredFilename(file.fieldname, StoredFilename(file, now, random))
         == Some((now, random, ExtName(file.originalname)))
  {
    var d1, d2, ext := DecimalString(now), DecimalString(random), ExtName(file.originalname);
    assert StoredFilename(file, now, random) == file.fieldname + "-" + (d1 + "-" + (d2 + ext));
    ParsePrefixShape(file.fieldname, d1 + "-" + (d2 + ext));
    ParseSuffixShape(d1, d2 + ext);
    ParseTailShape(d2, ext);
    DecimalRoundTrip(now);
    DecimalRoundTrip(random);
  }

  /** Two uploads of the same file at different (timestamp, random) pairs
      never share a stored name. */
  lemma StoredFilenameInjective(file: UploadedFile, now1: nat, random1: nat, now2: nat, random2: nat)
    requires StoredFilename(file, now1, random1) == StoredFilename(file, now2, random2)
    ensures now1 == now2 && random1 == random2
  {
    StoredFilenameRoundTrip(file, now1, random1);
    StoredFilenameRoundTrip(file, now2, random2);
  }

  /** POST /api/upload: 400 without a file, otherwise the stored file's
      web path (the public root followed by the stored name). */
  function Upload(file: Option<UploadedFile>, now: nat, random: nat): (r: Response)
    ensures file.None? <==> r.status == 400
    ensures file.None? ==> r.body == ErrorObject("No file uploaded")
    ensures file.Some? ==> r == Response(200, UrlObject("/" + StoredFilename(file.value, now, random)))
    ensures file.Some? ==>
      && |r.body.url| >= 1 && r.body.url[0] == '/'
      && ParseStoredFilename(file.value.fieldname, r.body.url[1..])
           == Some((now, random, ExtName(file.value.originalname)))
  {
    match file
    case None => Response(400, ErrorObject("No file uploaded"))
    case Some(f) =>
      var url := "/" + StoredFilename(f, now, random);
      assert url[1..] == StoredFilename(f, now, random);
      StoredFilenameRoundTrip(f, now, random);
      Response(200, UrlObject(url))
  }

  // --- Messages ---

  /** POST /api/messages: the same acknowledgment whatever the body says. */
  function AcknowledgeMessage<B>(body: B): (r: Response)
    ensures r.status == 200 && r.body.AckObject? && r.body.success
    ensures r.body.message == "Message received"
  {
    Response(200, AckObject(true, "Message received"))
  }

  /** A session of requests: create, update, list, delete, delete again. */
  method Session(api: Api)
    requires api.Valid() && api.puppies.rows == map[] && api.puppies.nextId == 1
    modifies api.puppies
  {
    var rex := PuppyModel.EmptyBody.(name := Given("Rex"), breed := Given("Bordoodle"));
    var created := api.CreatePuppy(rex, false);
    assert PuppyModel.Accepts(rex);
    assert created.status == 201;
    var id := created.body.puppy.id;
    assert id == 1 by {
      assert forall k :: k in api.puppies.issued <==> k == id;
    }
    assert created.body.puppy.fields.status == Some("Available");
    assert created.body.puppy.fields.images == Some([]);

    var priced := PuppyModel.EmptyBody.(price := Given(1200));
    var updated := api.UpdatePuppy(id, priced, false);
    assert updated.status == 200;
    assert updated.body.puppy.fields.price == Some(1200);
    assert updated.body.puppy.fields.name == "Rex";

    var missing := api.UpdatePuppy(999, priced, false);
    assert missing == Response(404, ErrorObject("Puppy not found"));

    var gone := api.DeletePuppy(id, false);
    assert gone.status == 204;
    var again := api.DeletePuppy(id, false);
    assert again == Response(404, ErrorObject("Puppy not found"));

    var listed := api.ListPuppies(false);
    ListEmpty(api.puppies);
    assert listed.body.puppies == [];

    var nameless := PuppyModel.EmptyBody.(breed := Given("Bordoodle"));
    var rejected := api.CreatePuppy(nameless, false);
    assert rejected == Response(500, ErrorObject("Failed to create puppy"));
  }
}
