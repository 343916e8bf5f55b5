# bordoodles-api: the catalogue service, modelled in Dafny

The service keeps two catalogues, breeding adults (Parent) and puppies for
sale (Puppy). Each has a list, create, update and delete endpoint. There is
also an image-upload endpoint that answers with the stored file's web path,
and a contact endpoint that acknowledges every message.

The model has six modules:

- `Wrappers` (`wrappers.dfy`): `Option`; `Field`, which is one key of a JSON body (missing, `null`, or a value), with the shared column rules (default, overwrite, serialise); and `Checked`, the ORM's validation outcome. `Checked` names one violated attribute; the ORM reports all of them and the handlers show none, so keeping one is a simplification.
- `Store` (`store.dfy`): the database table behind an ORM model, as a class `Table<R>`.
  - It holds a `rows` map from id to record and a `nextId` counter, plus the ghost set `issued` of every id ever handed out.
  - `Insert`, `Update`, `Destroy` and `All` state the table contract the handlers rely on: ids are auto-assigned, increasing and never reused; update and destroy affect 0 or 1 rows and say which.
- `PuppyModel` (`puppy.dfy`) and `ParentModel` (`parent.dfy`): the two schemas.
  - Each has a body datatype (what a client sends) and a record datatype (what is stored).
  - `Build` is `create`'s validation plus defaults, and `Apply` is `update`'s merge.
  - `Serialize` writes a stored record back as a body, with every column present and null where the column is null. It appears only in the round-trip lemmas; responses carry the record itself.
- `Runtime` (`runtime.dfy`): the two JavaScript runtime services the upload name needs: an integer's decimal text, and Node's `path.extname`.
- `Server` (`server.dfy`): the handlers.
  - The class `Api` holds the two tables and has one method per CRUD handler.
  - `Upload` and `AcknowledgeMessage` are pure functions.
  - `Session` is a client that runs the create / update / delete / list sequence and asserts each response.

Each handler takes `fault: bool`, which stands for the database failing. The `try/catch` then answers 500 and the model leaves the table unchanged. The upload timestamp and random number are parameters.

Behaviours of the code that are easy to misread:

- **Empty strings are accepted.** `name`, `breed` and `role` are checked only with `allowNull: false` (models/Puppy.js:5-12, models/Parent.js:5-12), which rejects a missing key or null and nothing else (`PuppyModel.BuildAcceptsEmptyStrings`).
- **A body without a required field gets 500, not 400.** The `catch` of each create handler (server.js:82-85, 138-141) maps every error, validation included, to 500 `Failed to create puppy` / `Failed to create parent`.
- **Defaults apply only to missing keys.** The ORM applies a default only when the key is missing. An explicit `null` for `status` or `images` is stored as null.
- **Update validates only supplied keys.** Update checks only the keys it is given. An update that sets `name`, `breed` or `role` to `null` fails validation: 500 `Failed to update ...`. Validation runs before the row is looked up, so this happens even for an id with no record.

## Model

| member | source | states |
|---|---|---|
| `Server.Api.ListPuppies` | server.js:66-74 | 200 with exactly `puppies.All()`, every live record once; 500 `Internal Server Error` on a database fault |
| `Server.Api.CreatePuppy` | server.js:77-86 | 201 iff the body has non-null `name` and `breed` and the database is up. The stored record is `Build(body)`, under an id never issued before and larger than every earlier one; the table gains exactly that row. Otherwise 500 `Failed to create puppy` and the table is unchanged. The Parent table is unchanged |
| `Server.Api.UpdatePuppy` | server.js:89-103 | A null `name`/`breed` or a fault gives 500 `Failed to update puppy` and no change. An unknown id gives 404 `Puppy not found` and no change. Otherwise 200 with the re-read record `Apply(old, body)`, which is stored; ids are unchanged and the Parent table is untouched |
| `Server.Api.DeletePuppy` | server.js:106-119 | A live id gives 204 with no body, and exactly that row is removed; any other id gives 404 `Puppy not found` and no change; ids stay issued, so a second delete is a 404 |
| `Server.Api.ListParents` | server.js:123-131 | 200 with exactly `parents.All()`; 500 on a fault |
| `Server.Api.CreateParent` | server.js:134-142 | Same as CreatePuppy over the Parent table, with 500 `Failed to create parent`; the Puppy table is unchanged |
| `Server.Api.UpdateParent` | server.js:145-159 | Same as UpdatePuppy over the Parent table, with 404 `Parent not found` and 500 `Failed to update parent` |
| `Server.Api.DeleteParent` | server.js:162-175 | Same as DeletePuppy over the Parent table, with 404 `Parent not found` |
| `Store.Table.Insert` | server.js:80 | Auto-increment: the new id is outside every id issued before (live or deleted) and above all of them; `rows` gains exactly that entry |
| `Store.Table.Update` | server.js:92 | Affects 1 row iff the id is live, else 0; the row becomes `patch(old row)` and nothing else changes |
| `Store.Table.Destroy` | server.js:109 | Affects 1 row iff the id is live, else 0; exactly that id leaves `rows` and stays issued |
| `Store.Table.All` | server.js:68 | Every listed row is a live record under its id, every live record is listed, and no id appears twice |
| `Store.RowsBelow` | server.js:68 | Rows of ids in [1, n) in ascending id order, each with its stored record, none missing |
| `Store.ListEmpty` | server.js:66-70 | With no records the listing is the empty sequence |
| `Store.ListAfterCreatesOnly` | server.js:66-70 | After N creates and no deletes the listing has N records (distinct ids by `All`) |
| `PuppyModel.Build` | models/Puppy.js:4-36 | Accepted iff `name` and `breed` are both present and not null; a missing or null `name` is reported as `name`, then `breed` |
| `PuppyModel.BuildDefaults` | models/Puppy.js:22-35 | A missing `status` is stored as "Available" and a missing `images` as `[]`; a supplied value, null included, is stored as given |
| `PuppyModel.BuildKeepsSupplied` | models/Puppy.js:5-35 | `name`/`breed` hold what was sent. `price` holds the supplied integer, or null. `color`, `gender`, `dob` and `description` hold exactly the supplied value, and are null when missing or null. Supplied `images` are stored unchanged, in order |
| `PuppyModel.BuildAcceptsEmptyStrings` | models/Puppy.js:5-12 | An empty `name` and `breed` are accepted and stored |
| `PuppyModel.BuildSerialize` | models/Puppy.js:4-36 | Creating from a served record stores that same record |
| `PuppyModel.Apply` | server.js:92 | After the merge the record holds every supplied key (a value, or null for a nullable column); a body the record already agrees with changes nothing |
| `PuppyModel.Serialize` | models/Puppy.js:4-36 | A record written back as a body supplies every column, passes both create and update validation, and agrees with the record |
| `PuppyModel.ApplyOverwritesSupplied` | server.js:92 | For each of the nine columns: a missing key keeps the stored value; a supplied value or null replaces it |
| `PuppyModel.ApplyIdempotent` | server.js:92-95 | Applying an update body twice gives the same record as applying it once |
| `PuppyModel.ApplyEmpty` | server.js:92 | An update with no keys leaves the record unchanged |
| `PuppyModel.ApplySerialize` | server.js:92 | An update carrying a whole served record replaces every column with it |
| `PuppyModel.ApplyCreateBody` | server.js:80-92 | An accepted create body is an accepted update body and re-applying it changes nothing |
| `ParentModel.Build` | models/Parent.js:4-28 | Accepted iff `name` and `role` are both present and not null; the failing field is named |
| `ParentModel.BuildAcceptsAnyRole` | models/Parent.js:9-12 | Any string, not only "Sire" or "Dam", is a valid `role`; the other columns stay null |
| `ParentModel.BuildKeepsSupplied` | models/Parent.js:5-27 | `name`/`role` hold what was sent; `breed`, `color`, `weight`, `description`, `image` hold a supplied value and are null otherwise, with no defaults |
| `ParentModel.BuildSerialize` | models/Parent.js:4-28 | Creating from a served record stores that same record |
| `ParentModel.Apply` | server.js:148 | After the merge the record holds every supplied key; a body the record already agrees with changes nothing |
| `ParentModel.Serialize` | models/Parent.js:4-28 | A record written back as a body supplies every column, passes both validations, and agrees with the record |
| `ParentModel.ApplyOverwritesSupplied` | server.js:148 | For each of the seven columns: a missing key keeps the stored value; a supplied value or null replaces it |
| `ParentModel.ApplyIdempotent` | server.js:148-151 | Applying an update body twice equals applying it once |
| `ParentModel.ApplyEmpty` | server.js:148 | An update with no keys leaves the record unchanged |
| `ParentModel.ApplySerialize` | server.js:148 | An update carrying a whole served record replaces every column |
| `Runtime.DecimalString` | server.js:40 | The text of an integer is a non-empty run of digits without a leading zero |
| `Runtime.DecimalRoundTrip` | server.js:40 | Reading the decimal text back gives the number |
| `Runtime.DecimalInjective` | server.js:40 | Different numbers have different decimal texts |
| `Runtime.ExtName` | server.js:41 | `path.extname` of a bare name. It is empty exactly when the name has no '.', or its only '.' is the first character, or the name is "..". Otherwise it is the suffix from the last '.', with no other '.' |
| `Runtime.ExtNameExamples` | server.js:41 | ".png", ".gz", ".", "" and "" for a plain, a double, a trailing-dot, a dot-file and a dotless name |
| `Server.UniqueSuffix` | server.js:40 | The suffix is digits and '-' only, and reads back to exactly the timestamp and the random number |
| `Server.StoredFilename` | server.js:38-42 | The name is the field name, '-', the unique suffix, then the original name's extension, and its length is the sum of those parts |
| `Server.StoredFilenameRoundTrip` | server.js:38-42 | A stored name `field-timestamp-random.ext` parses back to exactly its timestamp, random number and extension |
| `Server.StoredFilenameInjective` | server.js:40-41 | Different (timestamp, random) pairs give different stored names for the same file |
| `Server.Upload` | server.js:50-57 | Without a file: 400 `No file uploaded`. With one: 200 and a `url` equal to '/' followed by `StoredFilename`, which parses back to the given timestamp, random number and extension |
| `Server.AcknowledgeMessage` | server.js:178-181 | Every message body gets 200 `{ success: true, message: "Message received" }` |

## Left out

- Routing, CORS, JSON body parsing, static serving, the health-check route, schema sync and `listen`: these are transport and start-up plumbing.
- Console logging: it is output only.
- The disk-storage destination and directory creation (server.js:28-37): filesystem side effects.
- `Date.now()` and `Math.round(Math.random() * 1E9)` are parameters of `Upload`. The model accepts any natural number for them; in the service the random number lies in [0, 10^9].
- Runtime.ExtName: treats the original name as a bare file name; path separators inside it and Windows path rules are not modelled.
- Runtime.DecimalString: covers the integer range these values live in; JavaScript's exponent notation for numbers of 10^21 and more is not modelled.
- The upload's `catch` branch (500 `Upload failed`) is not modelled: nothing in the handler's body raises.
- Concurrency: each handler is one atomic step, so two requests on the same id cannot race. Because of this, the case where the row vanishes between `update` and `findByPk` cannot happen here.
- `fault` is one flag per request. A database that fails halfway through a handler's two calls (after `update`, before `findByPk`) is not modelled.
- ORM internals are left out: `createdAt`/`updatedAt`, filtering of unknown keys, JSON-column serialisation, date parsing and SQL dialects.
- Column widths are not modelled. `price` is an unbounded integer and every STRING/TEXT column an unbounded string. On MySQL, `INTEGER` is 32-bit and `STRING` is VARCHAR(255). An out-of-range value (a `price` of 3000000000, a 300-character `name`) would be rejected there, and the create or update handler would answer 500; the model accepts it (201 or 200).
- Body fields are typed in the model. A value of the wrong JSON type (a string `price`, say) is not modelled.
- An update whose body has no known keys is modelled as a successful no-op (200 with the unchanged record). Whether the ORM instead reports zero affected rows in that case (which the handler would answer with 404) is ORM behaviour that is not part of this model.
- The path id is an integer. A non-numeric path id is not modelled.
- Store.Table.All: lists rows in ascending id order. The source leaves the order to the database.
- The database configuration (`config/database.js`) is not part of this model.
- The seed script (`seed.js`) is not part of this model; it is one-off file I/O.
