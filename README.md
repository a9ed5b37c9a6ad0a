# kyatatsu: schema-driven document shaping, modelled in Dafny

kyatatsu's `ClayShaper` is a small object-document mapper over a Couchbase
bucket. A caller registers a named schema (field name to a descriptor with
`required`, `default` and `type` properties, `type: 'ref'` marking a link to
another document). `model(name)` then hands out a generated constructor.
That constructor shapes instances from an option bag. Its `save()` and
`create()` shape a document, upsert it under the composite key `type:id`,
and read it back.

This project models that shaping, as the code in `index.js` does it:

- `Values`: JavaScript values (`Value`, with `Nullish` for `== null` and
  `Truthy` for `if`), plain objects as `Doc = map<string, Value>`, and
  `String(v)` as a template literal applies it.
- `Errors`: the three `_...Error` builders and two engine TypeErrors of the
  shaping code (a non-callable default, a ref field without value), with a `Result` type for throws and rejections.
- `Schemas`: descriptors, schemas (fields in `for...in` order, keys
  distinct), the pointer record `{ $ref, type }`, and `Assemble`. `Assemble`
  is the meaning of a shaping loop: per field, store a value, skip it, or
  throw, and the first throw ends the loop. Its lemmas prove which keys a
  finished loop leaves, with which values, and which error a failed one
  gives.
- `Construction`, `Saving`, `Creation`: the three shaping loops. Each is a
  `method` with a `while` loop, proved equal to a specification function
  (`Construct`, `SaveBody`, `CreateBody`). Lemmas state in descriptor terms
  when each succeeds, which error it raises, and the keys and values of the
  result.
- `Keys`: the composite key and when it identifies its (type, id) pair.
- `Kyatatsu`: the stateful part. Class `ClayShaper` holds the `models`
  registry and the bucket contents as a `map<string, Doc>`. Class `Instance`
  holds an instance's properties; its `Save` stamps `_id`/`_type` in place.
- `Scenarios`: the `Person` and `History` schemas of the test scripts,
  applied to the operations; lemmas state their outcomes.

Inputs the code draws from outside are parameters:
- `freshId` is the string `uuid()` returns on that call.
- `supply(key)` is what the field's default provider returns on that call,
  for example `new Date()`.

Behaviour of `index.js` worth knowing:
- A truthy `default` wins over an explicit option, in the constructor
  (index.js:52-53) and in `create` (index.js:111-112). It is called even
  when `opts` holds a value.
- `save` never applies defaults. It copies non-null optional values only.
- The pointer record's key is `$ref`, not `ref`.
- The constructor and `create` test `required` for truthiness. `save` tests
  `required === true`.
- In `create`, a required ref field is never checked for MissingProperty. A
  null or undefined option makes reading its `_id` a TypeError.
- `save` does not accept null for a required field. It throws
  MissingProperty, as the other two operations do.

## Model

| member | source | states |
|---|---|---|
| `Values.ColonSplit` | index.js:71 | `a:b` determines `a` and `b` when the left parts hold no colon |
| `Errors.MessageIdentifiesError` | index.js:171-184 | two messages built by `Message`, the three `_...Error` texts, are equal exactly when the errors are: same kind and same query, name, or model and key (model names without colon); the kinds differ already in the first or fourth character (`MessageHead`) |
| `Schemas.AssembleExtend` | index.js:51-61 | one more pass of a shaping loop applies that field's step to the result so far |
| `Schemas.AssembleNext` | index.js:51-61 | a pass after passes that did not throw stores, skips or throws on the result so far |
| `Schemas.AssembleStops` | index.js:58 | once a pass throws, the loop's outcome is that error; later fields play no part |
| `Schemas.AssembleSucceeds` | index.js:51-61 | a shaping loop completes exactly when no pass throws |
| `Schemas.AssembleFirstThrow` | index.js:51-61 | a shaping loop fails with the error of the first pass that throws |
| `Schemas.AssembleKeys` | index.js:78-91 | a completed loop's keys are the starting keys plus the keys it stored under, and no others |
| `Schemas.AssemblePut` | index.js:110-125 | a value a pass stores is the one the loop leaves under that key |
| `Schemas.AssembleUntouched` | index.js:73-91 | a key no pass stores under keeps its starting value, or stays absent |
| `Keys.CompositeKeyInjective` | index.js:71 | `CompositeKey`, the `${type}:${id}` text built with `ToStr` (the template literal's string conversion, numbers as decimal digits via `NatToDecimal`), is equal for two pairs exactly when the texts of types and ids are, for types without a colon |
| `Keys.CompositeKeyCollision` | index.js:131 | with a colon in a model name, two different (type, id) pairs share one key |
| `Construction.ResolveConstruct` | index.js:46-64 | the constructor's loop, then the copy of `_id`/`_type`, yields exactly `Construct`: the instance's properties or the first error |
| `Construction.ConstructSucceeds` | index.js:51-61 | construction succeeds exactly when every truthy default is a function and every required field without default has a non-null option |
| `Construction.ConstructFailsAt` | index.js:54-59 | construction throws for the first rejected field: MissingProperty(model, key), or a TypeError when its default is not callable |
| `Construction.ConstructField` | index.js:51-61 | a truthy default's value wins whatever `opts` holds; a required field without default gets its non-null option verbatim; an optional field without default is never set |
| `Construction.ConstructKeys` | index.js:51-64 | the instance's keys are exactly the fields with a truthy default or `required`, plus `_id`/`_type` only when `opts` holds truthy values (never generated) |
| `Construction.ConstructReserved` | index.js:63-64 | truthy `opts._id`/`opts._type` are copied verbatim |
| `Saving.StampFillsReserved` | index.js:69-70 | after `Stamp`, a null `_id` is the fresh id and a null `_type` the model name; present ones and all other properties are kept |
| `Saving.StampIdempotent` | index.js:69-70 | a second save stamps nothing, so it reuses the first `_id` |
| `Saving.ResolveSaveBody` | index.js:73-91 | the loop filling `update` yields exactly `SaveBody`: the document or the first error |
| `Saving.SaveSucceeds` | index.js:78-91 | `save` shapes a document exactly when every ref field has a value and every non-ref field with `required === true` a non-null one |
| `Saving.SaveFailsAt` | index.js:78-91 | `save` rejects for the first rejected field: a TypeError for a ref field, MissingProperty(model, key) otherwise |
| `Saving.SaveField` | index.js:78-91 | a ref field is stored as `{ $ref: v._id, type: v._type }` (ref test first), a required field verbatim, an optional one exactly when non-null |
| `Saving.SaveKeys` | index.js:73-91 | the document's keys are `_id`, `_type`, the ref fields, the `required === true` fields and the non-null optional fields; no others |
| `Saving.SaveReserved` | index.js:73-76 | unless the schema declares them, the document carries the instance's own `_id` and `_type` |
| `Saving.ConstructedInstanceSaves` | index.js:46-91 | a constructed instance saves when its defaults give non-null values and each ref field has a default or is required |
| `Creation.ResolveCreateLoop` | index.js:108-125 | the loop filling `newModel` yields exactly the assembly of `create`'s per-field steps: the fields' values or the first error |
| `Creation.ResolveCreateBody` | index.js:108-129 | the loop, then the stamping of `_id` and `_type`, yields exactly `CreateBody` |
| `Creation.CreateSucceeds` | index.js:110-125 | `create` succeeds on exactly the option bags the constructor accepts |
| `Creation.CreateFailsAt` | index.js:110-125 | `create` rejects for the first rejected field: TypeError for a non-callable default or a null required ref, MissingProperty(model, key) otherwise |
| `Creation.CreateField` | index.js:110-125 | a truthy default wins; a required ref option becomes `{ $ref: o._id, type: o._type }`; a required non-ref option is copied; an optional field without default, ref or not, is left out |
| `Creation.CreateKeys` | index.js:108-129 | the document's keys are the fields with a truthy default or `required`, plus `_id` and `_type`; no others |
| `Creation.CreateReserved` | index.js:127-131 | `_id` is the fresh id and `_type` the model name whatever `opts` says, and they rebuild the key `name:id` |
| `Creation.CreateAgreesWithConstruct` | index.js:106-125 | without required ref fields lacking a default, `create` stores what the constructor sets, key for key, apart from `_id`/`_type` |
| `Kyatatsu.RegisterThenLookup` | index.js:36-43 | after registering a name, `LookupModel` (what `model(name)` returns) gives that schema; other names are unaffected |
| `Kyatatsu.LookupFails` | index.js:40-43 | `LookupModel` fails exactly for unregistered names, with message `No model registered with name: <name>` |
| `Kyatatsu.ClayShaper.constructor` | index.js:9-29 | a new shaper has no models registered |
| `Kyatatsu.ClayShaper.RegisterModel` | index.js:36-38 | the registry maps `name` to the new schema, overwriting any earlier one, and is otherwise unchanged |
| `Kyatatsu.ClayShaper.Model` | index.js:40-43 | the model type keeps the registered schema, or the ModelNotRegistered error for an unregistered name |
| `Kyatatsu.ClayShaper.New` | index.js:46-64 | `new Model(opts)` gives a fresh instance holding `Construct`'s properties, or throws `Construct`'s error |
| `Kyatatsu.ClayShaper.Upsert` | index.js:95 | an upsert creates or replaces exactly one bucket entry |
| `Kyatatsu.ClayShaper.Create` | index.js:106-141 | on failure the bucket is unchanged; on success only `name:freshId` changes and the result is what a get returns for it |
| `Kyatatsu.Instance.constructor` | index.js:46-49 | an instance is bound to its shaper and model and holds the given properties |
| `Kyatatsu.Instance.Save` | index.js:66-103 | `_id`/`_type` are stamped even if shaping then rejects; on failure the bucket is unchanged; on success only `_type:_id` changes, to the document a get then returns |
| `Scenarios.CreatePersonFromName` | test/person.js:3-14 | `Person.create({name})` stores the name, a generated `dob`, no `sex`, the fresh `_id` and `_type: "Person"` |
| `Scenarios.CreateHistoryOfPerson` | test/history.js:3-14 | `History.create({subject: person, update})` stores the pointer record of the person, not the person |
| `Scenarios.ConstructPersonWithoutName` | index.js:54-59 | `new Person({})` throws MissingProperty for model `Person` and key `name` |
| `Scenarios.ReconstructStoredPerson` | test/test.js:13 | rebuilding an instance from a stored person keeps `name`, `_id`, `_type`, takes a fresh `dob` and drops `sex` |
| `Scenarios.SaveRebuiltPerson` | test/test.js:13-16 | saving it after setting `sex` keeps its `_id` and writes name, dob and sex |

## Left out

- `query` (index.js:147-168): a passthrough to the driver's N1QL query. Only its message builder is modelled (`Errors.Message`).
- The Couchbase connection and configuration (index.js:13-14, 31-34). This is driver I/O.
- Promise and callback plumbing (index.js:95-101, 133-140), including the fall-through after `reject`. An upsert followed by a get is one map update followed by a lookup.
- Driver errors from upsert or get: the model's bucket never fails.
- JSON serialisation by the database. The model stores a document as it is, so `undefined` values and Dates are not normalised.
- `uuid()` and the default providers: their results are inputs (`freshId`, `supply`).
- `console.log` diagnostics (index.js:68, 93).
- Floating-point numbers, NaN, arrays, Dates and symbols as values. `Num` holds an integer.
- Inherited properties: `for...in` also enumerating inherited keys, `this.models[name]` finding `Object.prototype` members, and `opts[key]` (index.js:55-56, 119-120) and `this[key]` (index.js:82-89) reading inherited members. A required field named `constructor` or `toString` thus passes the constructor with an empty option bag, and `save` would copy such an inherited function into the document; the model's `Lookup` sees own properties only.
- A null or undefined field descriptor: reading `schema[key].default` (index.js:52, 111) or `schema[key].type` (index.js:80) then throws a TypeError. A `Descriptor` is never nullish.
- A default provider that throws (index.js:53, 112): its error would propagate. `supply` is total.
- Values.ToStr: does not model JavaScript number formatting. Numbers above 2^53 are inexact in JavaScript, and the template literal at index.js:71 prints a magnitude of 1e21 or more in exponent form (`1e+21`); `ToStr` prints every digit of the unbounded `Num`.
- Registering a null or undefined schema, which makes `model(name)` throw ModelNotRegistered.
- The `save` method that each instance carries as a property. The model keeps it outside `props`, so a schema field named `save` is not shadowed by it.
- `Model.create` called without an option bag; a missing constructor option bag (`opts || {}`) is the empty map.
- The instance object existing before the constructor's loop throws. The model shapes the properties first and allocates the instance only on success; the half-built object is unreachable in the source too.
- Test helpers `Person.createNew` and `Person.prototype.update` (test/person.js:19-61), and `connect()` (test/test.js:5), which `index.js` does not define.
