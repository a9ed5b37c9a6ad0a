/** The Person and History models of the repository's test scripts,
    applied to the shaping operations. */
module Scenarios {
  import opened Values
  import opened Errors
  import opened Schemas
  import opened Construction
  import opened Saving
  import opened Creation

  const DateNow := Fn("() => new Date()")

  /** `{ name: { required: true }, dob: { required: false, default: ... }, sex: { required: false } }` */
  const PersonSchema: Schema := [
    Field("name", Descriptor(Bool(true), Undefined, Undefined)),
    Field("dob", Descriptor(Bool(false), DateNow, Undefined)),
    Field("sex", Descriptor(Bool(false), Undefined, Undefined))
  ]
  const Person := ModelType("Person", PersonSchema)

  /** `{ subject: { required: true, type: 'ref' }, date: { default: ... }, update: { required: true } }` */
  const HistorySchema: Schema := [
    Field("subject", Descriptor(Bool(true), Undefined, Str("ref"))),
    Field("date", Descriptor(Undefined, DateNow, Undefined)),
    Field("update", Descriptor(Bool(true), Undefined, Undefined))
  ]
  const History := ModelType("History", HistorySchema)

  /** The shaping loop over a three-field schema, pass by pass. */
  lemma AssembleOfThree(init: Doc, fields: seq<Field>, steps: seq<Step>)
    requires |fields| == 3 && |steps| == 3
    ensures Assemble(init, fields, steps) ==
              match Apply(init, fields[0].key, steps[0])
              case Err(e) => Err(e)
              case Ok(d0) =>
                match Apply(d0, fields[1].key, steps[1])
                case Err(e) => Err(e)
                case Ok(d1) => Apply(d1, fields[2].key, steps[2])
  {
    assert fields[..0] == [] && steps[..0] == [];
    AssembleExtend(init, fields, steps, 0);
    AssembleExtend(init, fields, steps, 1);
    AssembleExtend(init, fields, steps, 2);
    assert fields[..3] == fields && steps[..3] == steps;
  }

  /** `Person.create({ name: "Ada" })` stores the name, a generated `dob`, no
      `sex`, the fresh `_id` and `_type: "Person"`. */
  lemma CreatePersonFromName(supply: string -> Value, freshId: string)
    ensures CreateBody(Person, map["name" := Str("Ada")], supply, freshId) ==
              Ok(map["name" := Str("Ada"), "dob" := supply("dob"), "_id" := Str(freshId), "_type" := Str("Person")])
  {
    var opts := map["name" := Str("Ada")];
    var steps := CreateSteps(Person, opts, supply);
    assert steps == [Put(Str("Ada")), Put(supply("dob")), Skip];
    AssembleOfThree(map[], PersonSchema, steps);
  }

  /** `History.create({ subject: person, update: u })` stores the pointer
      record `{ $ref: person._id, type: person._type }`, not the person. */
  lemma CreateHistoryOfPerson(person: Doc, u: Value, supply: string -> Value, freshId: string)
    requires !Nullish(u)
    ensures CreateBody(History, map["subject" := Obj(person), "update" := u], supply, freshId) ==
              Ok(map["subject" := Obj(map["$ref" := Lookup(person, "_id"), "type" := Lookup(person, "_type")]),
                     "date" := supply("date"), "update" := u,
                     "_id" := Str(freshId), "_type" := Str("History")])
  {
    var opts := map["subject" := Obj(person), "update" := u];
    var steps := CreateSteps(History, opts, supply);
    assert steps == [Put(Pointer(Obj(person))), Put(supply("date")), Put(u)];
    AssembleOfThree(map[], HistorySchema, steps);
  }

  /** `new Person({})` throws MissingProperty for `name`. */
  lemma ConstructPersonWithoutName(supply: string -> Value)
    ensures Construct(Person, map[], supply) == Err(Custom(MissingProperty("Person", "name")))
  {
    var steps := ConstructSteps(Person, map[], supply);
    assert steps[0] == ConstructStep("Person", PersonSchema[0], map[], supply);
    assert steps[0] == Throw(Custom(MissingProperty("Person", "name")));
    assert NoThrow(steps[..0]);
    AssembleFirstThrow(map[], PersonSchema, steps, 0);
  }

  /** `new Person(stored)` on a stored person keeps its name, `_id` and
      `_type`, but replaces its `dob` with a fresh default and drops its
      `sex`: the default wins over the stored value, and an optional field
      without default is not copied. */
  lemma ReconstructStoredPerson(name: Value, dob: Value, sex: Value, id: string, supply: string -> Value)
    requires !Nullish(name) && id != ""
    ensures Construct(Person, map["name" := name, "dob" := dob, "sex" := sex,
                                  "_id" := Str(id), "_type" := Str("Person")], supply) ==
              Ok(map["name" := name, "dob" := supply("dob"), "_id" := Str(id), "_type" := Str("Person")])
  {
    var opts := map["name" := name, "dob" := dob, "sex" := sex, "_id" := Str(id), "_type" := Str("Person")];
    var steps := ConstructSteps(Person, opts, supply);
    assert steps == [Put(name), Put(supply("dob")), Skip];
    AssembleOfThree(map[], PersonSchema, steps);
  }

  /** Saving the rebuilt person after `person.sex = 'male'` writes the name,
      the new `dob` and the sex under the kept `_id`. */
  lemma SaveRebuiltPerson(name: Value, dob: Value, id: string, freshId: string)
    requires !Nullish(name) && !Nullish(dob) && id != ""
    ensures var props := map["name" := name, "dob" := dob, "sex" := Str("male"),
                             "_id" := Str(id), "_type" := Str("Person")];
      && Stamp(props, freshId, "Person") == props
      && SaveBody(Person, props) == Ok(props)
  {
    var props := map["name" := name, "dob" := dob, "sex" := Str("male"),
                     "_id" := Str(id), "_type" := Str("Person")];
    var header := SaveHeader(props);
    assert header == map["_id" := Str(id), "_type" := Str("Person")];
    var steps := SaveSteps(Person, props);
    assert steps[0] == Put(name) && steps[1] == Put(dob) && steps[2] == Put(Str("male"));
    AssembleOfThree(header, PersonSchema, steps);
    assert header["name" := name]["dob" := dob]["sex" := Str("male")] == props;
  }
}
