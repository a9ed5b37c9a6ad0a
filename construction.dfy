/** The constructor `model(name)` generates: it shapes a new instance from an
    option bag, field by field over the schema. */
module Construction {
  import opened Values
  import opened Errors
  import opened Schemas

  /** What the constructor's loop does for one field: a truthy `default` is
      called and wins whatever `opts` holds; otherwise a truthy `required`
      copies the option or throws MissingProperty; otherwise the field is
      left out. `supply(key)` is what the default provider returns on this
      call. */
  function ConstructStep(name: string, f: Field, opts: Doc, supply: string -> Value): Step {
    if Truthy(f.desc.default) then
      if f.desc.default.Fn? then Put(supply(f.key))
      else Throw(TypeError(DefaultNotCallable(f.key)))
    else if Truthy(f.desc.required) then
      if !Nullish(Lookup(opts, f.key)) then Put(Lookup(opts, f.key))
      else Throw(Custom(MissingProperty(name, f.key)))
    else Skip
  }

  function ConstructSteps(m: ModelType, opts: Doc, supply: string -> Value): seq<Step> {
    seq(|m.schema|, i requires 0 <= i < |m.schema| => ConstructStep(m.name, m.schema[i], opts, supply))
  }

  /** `if (opts._id) this._id = opts._id; if (opts._type) this._type = opts._type` */
  function CopyReserved(d: Doc, opts: Doc): Doc {
    var withId := if Truthy(Lookup(opts, "_id")) then d["_id" := opts["_id"]] else d;
    if Truthy(Lookup(opts, "_type")) then withId["_type" := opts["_type"]] else withId
  }

  /** The reserved keys the constructor copies from `opts`. */
  function CopiedReserved(opts: Doc): set<string> {
    (if Truthy(Lookup(opts, "_id")) then {"_id"} else {}) +
    (if Truthy(Lookup(opts, "_type")) then {"_type"} else {})
  }

  /** The own properties of `new Model(opts)`, or what it throws. */
  function Construct(m: ModelType, opts: Doc, supply: string -> Value): Result<Doc> {
    match Assemble(map[], m.schema, ConstructSteps(m, opts, supply))
    case Err(e) => Err(e)
    case Ok(d) => Ok(CopyReserved(d, opts))
  }

  /** A field the constructor gets past: a truthy default is a function, and
      a required field without one has a non-null option. */
  predicate ConstructAccepts(f: Field, opts: Doc) {
    && (Truthy(f.desc.default) ==> f.desc.default.Fn?)
    && (!Truthy(f.desc.default) && Truthy(f.desc.required) ==> !Nullish(Lookup(opts, f.key)))
  }

  /** The generated constructor's loop, writing the instance's properties one
      key at a time. */
  method ResolveConstruct(m: ModelType, opts: Doc, supply: string -> Value) returns (r: Result<Doc>)
    ensures r == Construct(m, opts, supply)
  {
    ghost var steps := ConstructSteps(m, opts, supply);
    var props: Doc := map[];
    var i := 0;
    while i < |m.schema|
      invariant 0 <= i <= |m.schema|
      invariant Assemble(map[], m.schema[..i], steps[..i]) == Ok(props)
    {
      var key, desc := m.schema[i].key, m.schema[i].desc;
      AssembleNext(map[], m.schema, steps, i, props);
      assert steps[i] == ConstructStep(m.name, m.schema[i], opts, supply);
      if Truthy(desc.default) {
        if !desc.default.Fn? {
          AssembleStops(map[], m.schema, steps, i + 1);
          return Err(TypeError(DefaultNotCallable(key)));
        }
        props := props[key := supply(key)];
      } else if Truthy(desc.required) {
        if Nullish(Lookup(opts, key)) {
          AssembleStops(map[], m.schema, steps, i + 1);
          return Err(Custom(MissingProperty(m.name, key)));
        }
        props := props[key := opts[key]];
      }
      i := i + 1;
    }
    assert m.schema[..i] == m.schema && steps[..i] == steps;
    if Truthy(Lookup(opts, "_id")) {
      props := props["_id" := opts["_id"]];
    }
    if Truthy(Lookup(opts, "_type")) {
      props := props["_type" := opts["_type"]];
    }
    r := Ok(props);
  }

  /** Construction succeeds exactly when every field is accepted. */
  lemma ConstructSucceeds(m: ModelType, opts: Doc, supply: string -> Value)
    ensures Construct(m, opts, supply).Ok? <==>
              forall i :: 0 <= i < |m.schema| ==> ConstructAccepts(m.schema[i], opts)
  {
    var steps := ConstructSteps(m, opts, supply);
    AssembleSucceeds(map[], m.schema, steps);
    assert forall i :: 0 <= i < |m.schema| ==> (steps[i].Throw? <==> !ConstructAccepts(m.schema[i], opts));
  }

  /** Construction throws for the first field it does not accept: a
      TypeError when that field's default is not a function, and otherwise
      MissingProperty naming the model and that field. */
  lemma ConstructFailsAt(m: ModelType, opts: Doc, supply: string -> Value, i: nat)
    requires i < |m.schema| && !ConstructAccepts(m.schema[i], opts)
    requires forall j :: 0 <= j < i ==> ConstructAccepts(m.schema[j], opts)
    ensures Construct(m, opts, supply) ==
              if Truthy(m.schema[i].desc.default) then Err(TypeError(DefaultNotCallable(m.schema[i].key)))
              else Err(Custom(MissingProperty(m.name, m.schema[i].key)))
  {
    var steps := ConstructSteps(m, opts, supply);
    assert NoThrow(steps[..i]) by {
      assert forall j :: 0 <= j < i ==> steps[..i][j] == steps[j];
    }
    AssembleFirstThrow(map[], m.schema, steps, i);
  }

  /** What an instance holds under a schema key (other than `_id` and
      `_type`, which the constructor may overwrite from `opts`): the
      default's value when the default is truthy, whatever `opts` says; the
      non-null option for a required field without default; and nothing for
      an optional field without default. */
  lemma ConstructField(m: ModelType, opts: Doc, supply: string -> Value, i: nat)
    requires Construct(m, opts, supply).Ok?
    requires i < |m.schema| && m.schema[i].key != "_id" && m.schema[i].key != "_type"
    ensures var p, f := Construct(m, opts, supply).value, m.schema[i];
      && (Truthy(f.desc.default) ==> f.key in p && p[f.key] == supply(f.key))
      && (!Truthy(f.desc.default) && Truthy(f.desc.required) ==>
            f.key in p && p[f.key] == Lookup(opts, f.key) && !Nullish(p[f.key]))
      && (!Truthy(f.desc.default) && !Truthy(f.desc.required) ==> f.key !in p)
  {
    var steps := ConstructSteps(m, opts, supply);
    AssembleSucceeds(map[], m.schema, steps);
    if steps[i].Put? {
      AssemblePut(map[], m.schema, steps, i);
    } else {
      AssembleUntouched(map[], m.schema, steps, m.schema[i].key);
    }
  }

  /** An instance's keys are exactly the schema fields with a truthy default
      or a truthy `required`, plus `_id` and `_type` when `opts` holds truthy
      values for them: optional fields without default are never set, and
      `_id`/`_type` are never generated here. */
  lemma ConstructKeys(m: ModelType, opts: Doc, supply: string -> Value)
    requires Construct(m, opts, supply).Ok?
    ensures Construct(m, opts, supply).value.Keys ==
              (set i | 0 <= i < |m.schema| && (Truthy(m.schema[i].desc.default) || Truthy(m.schema[i].desc.required))
                 :: m.schema[i].key)
              + CopiedReserved(opts)
  {
    var steps := ConstructSteps(m, opts, supply);
    AssembleSucceeds(map[], m.schema, steps);
    AssembleKeys(map[], m.schema, steps);
    assert PutKeys(m.schema, steps) ==
             set i | 0 <= i < |m.schema| && (Truthy(m.schema[i].desc.default) || Truthy(m.schema[i].desc.required))
               :: m.schema[i].key;
  }

  /** `_id` and `_type` are copied verbatim when `opts` holds truthy values. */
  lemma ConstructReserved(m: ModelType, opts: Doc, supply: string -> Value)
    requires Construct(m, opts, supply).Ok?
    ensures var p := Construct(m, opts, supply).value;
      && (Truthy(Lookup(opts, "_id")) ==> "_id" in p && p["_id"] == opts["_id"])
      && (Truthy(Lookup(opts, "_type")) ==> "_type" in p && p["_type"] == opts["_type"])
  {
  }
}
