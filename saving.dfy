/** An instance's `save()`: fill in `_id` and `_type`, then assemble the
    document to upsert from the instance's current properties. */
module Saving {
  import opened Values
  import opened Errors
  import opened Schemas
  import opened Construction

  /** `if (this._id == null) this._id = uuid(); if (this._type == null) this._type = name`,
      with `freshId` the identifier `uuid()` returns on this call. */
  function Stamp(props: Doc, freshId: string, name: string): Doc {
    var withId := if Nullish(Lookup(props, "_id")) then props["_id" := Str(freshId)] else props;
    if Nullish(Lookup(withId, "_type")) then withId["_type" := Str(name)] else withId
  }

  /** After stamping, `_id` and `_type` are set: a missing one gets the fresh
      id or the model name, a present one is kept; nothing else changes. */
  lemma StampFillsReserved(props: Doc, freshId: string, name: string)
    ensures var p := Stamp(props, freshId, name);
      && Lookup(p, "_id") == (if Nullish(Lookup(props, "_id")) then Str(freshId) else props["_id"])
      && Lookup(p, "_type") == (if Nullish(Lookup(props, "_type")) then Str(name) else props["_type"])
      && p.Keys == props.Keys + {"_id", "_type"}
      && forall k :: k in props && k != "_id" && k != "_type" ==> p[k] == props[k]
  {
  }

  /** A second save stamps nothing: it reuses the first one's `_id`, so it
      writes under the same key. */
  lemma StampIdempotent(props: Doc, id1: string, id2: string, name: string)
    ensures Stamp(Stamp(props, id1, name), id2, name) == Stamp(props, id1, name)
  {
  }

  /** What `save`'s loop does for one field: a ref field becomes a pointer
      record (reading `_id` of a null value is a TypeError); otherwise a field
      whose `required` is exactly `true` is copied or throws MissingProperty;
      otherwise a non-null value is copied. The ref test comes first. */
  function SaveStep(name: string, f: Field, props: Doc): Step {
    var v := Lookup(props, f.key);
    if IsRef(f.desc) then
      if Nullish(v) then Throw(TypeError(RefIsNullish(f.key))) else Put(Pointer(v))
    else if f.desc.required == Bool(true) then
      if Nullish(v) then Throw(Custom(MissingProperty(name, f.key))) else Put(v)
    else if !Nullish(v) then Put(v)
    else Skip
  }

  function SaveSteps(m: ModelType, props: Doc): seq<Step> {
    seq(|m.schema|, i requires 0 <= i < |m.schema| => SaveStep(m.name, m.schema[i], props))
  }

  /** `let update = { _id: this._id, _type: this._type }` */
  function SaveHeader(props: Doc): Doc {
    map["_id" := Lookup(props, "_id"), "_type" := Lookup(props, "_type")]
  }

  /** The document `save` upserts for an (already stamped) instance, or what
      it rejects with. */
  function SaveBody(m: ModelType, props: Doc): Result<Doc> {
    Assemble(SaveHeader(props), m.schema, SaveSteps(m, props))
  }

  /** A field `save` gets past: a ref field has a value, and a non-ref field
      whose `required` is `true` has a non-null one. */
  predicate SaveAccepts(f: Field, props: Doc) {
    if IsRef(f.desc) then !Nullish(Lookup(props, f.key))
    else f.desc.required == Bool(true) ==> !Nullish(Lookup(props, f.key))
  }

  /** The loop of `save` that fills `update` key by key. */
  method ResolveSaveBody(m: ModelType, props: Doc) returns (r: Result<Doc>)
    ensures r == SaveBody(m, props)
  {
    ghost var steps, header := SaveSteps(m, props), SaveHeader(props);
    var update := map["_id" := Lookup(props, "_id"), "_type" := Lookup(props, "_type")];
    assert update == header;
    var i := 0;
    while i < |m.schema|
      invariant 0 <= i <= |m.schema|
      invariant Assemble(header, m.schema[..i], steps[..i]) == Ok(update)
    {
      var key, desc := m.schema[i].key, m.schema[i].desc;
      AssembleNext(header, m.schema, steps, i, update);
      assert steps[i] == SaveStep(m.name, m.schema[i], props);
      var v := Lookup(props, key);
      if desc.kind == Str("ref") {
        if Nullish(v) {
          AssembleStops(header, m.schema, steps, i + 1);
          return Err(TypeError(RefIsNullish(key)));
        }
        update := update[key := Obj(map["$ref" := Get(v, "_id"), "type" := Get(v, "_type")])];
      } else if desc.required == Bool(true) {
        if Nullish(v) {
          AssembleStops(header, m.schema, steps, i + 1);
          return Err(Custom(MissingProperty(m.name, key)));
        }
        update := update[key := v];
      } else if !Nullish(v) {
        update := update[key := v];
      }
      i := i + 1;
    }
    assert m.schema[..i] == m.schema && steps[..i] == steps;
    r := Ok(update);
  }

  /** `save` assembles a document exactly when every field is accepted. */
  lemma SaveSucceeds(m: ModelType, props: Doc)
    ensures SaveBody(m, props).Ok? <==> forall i :: 0 <= i < |m.schema| ==> SaveAccepts(m.schema[i], props)
  {
    var steps := SaveSteps(m, props);
    AssembleSucceeds(SaveHeader(props), m.schema, steps);
    assert forall i :: 0 <= i < |m.schema| ==> (steps[i].Throw? <==> !SaveAccepts(m.schema[i], props));
  }

  /** `save` rejects for the first field it does not accept: a TypeError for
      a ref field without value, MissingProperty for a required one. */
  lemma SaveFailsAt(m: ModelType, props: Doc, i: nat)
    requires i < |m.schema| && !SaveAccepts(m.schema[i], props)
    requires forall j :: 0 <= j < i ==> SaveAccepts(m.schema[j], props)
    ensures SaveBody(m, props) ==
              if IsRef(m.schema[i].desc) then Err(TypeError(RefIsNullish(m.schema[i].key)))
              else Err(Custom(MissingProperty(m.name, m.schema[i].key)))
  {
    var steps := SaveSteps(m, props);
    assert NoThrow(steps[..i]) by {
      assert forall j :: 0 <= j < i ==> steps[..i][j] == steps[j];
    }
    AssembleFirstThrow(SaveHeader(props), m.schema, steps, i);
  }

  /** What the saved document holds under a schema key other than `_id` and
      `_type`: the pointer record `{$ref, type}` for a ref field, the value
      of a required field, and the value of an optional field exactly when
      it is non-null. Defaults play no part in `save`. */
  lemma SaveField(m: ModelType, props: Doc, i: nat)
    requires SaveBody(m, props).Ok?
    requires i < |m.schema| && m.schema[i].key != "_id" && m.schema[i].key != "_type"
    ensures var b, f, v := SaveBody(m, props).value, m.schema[i], Lookup(props, m.schema[i].key);
      && (IsRef(f.desc) ==> !Nullish(v) && f.key in b && b[f.key] == Pointer(v))
      && (!IsRef(f.desc) && f.desc.required == Bool(true) ==> !Nullish(v) && f.key in b && b[f.key] == v)
      && (!IsRef(f.desc) && f.desc.required != Bool(true) ==>
            (f.key in b <==> !Nullish(v)) && (f.key in b ==> b[f.key] == v))
  {
    var steps := SaveSteps(m, props);
    AssembleSucceeds(SaveHeader(props), m.schema, steps);
    if steps[i].Put? {
      AssemblePut(SaveHeader(props), m.schema, steps, i);
    } else {
      AssembleUntouched(SaveHeader(props), m.schema, steps, m.schema[i].key);
    }
  }

  /** The saved document holds `_id`, `_type`, every ref field, every
      required field, and every optional field with a non-null value; no
      other key. */
  lemma SaveKeys(m: ModelType, props: Doc)
    requires SaveBody(m, props).Ok?
    ensures SaveBody(m, props).value.Keys ==
              {"_id", "_type"} +
              set i | 0 <= i < |m.schema| &&
                      (IsRef(m.schema[i].desc) || m.schema[i].desc.required == Bool(true) ||
                       !Nullish(Lookup(props, m.schema[i].key)))
                :: m.schema[i].key
  {
    var steps := SaveSteps(m, props);
    AssembleSucceeds(SaveHeader(props), m.schema, steps);
    AssembleKeys(SaveHeader(props), m.schema, steps);
    assert PutKeys(m.schema, steps) ==
             set i | 0 <= i < |m.schema| &&
                     (IsRef(m.schema[i].desc) || m.schema[i].desc.required == Bool(true) ||
                      !Nullish(Lookup(props, m.schema[i].key)))
               :: m.schema[i].key;
  }

  /** Unless the schema itself declares `_id` or `_type`, the document
      carries the instance's own `_id` and `_type`. */
  lemma SaveReserved(m: ModelType, props: Doc)
    requires SaveBody(m, props).Ok?
    ensures var b := SaveBody(m, props).value;
      && ((forall i :: 0 <= i < |m.schema| ==> m.schema[i].key != "_id") ==> Lookup(b, "_id") == Lookup(props, "_id"))
      && ((forall i :: 0 <= i < |m.schema| ==> m.schema[i].key != "_type") ==> Lookup(b, "_type") == Lookup(props, "_type"))
  {
    var steps := SaveSteps(m, props);
    if forall i :: 0 <= i < |m.schema| ==> m.schema[i].key != "_id" {
      AssembleUntouched(SaveHeader(props), m.schema, steps, "_id");
    }
    if forall i :: 0 <= i < |m.schema| ==> m.schema[i].key != "_type" {
      AssembleUntouched(SaveHeader(props), m.schema, steps, "_type");
    }
  }

  /** A freshly constructed instance can be saved when its default providers
      return non-null values and each ref field is one the constructor sets
      (it has a default or is required). An optional ref field without
      default is never set by the constructor, so `save` would fail on it. */
  lemma ConstructedInstanceSaves(m: ModelType, opts: Doc, supply: string -> Value, freshId: string)
    requires Construct(m, opts, supply).Ok?
    requires forall i :: 0 <= i < |m.schema| && Truthy(m.schema[i].desc.default) ==> !Nullish(supply(m.schema[i].key))
    requires forall i :: 0 <= i < |m.schema| && IsRef(m.schema[i].desc) ==>
               Truthy(m.schema[i].desc.default) || Truthy(m.schema[i].desc.required)
    ensures SaveBody(m, Stamp(Construct(m, opts, supply).value, freshId, m.name)).Ok?
  {
    var p := Construct(m, opts, supply).value;
    var q := Stamp(p, freshId, m.name);
    StampFillsReserved(p, freshId, m.name);
    forall i | 0 <= i < |m.schema|
      ensures SaveAccepts(m.schema[i], q)
    {
      var k := m.schema[i].key;
      if k != "_id" && k != "_type" {
        ConstructField(m, opts, supply, i);
        assert Lookup(q, k) == Lookup(p, k);
      }
    }
    SaveSucceeds(m, q);
  }
}
