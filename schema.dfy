/** Schemas, the model types bound to them, and the field-by-field loop all
    three shaping operations share: walk the schema in order, and for each
    field store a value, leave it out, or throw. */
module Schemas {
  import opened Values
  import opened Errors

  /** `schema[key]`: its `required`, `default` and `type` properties, each
      `Undefined` when the descriptor does not have it. */
  datatype Descriptor = Descriptor(required: Value, default: Value, kind: Value)

  datatype Field = Field(key: string, desc: Descriptor)

  predicate DistinctKeys(fields: seq<Field>) {
    forall i, j :: 0 <= i < j < |fields| ==> fields[i].key != fields[j].key
  }

  /** A schema object, as its fields come out of `for (let key in schema)`:
      in enumeration order, each key once. */
  type Schema = fields: seq<Field> | DistinctKeys(fields)

  /** What `model(name)` hands out: the name and the schema the generated
      constructor closes over. */
  datatype ModelType = ModelType(name: string, schema: Schema)

  /** `schema[key].type === 'ref'`. */
  predicate IsRef(d: Descriptor) {
    d.kind == Str("ref")
  }

  /** The pointer record stored for a reference field. */
  function Pointer(v: Value): Value
    requires !Nullish(v)
  {
    Obj(map["$ref" := Get(v, "_id"), "type" := Get(v, "_type")])
  }

  /** What one pass of a shaping loop does for one field. */
  datatype Step = Put(v: Value) | Skip | Throw(e: Error)

  function Apply(d: Doc, key: string, s: Step): Result<Doc> {
    match s
    case Put(v) => Ok(d[key := v])
    case Skip => Ok(d)
    case Throw(e) => Err(e)
  }

  /** The result of running a shaping loop over `fields` from the object
      `init`, where `steps[i]` is what the loop does for `fields[i]`: the
      first throw ends the loop, later fields are never looked at. */
  function Assemble(init: Doc, fields: seq<Field>, steps: seq<Step>): Result<Doc>
    requires |steps| == |fields|
    decreases |fields|
  {
    if fields == [] then Ok(init)
    else
      var n := |fields| - 1;
      match Assemble(init, fields[..n], steps[..n])
      case Err(e) => Err(e)
      case Ok(d) => Apply(d, fields[n].key, steps[n])
  }

  predicate NoThrow(steps: seq<Step>) {
    forall j :: 0 <= j < |steps| ==> !steps[j].Throw?
  }

  /** The keys the loop stores a value under. */
  function PutKeys(fields: seq<Field>, steps: seq<Step>): set<string>
    requires |steps| == |fields|
  {
    set i | 0 <= i < |fields| && steps[i].Put? :: fields[i].key
  }

  /** One more pass of the loop. */
  lemma AssembleExtend(init: Doc, fields: seq<Field>, steps: seq<Step>, i: nat)
    requires |steps| == |fields| && i < |fields|
    ensures Assemble(init, fields[..i + 1], steps[..i + 1]) ==
              match Assemble(init, fields[..i], steps[..i])
              case Err(e) => Err(e)
              case Ok(d) => Apply(d, fields[i].key, steps[i])
  {
    assert fields[..i + 1][..i] == fields[..i];
    assert steps[..i + 1][..i] == steps[..i];
  }

  /** One more pass of a loop that has not thrown so far. */
  lemma AssembleNext(init: Doc, fields: seq<Field>, steps: seq<Step>, i: nat, d: Doc)
    requires |steps| == |fields| && i < |fields|
    requires Assemble(init, fields[..i], steps[..i]) == Ok(d)
    ensures Assemble(init, fields[..i + 1], steps[..i + 1]) == Apply(d, fields[i].key, steps[i])
  {
    AssembleExtend(init, fields, steps, i);
  }

  /** Once a pass has thrown, the loop's outcome is that error. */
  lemma {:induction false} AssembleStops(init: Doc, fields: seq<Field>, steps: seq<Step>, i: nat)
    requires |steps| == |fields| && i <= |fields|
    requires Assemble(init, fields[..i], steps[..i]).Err?
    ensures Assemble(init, fields, steps) == Assemble(init, fields[..i], steps[..i])
    decreases |fields|
  {
    if i < |fields| {
      var n := |fields| - 1;
      assert fields[..n][..i] == fields[..i];
      assert steps[..n][..i] == steps[..i];
      AssembleStops(init, fields[..n], steps[..n], i);
    } else {
      assert fields[..i] == fields;
      assert steps[..i] == steps;
    }
  }

  /** The loop completes exactly when no pass throws. */
  lemma {:induction false} AssembleSucceeds(init: Doc, fields: seq<Field>, steps: seq<Step>)
    requires |steps| == |fields|
    ensures Assemble(init, fields, steps).Ok? <==> NoThrow(steps)
    decreases |fields|
  {
    if fields != [] {
      var n := |fields| - 1;
      AssembleSucceeds(init, fields[..n], steps[..n]);
      assert NoThrow(steps) <==> NoThrow(steps[..n]) && !steps[n].Throw? by {
        assert forall j :: 0 <= j < n ==> steps[..n][j] == steps[j];
      }
    }
  }

  /** The loop fails with the error of the first pass that throws. */
  lemma AssembleFirstThrow(init: Doc, fields: seq<Field>, steps: seq<Step>, i: nat)
    requires |steps| == |fields| && i < |steps|
    requires steps[i].Throw? && NoThrow(steps[..i])
    ensures Assemble(init, fields, steps) == Err(steps[i].e)
  {
    AssembleSucceeds(init, fields[..i], steps[..i]);
    AssembleExtend(init, fields, steps, i);
    AssembleStops(init, fields, steps, i + 1);
  }

  /** A completed loop holds the starting keys and the keys it stored under,
      and no others. */
  lemma {:induction false} AssembleKeys(init: Doc, fields: seq<Field>, steps: seq<Step>)
    requires |steps| == |fields| && Assemble(init, fields, steps).Ok?
    ensures Assemble(init, fields, steps).value.Keys == init.Keys + PutKeys(fields, steps)
    decreases |fields|
  {
    if fields != [] {
      var n := |fields| - 1;
      AssembleKeys(init, fields[..n], steps[..n]);
      var extra: set<string> := if steps[n].Put? then {fields[n].key} else {};
      assert PutKeys(fields, steps) == PutKeys(fields[..n], steps[..n]) + extra by {
        forall k | k in PutKeys(fields, steps)
          ensures k in PutKeys(fields[..n], steps[..n]) + extra
        {
          var i :| 0 <= i < |fields| && steps[i].Put? && fields[i].key == k;
          if i < n {
            assert fields[..n][i] == fields[i] && steps[..n][i] == steps[i];
          }
        }
        forall k | k in PutKeys(fields[..n], steps[..n])
          ensures k in PutKeys(fields, steps)
        {
          var i :| 0 <= i < n && steps[..n][i].Put? && fields[..n][i].key == k;
          assert fields[i].key == k && steps[i].Put?;
        }
      }
    }
  }

  /** Where the loop stores a value, that value is the one left behind: the
      keys are distinct, so no later pass overwrites it. */
  lemma {:induction false} AssemblePut(init: Doc, fields: seq<Field>, steps: seq<Step>, i: nat)
    requires |steps| == |fields| && DistinctKeys(fields)
    requires Assemble(init, fields, steps).Ok?
    requires i < |fields| && steps[i].Put?
    ensures fields[i].key in Assemble(init, fields, steps).value
    ensures Assemble(init, fields, steps).value[fields[i].key] == steps[i].v
    decreases |fields|
  {
    var n := |fields| - 1;
    if i < n {
      assert fields[..n][i] == fields[i] && steps[..n][i] == steps[i];
      AssemblePut(init, fields[..n], steps[..n], i);
    }
  }

  /** A key no pass stores under keeps its starting value, or stays absent. */
  lemma {:induction false} AssembleUntouched(init: Doc, fields: seq<Field>, steps: seq<Step>, k: string)
    requires |steps| == |fields| && Assemble(init, fields, steps).Ok?
    requires forall i :: 0 <= i < |fields| && fields[i].key == k ==> !steps[i].Put?
    ensures k in Assemble(init, fields, steps).value <==> k in init
    ensures Lookup(Assemble(init, fields, steps).value, k) == Lookup(init, k)
    decreases |fields|
  {
    if fields != [] {
      var n := |fields| - 1;
      assert forall i :: 0 <= i < n ==> fields[..n][i] == fields[i] && steps[..n][i] == steps[i];
      AssembleUntouched(init, fields[..n], steps[..n], k);
    }
  }
}
