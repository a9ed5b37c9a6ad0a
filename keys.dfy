/** The composite storage key `type:id` under which documents are kept. */
module Keys {
  import opened Values

  /** The template literal `${type}:${id}`. */
  function CompositeKey(typ: Value, id: Value): string {
    ToStr(typ) + ":" + ToStr(id)
  }

  /** A key names one (type, id) pair, as long as the type's text holds no
      colon: the type is the text before the first colon, the id the rest. */
  lemma CompositeKeyInjective(t1: Value, id1: Value, t2: Value, id2: Value)
    requires ':' !in ToStr(t1) && ':' !in ToStr(t2)
    ensures CompositeKey(t1, id1) == CompositeKey(t2, id2) <==>
              ToStr(t1) == ToStr(t2) && ToStr(id1) == ToStr(id2)
  {
    if CompositeKey(t1, id1) == CompositeKey(t2, id2) {
      ColonSplit(ToStr(t1), ToStr(id1), ToStr(t2), ToStr(id2));
    }
  }

  /** With a colon in a model name, two different (type, id) pairs share a
      key: nothing in the key format keeps them apart. */
  lemma CompositeKeyCollision()
    ensures CompositeKey(Str("a:b"), Str("c")) == CompositeKey(Str("a"), Str("b:c"))
  {
  }
}
