/** The failures the shaper raises: its own three error builders, and two
    TypeErrors the JavaScript engine raises on paths the code does not guard
    (a non-callable default and a ref without value). */
module Errors {
  import opened Values

  /** The errors built by the shaper's `_...Error` helpers. */
  datatype CustomError =
    | NoQueryResults(query: string)
    | ModelNotRegistered(name: string)
    | MissingProperty(model: string, key: string)

  /** The two engine TypeErrors modelled: a non-callable default and a ref
      field without value. */
  datatype TypeErrorCause =
      /** `schema[key].default` is truthy but is not a function. */
    | DefaultNotCallable(key: string)
      /** A ref field's value is null or undefined, so reading its `_id` fails. */
    | RefIsNullish(key: string)

  datatype Error = Custom(custom: CustomError) | TypeError(cause: TypeErrorCause)

  /** A thrown error or a rejected promise, or the value obtained. */
  datatype Result<T> = Ok(value: T) | Err(error: Error)

  const NoResultsPrefix := "No document results for query "
  const NotRegisteredPrefix := "No model registered with name: "
  const MissingPrefix := "While instantiating model "
  const MissingMiddle := " Missing required property "

  /** The message text each builder puts into its `Error`. */
  function Message(e: CustomError): string {
    match e
    case NoQueryResults(q) => NoResultsPrefix + q
    case ModelNotRegistered(n) => NotRegisteredPrefix + n
    case MissingProperty(n, k) => MissingPrefix + n + ":" + MissingMiddle + k
  }

  /** The first and fourth characters of a message tell its kind apart. */
  lemma MessageHead(e: CustomError)
    ensures |Message(e)| > 3
    ensures Message(e)[0] == if e.MissingProperty? then 'W' else 'N'
    ensures e.NoQueryResults? ==> Message(e)[3] == 'd'
    ensures e.ModelNotRegistered? ==> Message(e)[3] == 'm'
  {
  }

  /** The message identifies the error it was built for: its kind, and the
      name, query or key it carries. The model name of a MissingProperty
      must hold no colon, since `<name>: Missing required property <key>`
      is ambiguous otherwise. */
  lemma {:induction false} MessageIdentifiesError(e1: CustomError, e2: CustomError)
    requires e1.MissingProperty? ==> ':' !in e1.model
    requires e2.MissingProperty? ==> ':' !in e2.model
    ensures Message(e1) == Message(e2) <==> e1 == e2
  {
    if Message(e1) == Message(e2) {
      var m := Message(e1);
      MessageHead(e1);
      MessageHead(e2);
      match e1
      case NoQueryResults(q1) =>
        assert q1 == m[|NoResultsPrefix|..];
        assert e2.query == m[|NoResultsPrefix|..];
      case ModelNotRegistered(n1) =>
        assert n1 == m[|NotRegisteredPrefix|..];
        assert e2.name == m[|NotRegisteredPrefix|..];
      case MissingProperty(n1, k1) =>
        var n2, k2 := e2.model, e2.key;
        assert m == (MissingPrefix + n1) + ":" + (MissingMiddle + k1);
        assert m == (MissingPrefix + n2) + ":" + (MissingMiddle + k2);
        ColonSplit(MissingPrefix + n1, MissingMiddle + k1, MissingPrefix + n2, MissingMiddle + k2);
        assert n1 == (MissingPrefix + n1)[|MissingPrefix|..];
        assert n2 == (MissingPrefix + n2)[|MissingPrefix|..];
        assert k1 == (MissingMiddle + k1)[|MissingMiddle|..];
        assert k2 == (MissingMiddle + k2)[|MissingMiddle|..];
    }
  }
}
