/** What the core sees of JSON-Schema validation. The validator itself (the
    jsonschema library and the schema files) is an oracle: a function from a
    document to the errors it reports, each with the location of the
    offending value (its `absolute_path`) and a message. */
module Schema {
  import opened Json
  import opened Text
  import opened Order

  /** One step of `absolute_path`: a dict key or a list index. */
  datatype PathElem = Key(name: string) | Index(i: nat)

  datatype SchemaError = SchemaError(path: seq<PathElem>, message: string)

  /** A validator for one fixed schema: every error it finds, in its own order. */
  type Validator = Json -> seq<SchemaError>

  /** Python's `str(p)` for one path element. */
  function ElemText(e: PathElem): string
  {
    match e
    case Key(name) => name
    case Index(i) => NatToString(i)
  }

  /** Python's `".".join(str(p) for p in path)`. */
  function DottedPath(path: seq<PathElem>): string
  {
    if path == [] then ""
    else if |path| == 1 then ElemText(path[0])
    else ElemText(path[0]) + "." + DottedPath(path[1..])
  }

  /** Python's `<=` on path elements of one kind. Python refuses to compare a
      key with an index; two paths into the same document first differ at
      elements of the same container, hence of the same kind, so the order
      chosen here between the two kinds never decides a real comparison. */
  predicate ElemLe(a: PathElem, b: PathElem)
  {
    match (a, b)
    case (Key(x), Key(y)) => StrLe(x, y)
    case (Index(x), Index(y)) => x <= y
    case (Index(_), Key(_)) => true
    case (Key(_), Index(_)) => false
  }

  /** Python's `<=` on `list(e.absolute_path)`. */
  predicate PathLe(p: seq<PathElem>, q: seq<PathElem>)
  {
    LexLe(p, q, ElemLe)
  }

  /** The sort key of `verify_certificate`: errors ordered by path alone. */
  predicate ErrorLe(a: SchemaError, b: SchemaError)
  {
    PathLe(a.path, b.path)
  }

  lemma ElemLeLinear()
    ensures LinearOrder(ElemLe)
  {
    StrLeLinear();
  }

  /** Errors compare as a total preorder, so sorting them is well defined. */
  lemma ErrorLePreorder()
    ensures TotalPreorder(ErrorLe)
  {
    ElemLeLinear();
    forall a: SchemaError, b: SchemaError ensures ErrorLe(a, b) || ErrorLe(b, a) {
      LexTotalAt(a.path, b.path, ElemLe);
    }
    forall a: SchemaError, b: SchemaError, c: SchemaError | ErrorLe(a, b) && ErrorLe(b, c)
      ensures ErrorLe(a, c)
    {
      LexTransitiveAt(a.path, b.path, c.path, ElemLe);
    }
  }
}
