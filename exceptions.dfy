/**
 * Python exceptions as the integration's `except` clauses see them.
 * How the external client library's classes relate to each other is not known,
 * so a raised exception is described by the set of the named classes it is an
 * instance of; an `except` clause catches it when that set meets the clause's
 * classes. Every named class is an ordinary subclass of `Exception`, so an
 * object of any of them is also an `Exception`; an object of none of them is
 * a plain `Exception` when `classes` is `{PyException}`, and a non-Exception
 * (cancellation, exit) when `classes` is empty.
 */
module Exceptions {
  import opened Common

  datatype ErrorClass =
    | InvalidCredentialsError   // kerblwelt_api.InvalidCredentialsError
    | TokenExpiredError         // kerblwelt_api.TokenExpiredError
    | KerblweltConnectionError  // kerblwelt_api.ConnectionError
    | ApiError                  // kerblwelt_api.APIError
    | AiohttpClientError        // aiohttp.ClientError
    | PyException               // Python's Exception; cancellation and exits are not

  /** A raised object: the classes it is an instance of, and its `str()`. */
  datatype Raised = Raised(classes: set<ErrorClass>, text: string)

  /** Whether `isinstance(e, Exception)` holds: any named class implies it. */
  predicate IsException(e: Raised) {
    e.classes != {}
  }

  /** The named classes `e` is an instance of, with `Exception` added for every Exception. */
  function InstanceClasses(e: Raised): (r: set<ErrorClass>)
    ensures e.classes <= r
    ensures PyException in r <==> IsException(e)
  {
    if IsException(e) then e.classes + {PyException} else {}
  }

  /** `isinstance(e, (C1, ..., Cn))`. */
  predicate IsInstance(e: Raised, cls: set<ErrorClass>) {
    InstanceClasses(e) * cls != {}
  }

  /**
   * `except C` catches exactly the instances of `C`: for `Exception` every
   * Exception, for a named class the objects tagged with it.
   */
  lemma InstanceOfOne(e: Raised, c: ErrorClass)
    ensures c == PyException ==> (IsInstance(e, {c}) <==> IsException(e))
    ensures c != PyException ==> (IsInstance(e, {c}) <==> c in e.classes)
  {
    if c in InstanceClasses(e) {
      assert c in InstanceClasses(e) * {c};
    }
  }

  /** `except (C1, ..., Cn): handler`. */
  datatype Clause<+H> = Clause(catches: set<ErrorClass>, handler: H)

  predicate Catches<H>(c: Clause<H>, e: Raised) {
    IsInstance(e, c.catches)
  }

  /**
   * The clause Python runs for `e`: clauses are tried top to bottom and the
   * first one that catches `e` wins; `None` means `e` escapes the `try`.
   */
  function FirstMatch<H>(clauses: seq<Clause<H>>, e: Raised): (r: Option<nat>)
    ensures r.Some? ==> r.value < |clauses| && Catches(clauses[r.value], e)
    ensures r.Some? ==> forall j :: 0 <= j < r.value ==> !Catches(clauses[j], e)
    ensures r.None? <==> forall j :: 0 <= j < |clauses| ==> !Catches(clauses[j], e)
  {
    if clauses == [] then None
    else if Catches(clauses[0], e) then Some(0)
    else match FirstMatch(clauses[1..], e)
      case None => None
      case Some(i) => Some(i + 1)
  }

  /** The handler of the clause that runs, if any. */
  function Handler<H>(clauses: seq<Clause<H>>, e: Raised): Option<H> {
    match FirstMatch(clauses, e)
    case None => None
    case Some(i) => Some(clauses[i].handler)
  }
}
