/**
 * The exception classes the bot raises or catches, with Python's subclass
 * relation between them (restricted to these classes), and raised exceptions
 * as values: an `except C` clause catches exactly the instances of C's subclasses.
 */
module Exceptions {
  import opened Wrappers

  datatype ExcClass =
    | Exception
    | ArithmeticError | OverflowError
    | LookupError | KeyError | IndexError
    | ValueError | TypeError | AttributeError
    | OSError | RequestException
    | ApodError | DateOutOfRangeError | StartDateAfterEndDateError | ApiDataFetchError
    | NotAValidDate

  /** The direct base class. */
  function Base(c: ExcClass): Option<ExcClass> {
    match c
    case Exception => None
    case ArithmeticError | LookupError | ValueError | TypeError | AttributeError | OSError | ApodError
      | NotAValidDate => Some(Exception)
    case OverflowError => Some(ArithmeticError)
    case KeyError | IndexError => Some(LookupError)
    case RequestException => Some(OSError)
    case DateOutOfRangeError | StartDateAfterEndDateError | ApiDataFetchError => Some(ApodError)
  }

  /** Distance from `Exception` in the hierarchy. */
  function Depth(c: ExcClass): nat {
    match c
    case Exception => 0
    case OverflowError | KeyError | IndexError | RequestException
      | DateOutOfRangeError | StartDateAfterEndDateError | ApiDataFetchError => 2
    case _ => 1
  }

  /** `issubclass(c, of)`. */
  predicate IsSubclass(c: ExcClass, of: ExcClass)
    decreases Depth(c)
  {
    c == of || (Base(c).Some? && IsSubclass(Base(c).value, of))
  }

  datatype Raised = Raised(cls: ExcClass, message: string)

  /** Whether `except handler:` catches e. */
  predicate Catches(handler: ExcClass, e: Raised) {
    IsSubclass(e.cls, handler)
  }

  /**
   * The client's three errors are APODErrors, and so Exceptions; ValueError is not
   * an APODError; `except DateOutOfRangeError` catches neither of its siblings.
   */
  lemma ApodErrorHierarchy()
    ensures forall c :: c in {DateOutOfRangeError, StartDateAfterEndDateError, ApiDataFetchError} ==>
      IsSubclass(c, ApodError) && IsSubclass(c, Exception)
    ensures !IsSubclass(ValueError, ApodError) && !IsSubclass(ApodError, DateOutOfRangeError)
    ensures !IsSubclass(StartDateAfterEndDateError, DateOutOfRangeError)
    ensures !IsSubclass(ApiDataFetchError, DateOutOfRangeError)
  {
  }

  /** Every class in the model is an Exception, so a bare `except Exception` catches all of them. */
  lemma {:induction false} EverythingIsAnException(c: ExcClass)
    ensures IsSubclass(c, Exception)
    decreases Depth(c)
  {
    if c != Exception {
      EverythingIsAnException(Base(c).value);
    }
  }
}
