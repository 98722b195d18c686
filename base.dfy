/** Failure-carrying wrappers shared by every module of the model. */
module Wrappers {

  /** A value that may be absent: Python's `None` versus a present value. */
  datatype Option<+T> = None | Some(value: T)

  /** The outcome of an operation that either returns a value or raises. */
  datatype Result<+T, +E> = Success(value: T) | Failure(error: E) {

    predicate IsFailure() {
      Failure?
    }

    function PropagateFailure<U>(): Result<U, E>
      requires Failure?
    {
      Failure(error)
    }

    function Extract(): T
      requires Success?
    {
      value
    }
  }
}

/** The exceptions the modelled Python code raises or lets escape. */
module PyErrors {

  datatype Exception =
    | KeyError               // `d[k]` on a dict without `k`
    | TypeError              // an operation applied to a value of the wrong type
    | IndexError             // indexing or `random.choice` on an empty sequence
    | ValueError             // `random.choices` with zero total weight, a failed `int()`, a rejected setting
    | AttributeError         // an attribute looked up on `None` (or on an object that lacks it)
    | ZeroDivisionError      // integer division or modulo by zero
    | LanguageNotSupported   // `LanguageNotSupportedError` of the translator
    | CorrectionError        // a setting's `correct` giving up (the class the settings package defines and catches)
    | ErrorsCorrectionError  // the distinct `CorrectionError` of `settings/errors.py`, raised by the validators
    | EndOfInput             // `input()` reaching the end of its stream (`EOFError`)
    | NegativeCount          // the model refuses negative counts read from JSON (Python accepts them)
}

/** The two reading directions of a vocabulary: FORWARD asks a source and accepts
    its translations, BACKWARD asks a translation and accepts the sources. */
module Directions {
  datatype Direction = Forward | Backward
}
