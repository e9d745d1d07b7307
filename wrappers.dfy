/** Small value wrappers shared by the other modules, and one fact about sequences. */
module Wrappers {

  datatype Option<+T> = None | Some(value: T)

  /** The C++ exceptions the framework throws or catches, as values. */
  datatype Exception =
    | FailNowSignal            // Tester::FailNowException / Runner::FailNowException
    | CString(s: string)       // a thrown `char const *`
    | StdException(what: string)  // anything derived from std::exception, with its what()
    | Unknown                  // anything else (`throw 30;`)

  /** How a call ends: normally, or by letting an exception escape. */
  datatype Outcome = Normal | Thrown(e: Exception)

  /** The arguments the `run` handlers of src/dheunit.cpp and dheunit/test.h pass to
      `error` for an exception they catch; they always give at least one. */
  function Complaint(e: Exception): (args: seq<string>)
    ensures |args| > 0
  {
    match e
    case CString(s) => ["Unexpected string exception: ", s]
    case StdException(what) => ["Unexpected exception: ", what]
    case _ => ["Unrecognized exception"]
  }

  /** Concatenation regroups freely; stated once so that proofs need not rediscover it
      element by element. */
  lemma Associates<T>(a: seq<T>, b: seq<T>, c: seq<T>)
    ensures a + b + c == a + (b + c)
  {
  }
}
