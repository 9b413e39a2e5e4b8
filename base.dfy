/** Values shared by every module: optional values, results with the errors the
    launcher and its configuration loader raise, and the 32-bit `Int` of the JVM. */
module Base {

  datatype Option<+T> = None | Some(value: T)

  /** The exceptions the modelled code throws, one constructor per distinct cause. */
  datatype Error =
    | UnknownLogLevel(name: string)           // `error("Unknown log level: ...")`
    | NoExtension(text: string)               // substring(0, -1) when there is no '.'
    | TypeMismatch(key: string)               // a configuration value of the wrong type (ClassCastException)
    | UnsupportedValue(kind: string)          // IllegalArgumentException("Unsupported ...")
    | MissingHostList                         // bare `mpjCluster` communicator
    | MissingPortRange                        // cluster communicator without `portRange`
    | MissingModelFile                        // ODE model without `file`
    | UnknownNormalForm(value: string)
    | UnsupportedTaskType(value: string)
    | InvalidPortRange(range: string)         // the range does not split into two parts
    | NotANumber(text: string)                // NumberFormatException of String.toInt()
    | OutOfPorts                              // "Ran out of ports when creating mpj config file!"
    | MissingMpjHome                          // File(null) when MPJ_HOME is not set
    | InvalidMpjHome(path: string)            // the MPJ home is not a directory
    | CannotCreateDirectory                   // mkdir of the experiment directory failed
    | UnsupportedFormula(funName: string)     // IllegalStateException of SMT.toR
    | MissingArgument                         // funArgs[k] past the end of the argument list

  datatype Result<+T> = Ok(value: T) | Err(error: Error) {
    predicate IsFailure() { Err? }

    function PropagateFailure<U>(): Result<U>
      requires Err?
    {
      Err(error)
    }

    function Extract(): T
      requires Ok?
    {
      value
    }
  }

  const Int32Min: int := -0x8000_0000
  const Int32Max: int := 0x7fff_ffff
  const TwoTo32: int := 0x1_0000_0000

  predicate IsInt32(x: int) { Int32Min <= x <= Int32Max }

  /** Two's-complement wrap-around of JVM `Int` arithmetic. */
  function Wrap32(x: int): (r: int)
    ensures IsInt32(r)
    ensures (r - x) % TwoTo32 == 0
    ensures IsInt32(x) ==> r == x
  {
    (x - Int32Min) % TwoTo32 + Int32Min
  }

}
