/** Values shared by both versions of the program: bytes, optional values and Go's error values. */
module Common {

  /** One element of a Go `[]byte`. */
  type byte = x: int | 0 <= x < 256

  /** Go's nil-or-value: a nil `error` is `None`. */
  datatype Option<+T> = None | Some(value: T)

  /** A Go `(value, error)` pair where exactly one side is meaningful. */
  datatype Result<+T, +E> = Ok(value: T) | Err(error: E)

  /** The Go error values the program creates or inspects. */
  datatype Error =
    | Fault(id: nat)                          // an error of a collaborator the model does not look into
    | ExitError(code: int, stderr: seq<byte>) // *exec.ExitError: ProcessState.ExitCode() and the captured stderr
    | ServerClosed                            // ssh.ErrServerClosed
    | Message(text: string)                   // fmt.Errorf without a %w verb
    | Wrapped(context: string, cause: Error)  // fmt.Errorf("<context>: %w", cause)

  /** The error at the end of an unwrap chain. */
  function Root(e: Error): Error {
    match e
    case Wrapped(_, cause) => Root(cause)
    case _ => e
  }

  /** `errors.As(e, &exitErr)` for `exitErr *exec.ExitError`: the first `*exec.ExitError` down the chain. */
  function AsExitError(e: Error): Option<Error> {
    match e
    case ExitError(_, _) => Some(e)
    case Wrapped(_, cause) => AsExitError(cause)
    case _ => None
  }

  /** `errors.Is(e, ssh.ErrServerClosed)`. */
  predicate IsServerClosed(e: Error) {
    match e
    case ServerClosed => true
    case Wrapped(_, cause) => IsServerClosed(cause)
    case _ => false
  }

  /** errors.As finds an `*exec.ExitError` exactly when the unwrap chain ends in one, and then finds that one. */
  lemma {:induction false} AsExitErrorFindsRoot(e: Error)
    ensures AsExitError(e) == (if Root(e).ExitError? then Some(Root(e)) else None)
  {
    if e.Wrapped? {
      AsExitErrorFindsRoot(e.cause);
    }
  }

  /** errors.Is(e, ErrServerClosed) holds exactly when the chain ends in ErrServerClosed. */
  lemma {:induction false} IsServerClosedFindsRoot(e: Error)
    ensures IsServerClosed(e) <==> Root(e) == ServerClosed
  {
    if e.Wrapped? {
      IsServerClosedFindsRoot(e.cause);
    }
  }

  /** The `%v` formatting of a non-negative Go int: its decimal digits, without leading zeros. */
  function Decimal(n: nat): (s: string)
    ensures |s| >= 1
    ensures forall i | 0 <= i < |s| :: '0' <= s[i] <= '9'
    ensures s[0] == '0' ==> n == 0
  {
    if n < 10 then [('0' as int + n) as char]
    else Decimal(n / 10) + [('0' as int + n % 10) as char]
  }

  /** The number a string of decimal digits denotes, read most significant digit first. */
  function DigitsValue(s: string): int
    decreases |s|
  {
    if s == [] then 0 else 10 * DigitsValue(s[..|s| - 1]) + (s[|s| - 1] as int - '0' as int)
  }

  /** The digits `Decimal` writes denote the number formatted. */
  lemma {:induction false} DecimalValue(n: nat)
    ensures DigitsValue(Decimal(n)) == n
  {
    if n >= 10 {
      var s := Decimal(n);
      assert s[..|s| - 1] == Decimal(n / 10);
      DecimalValue(n / 10);
    }
  }

  /** The bytes of an ASCII string, as Go's `[]byte(s)` gives them. */
  function AsciiBytes(s: string): (b: seq<byte>)
    requires forall i | 0 <= i < |s| :: s[i] as int < 128
    ensures |b| == |s|
    ensures forall i | 0 <= i < |s| :: b[i] == s[i] as int
  {
    seq(|s|, i requires 0 <= i < |s| => s[i] as int)
  }
}
