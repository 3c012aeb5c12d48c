/** What every part of the model needs from Go and from github.com/pkg/errors:
    a nil-able value, an error value that carries its message, `errors.Wrap`,
    the `%q` and `%d` verbs of package fmt, and `os.Getenv`. */
module Base {

  /** A Go pointer or interface that may be nil. */
  datatype Option<+T> = None | Some(value: T)

  /** A Go `(value, error)` pair in which exactly one side is set. */
  datatype Result<+T> = Ok(value: T) | Err(error: Error)

  /** A Go `error`; only its `Error()` text is observable. */
  datatype Error = Error(msg: string)

  /** `errors.Wrap(cause, annotation)`: its text is the annotation, a colon, a space and the cause's text. */
  function Wrap(cause: Error, annotation: string): Error
  {
    Error(annotation + ": " + cause.msg)
  }

  /** The cause of an error wrapped with `annotation`, or None when the text does not carry that annotation. */
  function Unwrap(e: Error, annotation: string): Option<Error>
  {
    var head := annotation + ": ";
    if HasPrefix(e.msg, head) then Some(Error(e.msg[|head|..])) else None
  }

  /** Unwrapping with the annotation used for wrapping gives back the cause. */
  lemma UnwrapWrap(cause: Error, annotation: string)
    ensures Unwrap(Wrap(cause, annotation), annotation) == Some(cause)
  {
    var head := annotation + ": ";
    assert Wrap(cause, annotation).msg == head + cause.msg;
    assert (head + cause.msg)[..|head|] == head;
    assert (head + cause.msg)[|head|..] == cause.msg;
  }

  predicate HasPrefix(s: string, prefix: string)
  {
    |prefix| <= |s| && s[..|prefix|] == prefix
  }

  /** The `%q` verb on a string, without Go's escaping of special characters. */
  function Quote(s: string): string
  {
    "\"" + s + "\""
  }

  /** `os.Getenv`: an unset variable reads as the empty string. */
  function Getenv(env: map<string, string>, key: string): string
  {
    if key in env then env[key] else ""
  }

  predicate IsDigit(c: char)
  {
    '0' <= c <= '9'
  }

  predicate AllDigits(s: string)
  {
    forall i :: 0 <= i < |s| ==> IsDigit(s[i])
  }

  function DigitChar(d: nat): (c: char)
    requires d < 10
    ensures IsDigit(c) && c as int - '0' as int == d
  {
    ('0' as int + d) as char
  }

  /** The `%d` verb on a non-negative integer: its decimal digits, most significant first. */
  function Decimal(n: nat): (s: string)
    ensures |s| > 0 && AllDigits(s)
    ensures n < 10 <==> |s| == 1
    decreases n
  {
    if n < 10 then [DigitChar(n)] else Decimal(n / 10) + [DigitChar(n % 10)]
  }

  /** Reads a string of decimal digits back as a number. */
  function ParseDecimal(s: string): nat
    requires AllDigits(s)
  {
    if s == [] then 0 else 10 * ParseDecimal(s[..|s| - 1]) + (s[|s| - 1] as int - '0' as int)
  }

  /** Reading back what `%d` printed gives the number printed. */
  lemma {:induction false} ParseDecimalOfDecimal(n: nat)
    ensures ParseDecimal(Decimal(n)) == n
  {
    if n >= 10 {
      var s := Decimal(n);
      assert s[..|s| - 1] == Decimal(n / 10);
      ParseDecimalOfDecimal(n / 10);
    }
  }

  /** Different numbers print differently. */
  lemma DecimalInjective(m: nat, n: nat)
    requires m != n
    ensures Decimal(m) != Decimal(n)
  {
    ParseDecimalOfDecimal(m);
    ParseDecimalOfDecimal(n);
  }
}
