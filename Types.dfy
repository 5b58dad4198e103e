/** Values shared by the session and the task form: the records the REST API
    returns, a request/response shape for the shared HTTP client, and the
    decimal rendering JavaScript uses when a number is spliced into a
    template literal. */
module Types {

  datatype Option<T> = None | Some(value: T) {
    function GetOr(default: T): T {
      match this
      case Some(v) => v
      case None => default
    }
  }

  /** The outcome of one awaited HTTP call: the resolved body, or a rejection. */
  datatype Response<T> = Success(data: T) | Failure

  /** The current user as returned by GET /users/me/. */
  datatype User = User(username: string, email: string, firstName: string, lastName: string)

  /** The three task states the backend knows. */
  datatype TaskStatus = Pending | Completed | Archived

  /** A task as received from the backend; nullable fields are options. */
  datatype Task = Task(
    id: int,
    title: string,
    description: Option<string>,
    status: TaskStatus,
    dueDate: Option<string>,
    createdAt: string,
    updatedAt: string,
    owner: string)

  /** The body sent by the task form on save; `dueDate == None` is JSON null. */
  datatype TaskPayload = TaskPayload(title: string, description: string, status: TaskStatus, dueDate: Option<string>)

  datatype Method = Get | Post | Patch

  datatype Body =
    | NoBody
    | TokenRequest(username: string, password: string)
    | TaskBody(payload: TaskPayload)

  /** One request as it leaves the shared client, with the default
      Authorization header it carried at that moment. */
  datatype ApiCall = ApiCall(verb: Method, path: string, body: Body, authorization: Option<string>)

  predicate IsDigit(c: char) {
    '0' <= c <= '9'
  }

  function DigitChar(d: nat): (c: char)
    requires d < 10
    ensures IsDigit(c)
  {
    (('0' as int) + d) as char
  }

  function DigitValue(c: char): (d: nat)
    requires IsDigit(c)
    ensures d < 10 && DigitChar(d) == c
  {
    (c as int) - ('0' as int)
  }

  predicate AllDigits(s: string) {
    forall i :: 0 <= i < |s| ==> IsDigit(s[i])
  }

  /** The number a string of decimal digits denotes, read most significant
      digit first: a left fold of `10 * acc + digit`. */
  function DigitsValue(s: string): nat
    requires AllDigits(s)
    decreases |s|
  {
    if s == [] then 0 else 10 * DigitsValue(s[..|s| - 1]) + DigitValue(s[|s| - 1])
  }

  /** Decimal digits of a natural number, most significant first, without
      leading zeros. */
  function NatDecimal(n: nat): (r: string)
    ensures |r| >= 1 && AllDigits(r)
    ensures DigitsValue(r) == n
    ensures n >= 10 ==> r[0] != '0'
    ensures (|r| == 1) == (n < 10)
    decreases n
  {
    if n < 10 then
      [DigitChar(n)]
    else
      var prefix := NatDecimal(n / 10);
      var r := prefix + [DigitChar(n % 10)];
      assert r[..|r| - 1] == prefix;
      r
  }

  /** How `${n}` renders an integer: a minus sign exactly for negatives,
      then the decimal digits of its magnitude. */
  function Decimal(n: int): (r: string)
    ensures |r| >= 1
    ensures (r[0] == '-') == (n < 0)
    ensures n < 0 ==> AllDigits(r[1..]) && DigitsValue(r[1..]) == -n
    ensures n >= 0 ==> AllDigits(r) && DigitsValue(r) == n
    // no leading zero: only 0 itself starts with the digit '0'
    ensures n < 0 ==> |r| >= 2 && r[1] != '0'
    ensures n >= 0 ==> (r[0] == '0') == (n == 0)
    ensures n == 0 ==> r == "0"
  {
    if n < 0 then
      var digits := NatDecimal(-n);
      assert ("-" + digits)[1..] == digits;
      "-" + digits
    else
      NatDecimal(n)
  }

  /** Two different numbers never render alike. */
  lemma DecimalInjective(a: int, b: int)
    requires Decimal(a) == Decimal(b)
    ensures a == b
  {
  }

}
