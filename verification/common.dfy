/** Values shared by every part of the model: optional values, route replies,
    calendar instants and the few string operations the application relies on. */
module Common {

  datatype Option<T> = None | Some(value: T) {
    function GetOr(default: T): T {
      match this
      case Some(v) => v
      case None => default
    }
  }

  /** What an API route answers: status 400, status 404, status 500, or success with a body. */
  datatype Reply<T> = BadRequest | NotFound | ServerError | Ok(body: T)

  /** A JSON body field that should hold an amount: absent, a JSON number (in cents),
      or a string, together with the cents a route reads from it with `parseFloat`
      or `Number`. */
  datatype AmountField = Missing | Number(value: int) | Text(raw: string, value: int)

  /** JavaScript truthiness of the field: 0 and the empty string are false. */
  predicate Truthy(a: AmountField) {
    match a
    case Missing => false
    case Number(v) => v != 0
    case Text(raw, _) => raw != ""
  }

  const DayMs: int := 86400000

  /** An instant as the JavaScript Date getters report it: getFullYear(),
      getMonth() (0 = January), getDate() (1..31) and the milliseconds since midnight. */
  datatype Date = Date(year: int, month: int, day: int, ms: int)

  predicate ValidDate(d: Date) {
    0 <= d.month < 12 && 1 <= d.day <= 31 && 0 <= d.ms < DayMs
  }

  /** Stand-in for Date.getTime(): a number that orders instants chronologically.
      It gives every month 32 days, which changes no comparison between valid dates. */
  function Stamp(d: Date): int {
    ((d.year * 12 + d.month) * 32 + d.day) * DayMs + d.ms
  }

  /** Lexicographic (year, month, day, ms) order: the chronological order of valid dates. */
  predicate Earlier(a: Date, b: Date) {
    a.year < b.year
    || (a.year == b.year && a.month < b.month)
    || (a.year == b.year && a.month == b.month && a.day < b.day)
    || (a.year == b.year && a.month == b.month && a.day == b.day && a.ms < b.ms)
  }

  /** Stamp agrees with the calendar: comparing stamps is comparing dates. */
  lemma StampChronological(a: Date, b: Date)
    requires ValidDate(a) && ValidDate(b)
    ensures Earlier(a, b) <==> Stamp(a) < Stamp(b)
    ensures Stamp(a) == Stamp(b) <==> a == b
  {
    var ma, mb := a.year * 12 + a.month, b.year * 12 + b.month;
    assert a.year < b.year ==> ma < mb;
    assert a.year > b.year ==> ma > mb;
    var da, db := ma * 32 + a.day, mb * 32 + b.day;
    assert ma < mb ==> da < db;
    assert ma > mb ==> da > db;
    assert da < db ==> Stamp(a) < Stamp(b);
    assert da > db ==> Stamp(a) > Stamp(b);
  }

  /** String.prototype.toLowerCase on the ASCII letters. */
  function LowerChar(c: char): char {
    if 'A' <= c <= 'Z' then (c as int + 32) as char else c
  }

  /** Each ASCII capital becomes its small letter; every other character is kept. */
  function Lower(s: string): (r: string)
    ensures |r| == |s|
    ensures forall i :: 0 <= i < |s| && 'A' <= s[i] <= 'Z' ==> r[i] as int == s[i] as int + 32
    ensures forall i :: 0 <= i < |s| && !('A' <= s[i] <= 'Z') ==> r[i] == s[i]
    ensures forall i :: 0 <= i < |r| ==> !('A' <= r[i] <= 'Z')
  {
    seq(|s|, i requires 0 <= i < |s| => LowerChar(s[i]))
  }

  /** Lowering a lowered string changes nothing. */
  lemma LowerIdempotent(s: string)
    ensures Lower(Lower(s)) == Lower(s)
  {
  }

  /** String.prototype.includes: `q` occurs in `s` at some position. */
  predicate Contains(s: string, q: string)
    decreases |s|
  {
    |q| <= |s| && (s[..|q|] == q || Contains(s[1..], q))
  }

  function DigitChar(d: int): char
    requires 0 <= d < 10
  {
    ('0' as int + d) as char
  }

  function NatToString(n: nat): string
  {
    if n < 10 then [DigitChar(n)] else NatToString(n / 10) + [DigitChar(n % 10)]
  }

  /** Number.prototype.toString of an amount held in cents: the integer part,
      then a fraction only when it is not zero, without trailing zeros. */
  function AmountString(cents: int): string {
    var m := if cents < 0 then -cents else cents;
    var whole := NatToString(m / 100);
    var frac := m % 100;
    var digits :=
      if frac == 0 then whole
      else if frac % 10 == 0 then whole + "." + [DigitChar(frac / 10)]
      else whole + "." + [DigitChar(frac / 10), DigitChar(frac % 10)];
    if cents < 0 then "-" + digits else digits
  }
}
