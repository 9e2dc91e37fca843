/** JSON values, with the canonical text of ids and instants. */
module JsonValue {

  datatype Option<+T> = None | Some(value: T)

  datatype Json =
    | Null
    | Bool(b: bool)
    | Num(n: int)
    | Str(s: string)
    | Arr(items: seq<Json>)
    | Obj(fields: map<string, Json>)

  const NUL: char := '\0'

  ghost predicate NulFree(s: string) {
    NUL !in s
  }

  // ── Canonical text of natural numbers ─────────────────────────────
  // Ids and instants travel as text; decimal digits stand for their
  // canonical notation. What matters is that it parses back and holds no NUL.

  const DIGITS := "0123456789"

  function Text(n: nat): string {
    (if n < 10 then "" else Text(n / 10)) + [DIGITS[n % 10]]
  }

  function DigitOf(c: char): Option<nat> {
    if '0' <= c <= '9' then Some((c - '0') as nat) else None
  }

  function Parse(s: string): Option<nat> {
    if s == "" then None
    else
      var digit := DigitOf(s[|s| - 1]);
      if digit.None? then None
      else if |s| == 1 then digit
      else
        var front := Parse(s[..|s| - 1]);
        if front.None? then None else Some(10 * front.value + digit.value)
  }

  lemma {:induction false} TextRoundTrips(n: nat)
    ensures NulFree(Text(n)) && Text(n) != "" && Parse(Text(n)) == Some(n)
  {
    if n >= 10 {
      TextRoundTrips(n / 10);
      assert Text(n)[..|Text(n)| - 1] == Text(n / 10);
    }
  }
}
