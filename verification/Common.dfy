/** Shared vocabulary of the models. */
module Common {

  /** A nullable column or an optional argument. */
  datatype Option<+T> = None | Some(value: T) {
    function GetOr(default: T): T {
      match this
      case None => default
      case Some(v) => v
    }
  }

  /** What a service call answers: its value, or the error the caller is shown. */
  datatype Result<+T, +E> = Ok(value: T) | Err(error: E)

  predicate IsDigit(c: char) {
    '0' <= c <= '9'
  }

  lemma TheTenDigits(c: char)
    ensures IsDigit(c) <==> c in "0123456789"
  {
    var digits := "0123456789";
    if IsDigit(c) { assert digits[c as int - '0' as int] == c; }
  }

  /** The length of a text as the source counts it: in UTF-16 units, two for a character past the first plane. */
  function Utf16Length(s: string): (n: nat)
    ensures |s| <= n <= 2 * |s|
  {
    if s == "" then 0
    else Utf16Length(s[..|s| - 1]) + if s[|s| - 1] as int >= 0x1_0000 then 2 else 1
  }

  /** A number above all of [ids], for an id that was never given. */
  lemma Unused(ids: set<nat>) returns (a: nat)
    ensures a !in ids && forall i | i in ids :: i < a
  {
    a := 0;
    var left := ids;
    while left != {}
      invariant left <= ids && forall i | i in ids && i !in left :: i < a
      decreases left
    {
      var i :| i in left;
      if i >= a { a := i + 1; }
      left := left - {i};
    }
  }
}
