/** Length validation of form inputs (user names, passwords). */
module StringParsing {
  import opened Outcomes
  import Decimal

  const MIN_USERNAME_LENGTH: int := 4
  const MIN_PASSWORD_LENGTH: int := 8
  const MAX_USERNAME_LENGTH: int := 16
  const MAX_PASSWORD_LENGTH: int := 64

  /** Python truthiness of an optional string: `None` and `""` are falsy. */
  predicate Present(input: Option<string>) {
    input.Some? && input.value != ""
  }

  function RequiredMessage(name: string): string {
    name + " is required!"
  }

  function Bounds(minLen: int, maxLen: int): string {
    Decimal.IntToString(minLen) + " - " + Decimal.IntToString(maxLen)
  }

  function TooShortMessage(name: string, minLen: int, maxLen: int): string {
    name + " is too short; must be between: " + Bounds(minLen, maxLen)
  }

  function TooLongMessage(name: string, minLen: int, maxLen: int): string {
    name + " is too long; must be between: " + Bounds(minLen, maxLen)
  }

  /**
   * The ordered checks of the validator: absent first, then too short, then
   * too long.  `None` means the input is acceptable.
   */
  function ValidateStrInputLen(input: Option<string>, minLen: int, maxLen: int, name: string): (r: Option<string>)
    ensures !Present(input) ==> r == Some(RequiredMessage(name))
    ensures Present(input) && |input.value| < minLen ==> r == Some(TooShortMessage(name, minLen, maxLen))
    ensures (Present(input) && minLen <= |input.value| && |input.value| > maxLen)
            ==> r == Some(TooLongMessage(name, minLen, maxLen))
    ensures r == None <==> Present(input) && minLen <= |input.value| <= maxLen
  {
    if !Present(input) then Some(RequiredMessage(name))
    else if |input.value| < minLen then Some(TooShortMessage(name, minLen, maxLen))
    else if |input.value| > maxLen then Some(TooLongMessage(name, minLen, maxLen))
    else None
  }

  function ValidateStrUsername(username: Option<string>): (r: Option<string>)
    ensures r == None <==> Present(username) && 4 <= |username.value| <= 16
    ensures r.Some? ==> r.value == RequiredMessage("user name")
                        || r.value == TooShortMessage("user name", 4, 16)
                        || r.value == TooLongMessage("user name", 4, 16)
  {
    ValidateStrInputLen(username, MIN_USERNAME_LENGTH, MAX_USERNAME_LENGTH, "user name")
  }

  function ValidateStrPassword(password: Option<string>): (r: Option<string>)
    ensures r == None <==> Present(password) && 8 <= |password.value| <= 64
    ensures r.Some? ==> r.value == RequiredMessage("password")
                        || r.value == TooShortMessage("password", 8, 64)
                        || r.value == TooLongMessage("password", 8, 64)
  {
    ValidateStrInputLen(password, MIN_PASSWORD_LENGTH, MAX_PASSWORD_LENGTH, "password")
  }

  /**
   * The three messages are told apart by the characters after the name, so
   * a caller can recover which check failed from the message alone.
   */
  lemma MessagesDistinct(name: string, minLen: int, maxLen: int)
    ensures RequiredMessage(name) != TooShortMessage(name, minLen, maxLen)
    ensures RequiredMessage(name) != TooLongMessage(name, minLen, maxLen)
    ensures TooShortMessage(name, minLen, maxLen) != TooLongMessage(name, minLen, maxLen)
  {
    var k := |name|;
    assert RequiredMessage(name)[k + 4] == 'r';
    assert TooShortMessage(name, minLen, maxLen)[k + 4] == 't';
    assert TooShortMessage(name, minLen, maxLen)[k + 8] == 's';
    assert TooLongMessage(name, minLen, maxLen)[k + 4] == 't';
    assert TooLongMessage(name, minLen, maxLen)[k + 8] == 'l';
  }

  /** The bounds quoted in a "too short" message determine the bounds checked. */
  lemma TooShortQuotesBounds(name: string, min1: int, max1: int, min2: int, max2: int)
    requires TooShortMessage(name, min1, max1) == TooShortMessage(name, min2, max2)
    ensures min1 == min2 && max1 == max2
  {
    var p := name + " is too short; must be between: ";
    assert TooShortMessage(name, min1, max1) == p + Bounds(min1, max1);
    assert TooShortMessage(name, min2, max2) == p + Bounds(min2, max2);
    assert Bounds(min1, max1) == Bounds(min2, max2) by {
      assert Bounds(min1, max1) == TooShortMessage(name, min1, max1)[|p|..];
      assert Bounds(min2, max2) == TooShortMessage(name, min2, max2)[|p|..];
    }
    BoundsInjective(min1, max1, min2, max2);
  }

  lemma BoundsInjective(min1: int, max1: int, min2: int, max2: int)
    requires Bounds(min1, max1) == Bounds(min2, max2)
    ensures min1 == min2 && max1 == max2
  {
    // "<min> - <max>": the first " - " separates the two numbers, because
    // neither rendering contains a space.
    var a1, b1 := Decimal.IntToString(min1), Decimal.IntToString(max1);
    var a2, b2 := Decimal.IntToString(min2), Decimal.IntToString(max2);
    NoSpace(min1); NoSpace(min2);
    if |a1| < |a2| {
      SeparatorAt(a1, b1, a2, b2);
      assert false;
    } else if |a2| < |a1| {
      SeparatorAt(a2, b2, a1, b1);
      assert false;
    }
    assert a1 == Bounds(min1, max1)[..|a1|];
    assert a2 == Bounds(min2, max2)[..|a2|];
    assert b1 == Bounds(min1, max1)[|a1| + 3..];
    assert b2 == Bounds(min2, max2)[|a2| + 3..];
    IntToStringInjective(min1, min2);
    IntToStringInjective(max1, max2);
  }

  /** Where the shorter left operand ends, the two spellings hold different characters. */
  lemma SeparatorAt(a: string, b: string, c: string, d: string)
    ensures |a| < |c| ==> (a + " - " + b)[|a|] == ' ' && (c + " - " + d)[|a|] == c[|a|]
  {
  }

  lemma NoSpace(i: int)
    ensures forall k :: 0 <= k < |Decimal.IntToString(i)| ==> Decimal.IntToString(i)[k] != ' '
  {
    if i < 0 {
      assert Decimal.IntToString(i) == "-" + Decimal.NatToString(-i);
    }
  }

  lemma IntToStringInjective(i: int, j: int)
    requires Decimal.IntToString(i) == Decimal.IntToString(j)
    ensures i == j
  {
    var s := Decimal.IntToString(i);
    if i < 0 {
      assert j < 0;
      assert Decimal.NatToString(-i) == s[1..] == Decimal.NatToString(-j);
      Decimal.NatToStringInjective(-i, -j);
    } else {
      assert j >= 0;
      Decimal.NatToStringInjective(i, j);
    }
  }
}
