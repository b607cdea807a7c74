/**
 * The supplier of fresh identifiers that stands in for `uuid/v4`.
 *
 * `getSessionId` draws a random 128-bit identifier and relies on it never having
 * been seen before. The model replaces randomness by a counter: the n-th
 * identifier handed out is the lower-case hexadecimal spelling of n, and the
 * generator keeps the set of identifiers it has issued so that freshness can
 * be stated and proved.
 */
module Uuid {

  const HexDigits: string := "0123456789abcdef"

  /** The hexadecimal digit for a value below 16. */
  function Digit(d: nat): (c: char)
    requires d < 16
    ensures c in HexDigits
  {
    HexDigits[d]
  }

  /** Two values below 16 have the same digit only when they are equal. */
  lemma DigitInjective(a: nat, b: nat)
    requires a < 16 && b < 16
    requires Digit(a) == Digit(b)
    ensures a == b
  {
  }

  /** The hexadecimal spelling of `n`, most significant digit first, without leading zeros. */
  function Hex(n: nat): (s: string)
    ensures 1 <= |s|
    ensures n < 16 <==> |s| == 1
    ensures forall i :: 0 <= i < |s| ==> s[i] in HexDigits
  {
    if n < 16 then [Digit(n)] else Hex(n / 16) + [Digit(n % 16)]
  }

  /** Distinct counters give distinct identifiers. */
  lemma {:induction false} HexInjective(a: nat, b: nat)
    requires Hex(a) == Hex(b)
    ensures a == b
  {
    if a < 16 || b < 16 {
      assert a < 16 && b < 16;
      assert Hex(a)[0] == Hex(b)[0];
      DigitInjective(a, b);
    } else {
      var sa, sb := Hex(a), Hex(b);
      assert sa[|sa| - 1] == Digit(a % 16) && sb[|sb| - 1] == Digit(b % 16);
      DigitInjective(a % 16, b % 16);
      assert sa[..|sa| - 1] == Hex(a / 16);
      assert sb[..|sb| - 1] == Hex(b / 16);
      HexInjective(a / 16, b / 16);
    }
  }

  /** The identifiers handed out by a generator whose counter stands at `n`. */
  ghost function Issued(n: nat): set<string>
  {
    set i: nat | i < n :: Hex(i)
  }

  /** An identifier drawn at or after counter `n` has not been handed out before `n`. */
  lemma FreshAt(n: nat, k: nat)
    ensures Hex(n + k) !in Issued(n)
  {
    forall i: nat | i < n
      ensures Hex(i) != Hex(n + k)
    {
      if Hex(i) == Hex(n + k) {
        HexInjective(i, n + k);
      }
    }
  }

  /** A source of identifiers, each different from every one it handed out before. */
  class IdGenerator {
    var counter: nat
    ghost var issued: set<string>

    ghost predicate Valid()
      reads this
    {
      issued == Issued(counter)
    }

    constructor ()
      ensures Valid() && issued == {} && counter == 0
    {
      counter := 0;
      issued := {};
    }

    /** The identifier the k-th next draw will yield (k = 0 is the very next one). */
    function Peek(k: nat): (id: string)
      reads this
      ensures id != ""
    {
      Hex(counter + k)
    }

    /** Every identifier still to come is fresh, and the next two differ. */
    lemma UpcomingAreFresh(k: nat)
      requires Valid()
      ensures Peek(k) !in issued
      ensures Peek(0) != Peek(1)
    {
      FreshAt(counter, k);
      if Peek(0) == Peek(1) {
        HexInjective(counter, counter + 1);
      }
    }

    /** Draws a new identifier (the `uuid()` call). */
    method Next() returns (id: string)
      requires Valid()
      modifies this
      ensures Valid()
      ensures id == old(Peek(0)) && id != ""
      ensures id !in old(issued) && issued == old(issued) + {id}
      ensures counter == old(counter) + 1
    {
      UpcomingAreFresh(0);
      id := Hex(counter);
      issued := issued + {id};
      counter := counter + 1;
      assert issued == Issued(counter) by {
        forall s | s in Issued(counter) ensures s in issued {
          var i: nat :| i < counter && s == Hex(i);
          if i < counter - 1 { assert s in Issued(counter - 1); }
        }
      }
    }
  }
}
