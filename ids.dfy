/**
  * Identifier generation for orders and payments: a fixed prefix followed by
  * sixteen characters drawn from a 62-character alphanumeric alphabet, and the
  * regenerate-until-unused loop that order creation runs against the store.
  */
module Ids {
  import opened Random
  import Validation

  const Uppercase: string := "ABCDEFGHIJKLMNOPQRSTUVWXYZ"
  const Lowercase: string := "abcdefghijklmnopqrstuvwxyz"
  const DecimalDigits: string := "0123456789"

  /** The generators' `chars`: upper-case letters, lower-case letters, then digits. */
  const Alphabet: string := Uppercase + Lowercase + DecimalDigits

  /** How many random characters follow the prefix. */
  const RandomLength: nat := 16

  const OrderPrefix: string := "order_"
  const PaymentPrefix: string := "pay_"

  /** `chars.charAt(Math.floor(Math.random() * chars.length))`. */
  function DrawChar(u: Unit): char
  {
    Alphabet[Scale(u, |Alphabet|)]
  }

  /** The characters drawn, one per random value, in order. */
  function Drawn(draws: seq<Unit>): (r: string)
    ensures |r| == |draws|
  {
    if |draws| == 0 then [] else Drawn(draws[..|draws| - 1]) + [DrawChar(draws[|draws| - 1])]
  }

  /** The i-th drawn character comes from the i-th draw. */
  lemma {:induction false} DrawnAt(draws: seq<Unit>, i: nat)
    requires i < |draws|
    ensures Drawn(draws)[i] == DrawChar(draws[i])
  {
    if i < |draws| - 1 {
      DrawnAt(draws[..|draws| - 1], i);
    }
  }

  /** The identifier the generator builds from the prefix and one draw per character. */
  function IdFrom(prefix: string, draws: seq<Unit>): string
  {
    prefix + Drawn(draws)
  }

  /** An identifier of the generators' shape: the prefix, then sixteen ASCII letters or digits. */
  predicate IsGeneratedId(prefix: string, id: string)
  {
    && |id| == |prefix| + RandomLength
    && id[..|prefix|] == prefix
    && forall i :: |prefix| <= i < |id| ==> Validation.IsAsciiAlnum(id[i])
  }

  /**
    * The alphabet holds 62 distinct characters and they are exactly the ASCII
    * letters and digits.
    */
  lemma AlphabetIsAlphanumeric()
    ensures |Alphabet| == 62
    ensures forall i, j :: 0 <= i < j < |Alphabet| ==> Alphabet[i] != Alphabet[j]
    ensures forall c :: c in Alphabet <==> Validation.IsAsciiAlnum(c)
  {
    AlphabetCodes();
    forall c | Validation.IsAsciiAlnum(c) ensures c in Alphabet {
      var i := AlphabetIndex(c);
      assert Alphabet[i] as int == c as int;
    }
  }

  /** The i-th alphabet character has code point `AlphabetCode(i)`. */
  lemma AlphabetCodes()
    ensures |Alphabet| == 62
    ensures forall i :: 0 <= i < 62 ==> Alphabet[i] as int == AlphabetCode(i)
  {
    assert forall i :: 0 <= i < 26 ==> Uppercase[i] as int == 'A' as int + i;
    assert forall i :: 0 <= i < 26 ==> Lowercase[i] as int == 'a' as int + i;
    assert forall i :: 0 <= i < 10 ==> DecimalDigits[i] as int == '0' as int + i;
    forall i | 0 <= i < 62
      ensures Alphabet[i] as int == AlphabetCode(i)
    {
      if i < 26 {
        assert Alphabet[i] == Uppercase[i];
      } else if i < 52 {
        assert Alphabet[i] == Lowercase[i - 26];
      } else {
        assert Alphabet[i] == DecimalDigits[i - 52];
      }
    }
  }

  /** The code point of the i-th alphabet character. */
  function AlphabetCode(i: int): int
  {
    if i < 26 then 'A' as int + i
    else if i < 52 then 'a' as int + (i - 26)
    else '0' as int + (i - 52)
  }

  /** With sixteen draws, the generator's output has the generated-id shape. */
  lemma IdFromShape(prefix: string, draws: seq<Unit>)
    requires |draws| == RandomLength
    ensures IsGeneratedId(prefix, IdFrom(prefix, draws))
  {
    var id := IdFrom(prefix, draws);
    assert id[..|prefix|] == prefix;
    forall i | |prefix| <= i < |id| ensures Validation.IsAsciiAlnum(id[i]) {
      DrawnAt(draws, i - |prefix|);
      DrawCharIsAlnum(draws[i - |prefix|]);
    }
  }

  /** Every drawn character is an ASCII letter or digit. */
  lemma DrawCharIsAlnum(u: Unit)
    ensures Validation.IsAsciiAlnum(DrawChar(u))
  {
    AlphabetIsAlphanumeric();
    var k := Scale(u, |Alphabet|);
    assert Alphabet[k] in Alphabet;
  }

  /**
    * Every identifier of the generated shape can come out of the generator:
    * some sixteen draws produce it.
    */
  lemma EveryShapedIdIsReachable(prefix: string, id: string)
    requires IsGeneratedId(prefix, id)
    ensures exists draws: seq<Unit> :: |draws| == RandomLength && IdFrom(prefix, draws) == id
  {
    var tail := id[|prefix|..];
    var draws := DrawsFor(tail);
    forall i | 0 <= i < |tail| ensures Drawn(draws)[i] == tail[i] {
      DrawnAt(draws, i);
    }
    assert Drawn(draws) == tail;
    assert id == id[..|prefix|] + tail;
  }

  /** Draws that make the generator spell out `cs`, one per character. */
  function DrawsFor(cs: string): (draws: seq<Unit>)
    requires forall i :: 0 <= i < |cs| ==> Validation.IsAsciiAlnum(cs[i])
    ensures |draws| == |cs|
    ensures forall i :: 0 <= i < |cs| ==> DrawChar(draws[i]) == cs[i]
  {
    if |cs| == 0 then [] else [DrawFor(cs[0])] + DrawsFor(cs[1..])
  }

  /** The alphabet index of an ASCII letter or digit. */
  function AlphabetIndex(c: char): (k: nat)
    requires Validation.IsAsciiAlnum(c)
    ensures k < 62 && AlphabetCode(k) == c as int
  {
    if 'A' <= c <= 'Z' then c as int - 'A' as int
    else if 'a' <= c <= 'z' then c as int - 'a' as int + 26
    else c as int - '0' as int + 52
  }

  /** A draw that makes the generator pick `c`: its alphabet index over 62. */
  function DrawFor(c: char): (u: Unit)
    requires Validation.IsAsciiAlnum(c)
    ensures DrawChar(u) == c
  {
    AlphabetCodes();
    var k := AlphabetIndex(c);
    var u: Unit := k as real / 62.0;
    assert u * 62.0 == k as real;
    assert Scale(u, 62) == k;
    u
  }

  /**
    * `generateOrderId` / `generatePaymentId`: appends one drawn character per
    * iteration to the prefix.
    */
  method GenerateId(prefix: string, draws: seq<Unit>) returns (id: string)
    requires |draws| == RandomLength
    ensures id == IdFrom(prefix, draws)
    ensures IsGeneratedId(prefix, id)
  {
    id := prefix;
    for i := 0 to RandomLength
      invariant id == prefix + Drawn(draws[..i])
    {
      assert draws[..i + 1][..i] == draws[..i];
      id := id + [DrawChar(draws[i])];
    }
    assert draws[..RandomLength] == draws;
    IdFromShape(prefix, draws);
  }

  /**
    * The index of the first attempt whose identifier is not in `used`: the
    * attempt the regenerate loop stops at.
    */
  function FirstUnused(prefix: string, used: set<string>, attempts: seq<seq<Unit>>): (k: nat)
    requires exists j :: 0 <= j < |attempts| && IdFrom(prefix, attempts[j]) !in used
    ensures k < |attempts| && IdFrom(prefix, attempts[k]) !in used
    ensures forall j :: 0 <= j < k ==> IdFrom(prefix, attempts[j]) in used
  {
    if IdFrom(prefix, attempts[0]) !in used then 0
    else
      var j :| 0 <= j < |attempts| && IdFrom(prefix, attempts[j]) !in used;
      assert IdFrom(prefix, attempts[1..][j - 1]) !in used;
      1 + FirstUnused(prefix, used, attempts[1..])
  }

  /**
    * The order-id collision loop: generate, and regenerate while the store
    * already holds the identifier. Each attempt consumes one entry of
    * `attempts`; the loop ends at the first unused identifier, which the
    * precondition says the random source eventually yields.
    */
  method GenerateUnusedId(prefix: string, used: set<string>, attempts: seq<seq<Unit>>) returns (id: string)
    requires forall a :: a in attempts ==> |a| == RandomLength
    requires exists j :: 0 <= j < |attempts| && IdFrom(prefix, attempts[j]) !in used
    ensures id == IdFrom(prefix, attempts[FirstUnused(prefix, used, attempts)])
    ensures id !in used && IsGeneratedId(prefix, id)
  {
    var k := 0;
    id := GenerateId(prefix, attempts[0]);
    var taken := id in used;
    while taken
      invariant 0 <= k < |attempts|
      invariant id == IdFrom(prefix, attempts[k])
      invariant taken == (id in used)
      invariant forall j :: 0 <= j < k ==> IdFrom(prefix, attempts[j]) in used
      decreases |attempts| - k
    {
      k := k + 1;
      id := GenerateId(prefix, attempts[k]);
      taken := id in used;
    }
    FirstUnusedIs(prefix, used, attempts, k);
    IdFromShape(prefix, attempts[k]);
  }

  /** The first unused attempt is the one before which every attempt was used. */
  lemma FirstUnusedIs(prefix: string, used: set<string>, attempts: seq<seq<Unit>>, k: nat)
    requires k < |attempts| && IdFrom(prefix, attempts[k]) !in used
    requires forall j :: 0 <= j < k ==> IdFrom(prefix, attempts[j]) in used
    ensures FirstUnused(prefix, used, attempts) == k
  {
  }
}
