/**
 * generateOTP: a string of `n` decimal digits, each picked by one call of
 * Math.random. The random source is an oracle: `draws[i]` is the value the
 * i-th call returns.
 */
module CodeGenerator {

  const Digits: string := "0123456789"

  predicate IsDigit(c: char) {
    '0' <= c <= '9'
  }

  /** What Math.random promises of each value it returns: it lies in [0, 1). */
  predicate IsDraw(r: real) {
    0.0 <= r < 1.0
  }

  predicate AreDraws(draws: seq<real>) {
    forall i :: 0 <= i < |draws| ==> IsDraw(draws[i])
  }

  /** Math.floor(Math.random() * digits.length): always a valid index of `Digits`. */
  function DigitIndex(r: real): (k: int)
    requires IsDraw(r)
    ensures 0 <= k < |Digits|
  {
    (r * (|Digits| as real)).Floor
  }

  /** The digit one draw selects. */
  function DigitOf(r: real): (c: char)
    requires IsDraw(r)
    ensures IsDigit(c)
  {
    Digits[DigitIndex(r)]
  }

  /** The code made from `draws`, one digit per draw, in the order of the draws. */
  function Code(draws: seq<real>): (otp: string)
    requires AreDraws(draws)
    ensures |otp| == |draws|
    ensures forall i :: 0 <= i < |otp| ==> IsDigit(otp[i])
  {
    if draws == [] then "" else Code(draws[..|draws| - 1]) + [DigitOf(draws[|draws| - 1])]
  }

  /** The i-th character of a code is decided by the i-th draw alone. */
  lemma {:induction false} CodeAt(draws: seq<real>, i: nat)
    requires AreDraws(draws) && i < |draws|
    ensures Code(draws)[i] == DigitOf(draws[i])
  {
    if i < |draws| - 1 {
      CodeAt(draws[..|draws| - 1], i);
    }
  }

  /**
   * The loop of generateOTP. For n <= 0 it does not run and the code is "";
   * otherwise the code has exactly n characters, all digits, and each one was
   * appended from its own draw and never changed afterwards.
   */
  method GenerateOtp(n: int, draws: seq<real>) returns (otp: string)
    requires AreDraws(draws) && n <= |draws|
    ensures n <= 0 ==> otp == ""
    ensures n >= 0 ==> |otp| == n
    ensures forall i :: 0 <= i < |otp| ==> IsDigit(otp[i])
    ensures forall i :: 0 <= i < |otp| ==> otp[i] == DigitOf(draws[i])
    ensures otp == Code(draws[..|otp|])
  {
    otp := "";
    var i := 0;
    while i < n
      invariant 0 <= i <= |draws|
      invariant if n > 0 then i <= n else i == 0
      invariant |otp| == i
      invariant forall k :: 0 <= k < i ==> otp[k] == DigitOf(draws[k])
      invariant otp == Code(draws[..i])
    {
      otp := otp + [Digits[DigitIndex(draws[i])]];
      assert draws[..i + 1][..i] == draws[..i];
      i := i + 1;
    }
  }
}
