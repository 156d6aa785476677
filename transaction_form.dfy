/**
 * Amount entry (`TransactionFormComponent`): typed text is reduced to its
 * digits and read as a whole number, and the form may be submitted only when
 * an amount of at least 1 is present.
 */
module TransactionForm {
  import opened Wrappers
  import opened Decimal

  const MinAmount: nat := 1

  /** `text.replace(/\D/g, '')`: keeps the ASCII digits, in order, and drops the rest. */
  function StripNonDigits(text: string): (digits: string)
    ensures AllDigits(digits)
    ensures |digits| <= |text|
  {
    if text == [] then []
    else (if IsDigit(text[0]) then [text[0]] else []) + StripNonDigits(text[1..])
  }

  /** Stripping works piecewise: the digits of `a + b` are those of `a` followed by those of `b`. */
  lemma {:induction false} StripAppend(a: string, b: string)
    ensures StripNonDigits(a + b) == StripNonDigits(a) + StripNonDigits(b)
  {
    if a == [] {
      assert a + b == b;
    } else {
      assert (a + b)[0] == a[0];
      assert (a + b)[1..] == a[1..] + b;
      StripAppend(a[1..], b);
    }
  }

  /** A digit survives stripping; any other character disappears. */
  lemma StripOne(c: char)
    ensures StripNonDigits([c]) == if IsDigit(c) then [c] else []
  {
  }

  /** Stripping an all-digit string returns it unchanged. */
  lemma {:induction false} StripKeepsDigits(text: string)
    requires AllDigits(text)
    ensures StripNonDigits(text) == text
  {
    if text != [] {
      StripKeepsDigits(text[1..]);
      assert [text[0]] + text[1..] == text;
    }
  }

  /** Stripping twice is stripping once. */
  lemma StripIdempotent(text: string)
    ensures StripNonDigits(StripNonDigits(text)) == StripNonDigits(text)
  {
    StripKeepsDigits(StripNonDigits(text));
  }

  /** The amount `onAmountInput` reads: `Number` of the stripped text. */
  function AmountOf(text: string): (amount: nat)
    ensures AllDigits(text) ==> amount == ValueOf(text)
    ensures StripNonDigits(text) == [] ==> amount == 0
  {
    if AllDigits(text) then StripKeepsDigits(text); ValueOf(StripNonDigits(text))
    else ValueOf(StripNonDigits(text))
  }

  /** Text with no digit at all reads as amount 0. */
  lemma {:induction false} NoDigitsReadsZero(text: string)
    requires forall i :: 0 <= i < |text| ==> !IsDigit(text[i])
    ensures StripNonDigits(text) == [] && AmountOf(text) == 0
  {
    if text != [] {
      NoDigitsReadsZero(text[1..]);
    }
  }

  /** A non-digit character anywhere in the text does not change the amount. */
  lemma IgnoresNonDigit(a: string, c: char, b: string)
    requires !IsDigit(c)
    ensures AmountOf(a + [c] + b) == AmountOf(a + b)
  {
    StripAppend(a + [c], b);
    StripAppend(a, [c]);
    StripAppend(a, b);
    StripOne(c);
    assert StripNonDigits(a + [c]) == StripNonDigits(a);
  }

  /** Typing one more digit after the text multiplies the amount by ten and adds the digit. */
  lemma TypingADigit(text: string, c: char)
    requires IsDigit(c)
    ensures AmountOf(text + [c]) == 10 * AmountOf(text) + DigitValue(c)
  {
    StripAppend(text, [c]);
    ValueOfSnoc(StripNonDigits(text), c);
  }

  /** The decimal notation of a number reads back as that number. */
  lemma ReadsDisplayedNumber(n: nat)
    ensures AmountOf(ToDecimal(n)) == n
  {
    StripKeepsDigits(ToDecimal(n));
  }

  /** `Validators.required`: the control holds a value. */
  predicate Required(amount: Option<nat>)
  {
    amount.Some?
  }

  /** `Validators.min(bound)`: an empty control passes; a value passes when it is at least `bound`. */
  predicate Min(amount: Option<nat>, bound: nat)
  {
    amount.None? || amount.value >= bound
  }

  /** Both validators of the amount control: present and at least 1. */
  predicate IsValid(amount: Option<nat>)
    ensures IsValid(amount) <==> amount.Some? && amount.value >= MinAmount
  {
    Required(amount) && Min(amount, MinAmount)
  }

  class TransactionForm {
    /** The value of the `amount` form control; `None` is `null`. */
    var amount: Option<nat>

    constructor()
      ensures amount == None && !IsValid(amount)
    {
      amount := None;
    }

    /** `onAmountInput`: the control takes the number read from the typed text. */
    method OnAmountInput(text: string)
      modifies this
      ensures amount == Some(AmountOf(text))
      ensures IsValid(amount) <==> StripNonDigits(text) != [] && AmountOf(text) >= MinAmount
    {
      var digits := StripNonDigits(text);
      amount := Some(ValueOf(digits));
    }

    /** `submit()`: a valid form emits its amount and is reset; an invalid one emits nothing and stays as it is. */
    method Submit() returns (emitted: Option<nat>)
      modifies this
      ensures old(IsValid(amount)) ==> emitted == old(amount) && amount == None
      ensures !old(IsValid(amount)) ==> emitted == None && amount == old(amount)
      ensures emitted.Some? ==> emitted.value >= MinAmount
    {
      if IsValid(amount) {
        emitted := amount;
        amount := None;
      } else {
        emitted := None;
      }
    }
  }
}
