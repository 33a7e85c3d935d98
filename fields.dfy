/** The per-keystroke change handlers of the pages' form fields: an amount field
    keeps only digits, ignores the change past its digit limit and shows the
    formatted amount; a text field ignores a change past its length limit. */
module Fields {
  import opened Money

  /** An amount field's change handler with a limit of `maxDigits` digits. */
  function ValueFieldChange(current: string, input: string, maxDigits: nat): (r: string)
    ensures |Digits(input)| > maxDigits ==> r == current
    ensures |Digits(input)| <= maxDigits ==> r == FormatCurrency(Digits(input))
    ensures |Digits(input)| <= maxDigits ==>
      ParseValueToCents(r) == ParseValueToCents(input) && (r == "" || IsDisplayAmount(r))
  {
    var numericOnly := Digits(input);
    if |numericOnly| <= maxDigits then
      DigitsOfDigitString(numericOnly);
      FormatCurrencyRoundTrip(numericOnly);
      FormatCurrency(numericOnly)
    else current
  }

  /** What a field limit guarantees: once the field holds at most `maxDigits`
      digits' worth of cents, no keystroke takes it past that. */
  lemma ValueFieldStaysBounded(current: string, input: string, maxDigits: nat)
    requires ParseValueToCents(current) < Pow10(maxDigits)
    ensures ParseValueToCents(ValueFieldChange(current, input, maxDigits)) < Pow10(maxDigits)
  {
    if |Digits(input)| <= maxDigits {
      Pow10Monotone(|Digits(input)|, maxDigits);
    }
  }

  lemma {:induction false} Pow10Monotone(m: nat, n: nat)
    requires m <= n
    ensures Pow10(m) <= Pow10(n)
  {
    if m < n {
      Pow10Monotone(m, n - 1);
    }
  }

  /** A text field's change handler with a limit of `maxLen` characters. */
  function TextFieldChange(current: string, input: string, maxLen: nat): (r: string)
    ensures |input| <= maxLen ==> r == input
    ensures |input| > maxLen ==> r == current
    ensures |current| <= maxLen ==> |r| <= maxLen
  {
    if |input| <= maxLen then input else current
  }
}
