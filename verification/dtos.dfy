/**
 * The inbound payment-detail DTO (PaymentServer/Models/DTOs/PaymentDetailDTO.cs) and
 * its data-annotation rules, written as predicates over characters.
 */
module Dtos {
  import opened Text

  /** The request body of POST and PUT; `paymentDetailsID` carries no rule. */
  datatype PaymentDetailDto = PaymentDetailDto(
    paymentDetailsID: int,
    cardOwnerName: string,
    cardNumber: string,
    expirationDate: string,
    cvc: string)

  /** A DTO built with no body: every string property starts as the empty string. */
  const DefaultDto := PaymentDetailDto(0, "", "", "", "")

  const MaxCardOwnerNameLength: nat := 100

  // The error messages the attributes declare.
  const CardOwnerNameRequired := "Card owner name is required"
  const CardOwnerNameTooLong := "Card owner name cannot exceed 100 characters"
  const CardNumberRequired := "Card number is required"
  const CardNumberFormat := "Card number must be 16 digits"
  const ExpirationDateRequired := "Expiration date is required"
  const ExpirationDateFormat := "Expiration date must be in MM/YY format"
  const CvcRequired := "CVC is required"
  const CvcFormat := "CVC must be 3 digits"

  /** `\d` and `[0-9]`, taken as the ASCII digits. */
  predicate IsDigit(c: char) {
    '0' <= c <= '9'
  }

  predicate AllDigits(s: string) {
    forall i :: 0 <= i < |s| ==> IsDigit(s[i])
  }

  function DigitValue(c: char): int {
    c as int - '0' as int
  }

  /** [Required]: the value must hold some character that is not white space. */
  predicate Present(s: string) {
    !IsBlank(s)
  }

  /** A value with some character other than white space passes [Required]. */
  lemma PresentAt(s: string, i: int)
    requires 0 <= i < |s| && !IsWhiteSpace(s[i])
    ensures Present(s)
  {
  }

  /** [StringLength(max)]: at most `max` UTF-16 code units. */
  predicate WithinLength(s: string, max: nat) {
    Utf16Length(s) <= max
  }

  // [RegularExpression] accepts the empty string (that case is left to [Required]);
  // any other value must be matched by the pattern as a whole.

  /** `^\d{16}$` */
  predicate MatchesCardNumberPattern(s: string) {
    s == "" || (|s| == 16 && AllDigits(s))
  }

  /** `0[1-9]|1[0-2]` on the two characters `a`, `b`. */
  predicate MonthToken(a: char, b: char) {
    (a == '0' && '1' <= b <= '9') || (a == '1' && '0' <= b <= '2')
  }

  /** `^(0[1-9]|1[0-2])\/([0-9]{2})$` */
  predicate MatchesExpirationDatePattern(s: string) {
    s == "" || (|s| == 5 && MonthToken(s[0], s[1]) && s[2] == '/' && IsDigit(s[3]) && IsDigit(s[4]))
  }

  /** `^\d{3}$` */
  predicate MatchesCvcPattern(s: string) {
    s == "" || (|s| == 3 && AllDigits(s))
  }

  // Each property is valid when all of its attributes accept it.

  predicate ValidCardOwnerName(s: string) {
    Present(s) && WithinLength(s, MaxCardOwnerNameLength)
  }

  predicate ValidCardNumber(s: string) {
    Present(s) && MatchesCardNumberPattern(s)
  }

  predicate ValidExpirationDate(s: string) {
    Present(s) && MatchesExpirationDatePattern(s)
  }

  predicate ValidCvc(s: string) {
    Present(s) && MatchesCvcPattern(s)
  }

  /** ModelState.IsValid for a bound DTO. */
  predicate IsValid(dto: PaymentDetailDto) {
    && ValidCardOwnerName(dto.cardOwnerName)
    && ValidCardNumber(dto.cardNumber)
    && ValidExpirationDate(dto.expirationDate)
    && ValidCvc(dto.cvc)
  }

  /** The messages of the failing attributes of one property, in declaration order. */
  function AttributeErrors(present: bool, requiredMessage: string, wellFormed: bool, formatMessage: string): seq<string> {
    (if present then [] else [requiredMessage]) + (if wellFormed then [] else [formatMessage])
  }

  /** Records a property's messages in the model state; a property without errors gets no entry. */
  function AddErrors(errors: map<string, seq<string>>, property: string, messages: seq<string>): map<string, seq<string>> {
    if messages == [] then errors else errors[property := messages]
  }

  /**
   * The model state the framework builds for a DTO: property name to the messages of the
   * attributes that reject its value, [Required] first. The pattern and length attributes
   * accept the empty string, so an empty value gets only the "required" message; a value of
   * white space alone fails [Required] and, when the pattern also rejects it, its format rule.
   */
  function ValidationErrors(dto: PaymentDetailDto): (errors: map<string, seq<string>>)
    ensures errors == map[] <==> IsValid(dto)
    ensures "CardOwnerName" in errors <==> !ValidCardOwnerName(dto.cardOwnerName)
    ensures "CardNumber" in errors <==> !ValidCardNumber(dto.cardNumber)
    ensures "ExpirationDate" in errors <==> !ValidExpirationDate(dto.expirationDate)
    ensures "CVC" in errors <==> !ValidCvc(dto.cvc)
    ensures errors.Keys <= {"CardOwnerName", "CardNumber", "ExpirationDate", "CVC"}
    ensures "CardOwnerName" in errors ==> (errors["CardOwnerName"] ==
      (if Present(dto.cardOwnerName) then [] else [CardOwnerNameRequired])
      + (if WithinLength(dto.cardOwnerName, MaxCardOwnerNameLength) then [] else [CardOwnerNameTooLong]))
    ensures "CardNumber" in errors ==> (errors["CardNumber"] ==
      (if Present(dto.cardNumber) then [] else [CardNumberRequired])
      + (if MatchesCardNumberPattern(dto.cardNumber) then [] else [CardNumberFormat]))
    ensures "ExpirationDate" in errors ==> (errors["ExpirationDate"] ==
      (if Present(dto.expirationDate) then [] else [ExpirationDateRequired])
      + (if MatchesExpirationDatePattern(dto.expirationDate) then [] else [ExpirationDateFormat]))
    ensures "CVC" in errors ==> (errors["CVC"] ==
      (if Present(dto.cvc) then [] else [CvcRequired])
      + (if MatchesCvcPattern(dto.cvc) then [] else [CvcFormat]))
  {
    var owner := dto.cardOwnerName;
    var number := dto.cardNumber;
    var expiry := dto.expirationDate;
    var cvc := dto.cvc;
    var e0: map<string, seq<string>> := map[];
    var e1 := AddErrors(e0, "CardOwnerName",
      AttributeErrors(Present(owner), CardOwnerNameRequired, WithinLength(owner, MaxCardOwnerNameLength), CardOwnerNameTooLong));
    var e2 := AddErrors(e1, "CardNumber",
      AttributeErrors(Present(number), CardNumberRequired, MatchesCardNumberPattern(number), CardNumberFormat));
    var e3 := AddErrors(e2, "ExpirationDate",
      AttributeErrors(Present(expiry), ExpirationDateRequired, MatchesExpirationDatePattern(expiry), ExpirationDateFormat));
    var errors := AddErrors(e3, "CVC",
      AttributeErrors(Present(cvc), CvcRequired, MatchesCvcPattern(cvc), CvcFormat));
    assert errors == map[] ==>
      ("CardOwnerName" !in errors && "CardNumber" !in errors && "ExpirationDate" !in errors && "CVC" !in errors);
    errors
  }

  /** The expiry rule read as numbers: two digits naming a month 1..12, a slash, two year digits. */
  lemma ExpirationDateAsMonth(s: string)
    ensures ValidExpirationDate(s) <==>
      && |s| == 5
      && IsDigit(s[0]) && IsDigit(s[1]) && s[2] == '/' && IsDigit(s[3]) && IsDigit(s[4])
      && 1 <= 10 * DigitValue(s[0]) + DigitValue(s[1]) <= 12
  {
  }

  /** The four rules, without the empty-string detour of the attributes. */
  lemma FieldRules(dto: PaymentDetailDto)
    ensures ValidCardOwnerName(dto.cardOwnerName) <==>
      !IsBlank(dto.cardOwnerName) && Utf16Length(dto.cardOwnerName) <= 100
    ensures ValidCardNumber(dto.cardNumber) <==> |dto.cardNumber| == 16 && AllDigits(dto.cardNumber)
    ensures ValidCvc(dto.cvc) <==> |dto.cvc| == 3 && AllDigits(dto.cvc)
    ensures ValidExpirationDate(dto.expirationDate) ==> |dto.expirationDate| == 5
  {
    if |dto.cardNumber| > 0 && AllDigits(dto.cardNumber) {
      PresentAt(dto.cardNumber, 0);
    }
    if |dto.cvc| > 0 && AllDigits(dto.cvc) {
      PresentAt(dto.cvc, 0);
    }
  }

  /**
   * A card number of white space alone fails both of its attributes, so the model state
   * carries both messages, the "required" one first.
   */
  lemma BlankCardNumberGetsBothMessages(dto: PaymentDetailDto)
    requires dto.cardNumber != "" && IsBlank(dto.cardNumber)
    ensures ValidationErrors(dto)["CardNumber"] == [CardNumberRequired, CardNumberFormat]
  {
    assert !IsDigit(dto.cardNumber[0]);
  }

  /** The identifier in the body never affects validity. */
  lemma IdentifierIsUnconstrained(dto: PaymentDetailDto, id: int)
    ensures IsValid(dto.(paymentDetailsID := id)) == IsValid(dto)
    ensures ValidationErrors(dto.(paymentDetailsID := id)) == ValidationErrors(dto)
  {
  }

  /** An empty body fails every rule, each with its "required" message. */
  lemma DefaultDtoIsInvalid()
    ensures !IsValid(DefaultDto)
    ensures ValidationErrors(DefaultDto) == map[
      "CardOwnerName" := [CardOwnerNameRequired],
      "CardNumber" := [CardNumberRequired],
      "ExpirationDate" := [ExpirationDateRequired],
      "CVC" := [CvcRequired]]
  {
    var errors := ValidationErrors(DefaultDto);
    assert Utf16Length("") == 0;
    assert errors["CardOwnerName"] == [CardOwnerNameRequired];
    assert errors["CardNumber"] == [CardNumberRequired];
    assert errors["ExpirationDate"] == [ExpirationDateRequired];
    assert errors["CVC"] == [CvcRequired];
  }

  /** Sample card numbers: exactly sixteen digits pass. */
  lemma CardNumberExamples()
    ensures ValidCardNumber("4111111111111111") && ValidCardNumber("4000000000002222")
    ensures !ValidCardNumber("411111111111111") && !ValidCardNumber("41111111111111111")
    ensures !ValidCardNumber("411111111111111a")
  {
    assert !IsDigit("411111111111111a"[15]);
    PresentAt("4111111111111111", 0);
    PresentAt("4000000000002222", 0);
  }

  /** Sample expiry dates, CVCs and owner names each rule accepts or rejects. */
  lemma ValidationExamples()
    ensures ValidExpirationDate("09/27") && ValidExpirationDate("12/30")
    ensures !ValidExpirationDate("00/25") && !ValidExpirationDate("13/25") && !ValidExpirationDate("9/27")
    ensures ValidCvc("123") && !ValidCvc("12") && !ValidCvc("1234")
    ensures !ValidCardOwnerName("") && !ValidCardOwnerName("   ") && ValidCardOwnerName("Jane Doe")
  {
    PresentAt("09/27", 0);
    PresentAt("12/30", 0);
    PresentAt("123", 0);
    PresentAt("Jane Doe", 0);
  }
}
