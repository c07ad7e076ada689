/**
 * PaymentServer/Services/PaymentDetailService.cs: the card-number mask and the
 * repository over the PaymentDetails table, the table being a map from primary key to row.
 */
module Services {
  import opened Wrappers
  import opened Models
  import opened Dtos
  import opened Text

  /** `new string('*', n)`. */
  function Stars(n: nat): (r: string)
    ensures |r| == n
    ensures forall i :: 0 <= i < n ==> r[i] == '*'
  {
    if n == 0 then "" else Stars(n - 1) + "*"
  }

  /**
   * Keeps the last four characters and hides every earlier one behind '*';
   * a value shorter than four characters is kept as it is.
   */
  function MaskCardNumber(cardNumber: string): (masked: string)
    ensures |masked| == |cardNumber|
    ensures |cardNumber| < 4 ==> masked == cardNumber
    ensures |cardNumber| >= 4 ==> masked[|cardNumber| - 4..] == cardNumber[|cardNumber| - 4..]
    ensures |cardNumber| >= 4 ==> forall i :: 0 <= i < |cardNumber| - 4 ==> masked[i] == '*'
  {
    if |cardNumber| < 4 then cardNumber
    else Stars(|cardNumber| - 4) + cardNumber[|cardNumber| - 4..]
  }

  /** Masking an already masked value changes nothing: re-masking on update is harmless. */
  lemma MaskIsIdempotent(cardNumber: string)
    ensures MaskCardNumber(MaskCardNumber(cardNumber)) == MaskCardNumber(cardNumber)
  {
  }

  /**
   * The mask keeps nothing but the length and the last four characters, so it cannot be
   * undone: two numbers that agree there are stored identically.
   */
  lemma MaskForgetsLeadingDigits(a: string, b: string)
    requires |a| == |b| >= 4
    requires a[|a| - 4..] == b[|b| - 4..]
    ensures MaskCardNumber(a) == MaskCardNumber(b)
  {
  }

  /**
   * A valid card number becomes twelve '*' followed by its own last four digits: the stored
   * value is sixteen characters long and holds no digit before position 12.
   */
  lemma MaskOfValidCardNumber(cardNumber: string)
    requires ValidCardNumber(cardNumber)
    ensures MaskCardNumber(cardNumber) == Stars(12) + cardNumber[12..]
    ensures |MaskCardNumber(cardNumber)| == CardNumberWidth
    ensures forall i :: 0 <= i < 12 ==> !IsDigit(MaskCardNumber(cardNumber)[i])
    ensures AllDigits(MaskCardNumber(cardNumber)[12..])
  {
  }

  /** A stored (masked) card number no longer passes the card-number rule. */
  lemma MaskedCardNumberIsRejected(cardNumber: string)
    requires ValidCardNumber(cardNumber)
    ensures !ValidCardNumber(MaskCardNumber(cardNumber))
  {
    MaskOfValidCardNumber(cardNumber);
    assert !IsDigit(MaskCardNumber(cardNumber)[0]);
  }

  /** The two card numbers of the create-then-update scenario. */
  lemma MaskExamples()
    ensures MaskCardNumber("4111111111111111") == "************1111"
    ensures MaskCardNumber("4000000000002222") == "************2222"
    ensures MaskCardNumber("123") == "123" && MaskCardNumber("") == ""
  {
  }

  /** The four field assignments of create and update: owner, expiry and CVC verbatim, number masked. */
  function ApplyDto(detail: PaymentDetail, dto: PaymentDetailDto): PaymentDetail {
    detail.(
      cardOwnerName := dto.cardOwnerName,
      cardNumber := MaskCardNumber(dto.cardNumber),
      expirationDate := dto.expirationDate,
      cvc := dto.cvc)
  }

  /**
   * A record written from a valid DTO fits the declared column widths, counted in UTF-16
   * units; the card number, expiry and CVC fill theirs exactly.
   */
  lemma ValidDtoFitsColumns(detail: PaymentDetail, dto: PaymentDetailDto)
    requires IsValid(dto)
    ensures FitsColumns(ApplyDto(detail, dto))
    ensures Utf16Length(ApplyDto(detail, dto).cardOwnerName) <= CardOwnerNameWidth
    ensures Utf16Length(ApplyDto(detail, dto).cardNumber) == CardNumberWidth
    ensures Utf16Length(ApplyDto(detail, dto).expirationDate) == ExpirationDateWidth
    ensures Utf16Length(ApplyDto(detail, dto).cvc) == CvcWidth
  {
  }

  /** The DTO a client sends back after reading a record. */
  function ToDto(detail: PaymentDetail): PaymentDetailDto {
    PaymentDetailDto(detail.paymentDetailsID, detail.cardOwnerName, detail.cardNumber, detail.expirationDate, detail.cvc)
  }

  /** Writing a stored record's own fields back over it leaves it as it was. */
  lemma RewritingStoredRecordIsNoOp(detail: PaymentDetail, dto: PaymentDetailDto)
    ensures ApplyDto(ApplyDto(detail, dto), ToDto(ApplyDto(detail, dto))) == ApplyDto(detail, dto)
  {
  }

  /** The repository. The EF change tracker and the database are abstracted as one map. */
  class PaymentDetailService {
    var paymentDetails: map<int, PaymentDetail>

    /** Every row sits under its own primary key. */
    ghost predicate Valid()
      reads this
    {
      KeyedById(paymentDetails)
    }

    /** Every row fits its declared columns. */
    ghost predicate FitsSchema()
      reads this
    {
      AllFitColumns(paymentDetails)
    }

    /** A service over a table that already holds `table`. */
    constructor (table: map<int, PaymentDetail>)
      requires KeyedById(table)
      ensures Valid() && paymentDetails == table
    {
      paymentDetails := table;
    }

    /** All rows, one per key; the order of the list is the store's and is not modelled. */
    method GetAllPaymentDetails() returns (details: set<PaymentDetail>)
      requires Valid()
      ensures forall id :: id in paymentDetails ==> paymentDetails[id] in details
      ensures forall d :: d in details ==> d.paymentDetailsID in paymentDetails && paymentDetails[d.paymentDetailsID] == d
      ensures |details| == |paymentDetails|
    {
      details := paymentDetails.Values;
      KeyedRowCount(paymentDetails);
      forall d | d in details
        ensures d.paymentDetailsID in paymentDetails && paymentDetails[d.paymentDetailsID] == d
      {
        if forall k :: k in paymentDetails ==> paymentDetails[k] != d {
          assert false;
        }
        var k :| k in paymentDetails && paymentDetails[k] == d;
      }
    }

    /** FindAsync by primary key: the row under `id`, or null. */
    method GetPaymentDetailById(id: int) returns (detail: Option<PaymentDetail>)
      requires Valid()
      ensures detail.Some? <==> id in paymentDetails
      ensures detail.Some? ==> detail.value == paymentDetails[id] && detail.value.paymentDetailsID == id
    {
      if id in paymentDetails {
        detail := Some(paymentDetails[id]);
      } else {
        detail := None;
      }
    }

    /**
     * Adds one row for the DTO under an identity the store chooses among the unused ones; the
     * DTO's own identifier is ignored. Returns the stored row.
     */
    method CreatePaymentDetail(dto: PaymentDetailDto) returns (created: PaymentDetail)
      requires Valid()
      modifies this
      ensures Valid()
      ensures created.paymentDetailsID !in old(paymentDetails)
      ensures created.cardOwnerName == dto.cardOwnerName
      ensures created.cardNumber == MaskCardNumber(dto.cardNumber)
      ensures created.expirationDate == dto.expirationDate
      ensures created.cvc == dto.cvc
      ensures paymentDetails == old(paymentDetails)[created.paymentDetailsID := created]
      ensures |paymentDetails| == |old(paymentDetails)| + 1
      ensures old(FitsSchema()) && IsValid(dto) ==> FitsSchema()
    {
      var detail := ApplyDto(PaymentDetail(0, "", "", "", ""), dto);
      var bound := UnusedIdExists(paymentDetails.Keys);
      var id :| id !in paymentDetails;
      detail := detail.(paymentDetailsID := id);
      if IsValid(dto) {
        ValidDtoFitsColumns(PaymentDetail(id, "", "", "", ""), dto);
      }
      paymentDetails := paymentDetails[id := detail];
      created := detail;
    }

    /**
     * Overwrites the four business fields of the row under `id` (re-masking the card number)
     * and returns it; null, with nothing written, when there is no such row.
     */
    method UpdatePaymentDetail(id: int, dto: PaymentDetailDto) returns (updated: Option<PaymentDetail>)
      requires Valid()
      modifies this
      ensures Valid()
      ensures updated.Some? <==> id in old(paymentDetails)
      ensures updated.None? ==> paymentDetails == old(paymentDetails)
      ensures updated.Some? ==>
        && updated.value.paymentDetailsID == id
        && updated.value.cardOwnerName == dto.cardOwnerName
        && updated.value.cardNumber == MaskCardNumber(dto.cardNumber)
        && updated.value.expirationDate == dto.expirationDate
        && updated.value.cvc == dto.cvc
        && paymentDetails == old(paymentDetails)[id := updated.value]
      ensures paymentDetails.Keys == old(paymentDetails).Keys
      ensures old(FitsSchema()) && IsValid(dto) ==> FitsSchema()
    {
      if id !in paymentDetails {
        return None;
      }
      var detail := paymentDetails[id];
      detail := ApplyDto(detail, dto);
      if IsValid(dto) {
        ValidDtoFitsColumns(paymentDetails[id], dto);
      }
      paymentDetails := paymentDetails[id := detail];
      updated := Some(detail);
    }

    /** Removes the row under `id` and answers true; answers false, with nothing removed, when absent. */
    method DeletePaymentDetail(id: int) returns (deleted: bool)
      requires Valid()
      modifies this
      ensures Valid()
      ensures deleted <==> id in old(paymentDetails)
      ensures paymentDetails == old(paymentDetails) - {id}
      ensures old(FitsSchema()) ==> FitsSchema()
    {
      if id !in paymentDetails {
        return false;
      }
      paymentDetails := paymentDetails - {id};
      deleted := true;
    }

    /** AnyAsync over the rows' identifiers: some row carries `id`. */
    method PaymentDetailExists(id: int) returns (present: bool)
      requires Valid()
      ensures present <==> id in paymentDetails
    {
      present := exists k | k in paymentDetails :: paymentDetails[k].paymentDetailsID == id;
    }
  }

  /** Exists answers true exactly when lookup by the same id finds a row. */
  method ExistsAgreesWithLookup(service: PaymentDetailService, id: int) returns (found: Option<PaymentDetail>, present: bool)
    requires service.Valid()
    ensures present <==> found.Some?
  {
    found := service.GetPaymentDetailById(id);
    present := service.PaymentDetailExists(id);
  }

  /** A created record is found again by its new id, unchanged. */
  method CreateThenGet(service: PaymentDetailService, dto: PaymentDetailDto) returns (created: PaymentDetail, found: Option<PaymentDetail>)
    requires service.Valid()
    modifies service
    ensures found == Some(created)
  {
    created := service.CreatePaymentDetail(dto);
    found := service.GetPaymentDetailById(created.paymentDetailsID);
  }

  /** After a delete, the id is no longer found. */
  method DeleteThenGet(service: PaymentDetailService, id: int) returns (found: Option<PaymentDetail>)
    requires service.Valid()
    modifies service
    ensures found == None
  {
    var _ := service.DeletePaymentDetail(id);
    found := service.GetPaymentDetailById(id);
  }
}
