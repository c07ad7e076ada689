/**
 * PaymentServer/Controllers/PaymentDetailController.cs: each action as a function from the
 * validity of its input and the outcome of its one service call to the action result.
 */
module Controllers {
  import opened Wrappers
  import opened Models
  import opened Dtos
  import opened Services

  /** What the awaited service call did: returned a value, or threw an exception. */
  datatype ServiceCall<T> = Returned(value: T) | Threw(exceptionMessage: string)

  datatype Body = Detail(detail: PaymentDetail) | Details(details: set<PaymentDetail>)

  /** The IActionResult an action returns. */
  datatype ActionResult =
    | Ok(body: Body)
    | CreatedAtAction(actionName: string, routeId: int, created: PaymentDetail)
    | NoContent
    | BadRequest(modelState: map<string, seq<string>>)
    | NotFound
    | ServerError(message: string)
  {
    function StatusCode(): int {
      match this
      case Ok(_) => 200
      case CreatedAtAction(_, _, _) => 201
      case NoContent => 204
      case BadRequest(_) => 400
      case NotFound => 404
      case ServerError(_) => 500
    }
  }

  datatype Action = GetAll | GetOne | Put | Post | Delete

  /** The status codes each action declares with [ProducesResponseType]. */
  function DeclaredStatusCodes(action: Action): set<int> {
    match action
    case GetAll => {200, 500}
    case GetOne => {200, 404, 500}
    case Put => {200, 400, 404, 500}
    case Post => {201, 400, 500}
    case Delete => {204, 404, 500}
  }

  // The fixed texts of the 500 responses; the exception itself is only logged.
  const GetAllFailed := "An error occurred while retrieving payment details"
  const GetOneFailed := "An error occurred while retrieving the payment detail"
  const PutFailed := "An error occurred while updating the payment detail"
  const PostFailed := "An error occurred while creating the payment detail"
  const DeleteFailed := "An error occurred while deleting the payment detail"

  /** GET: 200 with the whole collection, 500 if the service throws. */
  function GetPaymentDetails(call: ServiceCall<set<PaymentDetail>>): (result: ActionResult)
    ensures result.StatusCode() in DeclaredStatusCodes(GetAll)
    ensures result.StatusCode() == 200 <==> call.Returned?
    ensures call.Returned? ==> result.body == Details(call.value)
    ensures call.Threw? ==> result == ServerError(GetAllFailed)
  {
    match call
    case Returned(details) => Ok(Details(details))
    case Threw(_) => ServerError(GetAllFailed)
  }

  /** GET {id}: 404 for null, 200 with the record, 500 if the service throws. */
  function GetPaymentDetail(id: int, call: ServiceCall<Option<PaymentDetail>>): (result: ActionResult)
    ensures result.StatusCode() in DeclaredStatusCodes(GetOne)
    ensures result.StatusCode() == 404 <==> call == Returned(None)
    ensures result.StatusCode() == 200 <==> call.Returned? && call.value.Some?
    ensures result.StatusCode() == 200 ==> result.body == Detail(call.value.value)
    ensures call.Threw? ==> result == ServerError(GetOneFailed)
  {
    match call
    case Returned(None) => NotFound
    case Returned(Some(detail)) => Ok(Detail(detail))
    case Threw(_) => ServerError(GetOneFailed)
  }

  /**
   * PUT {id}: 400 with the model state for an invalid body, whatever the service would
   * have done; otherwise 404 for null, 200 with the updated record, 500 if the service throws.
   */
  function PutPaymentDetail(id: int, dto: PaymentDetailDto, call: ServiceCall<Option<PaymentDetail>>): (result: ActionResult)
    ensures result.StatusCode() in DeclaredStatusCodes(Put)
    ensures !IsValid(dto) ==> result == BadRequest(ValidationErrors(dto))
    ensures result.StatusCode() == 400 <==> !IsValid(dto)
    ensures IsValid(dto) ==> (result.StatusCode() == 404 <==> call == Returned(None))
    ensures IsValid(dto) && call.Returned? && call.value.Some? ==> result == Ok(Detail(call.value.value))
    ensures IsValid(dto) && call.Threw? ==> result == ServerError(PutFailed)
  {
    if !IsValid(dto) then
      BadRequest(ValidationErrors(dto))
    else
      match call
      case Returned(None) => NotFound
      case Returned(Some(detail)) => Ok(Detail(detail))
      case Threw(_) => ServerError(PutFailed)
  }

  /**
   * POST: 400 with the model state for an invalid body, whatever the service would have
   * done; otherwise 201 pointing at GetPaymentDetail for the new id, or 500 if the service throws.
   */
  function PostPaymentDetail(dto: PaymentDetailDto, call: ServiceCall<PaymentDetail>): (result: ActionResult)
    ensures result.StatusCode() in DeclaredStatusCodes(Post)
    ensures !IsValid(dto) ==> result == BadRequest(ValidationErrors(dto))
    ensures result.StatusCode() == 201 <==> IsValid(dto) && call.Returned?
    ensures result.StatusCode() == 201 ==>
      result == CreatedAtAction("GetPaymentDetail", call.value.paymentDetailsID, call.value)
    ensures IsValid(dto) && call.Threw? ==> result == ServerError(PostFailed)
  {
    if !IsValid(dto) then
      BadRequest(ValidationErrors(dto))
    else
      match call
      case Returned(created) => CreatedAtAction("GetPaymentDetail", created.paymentDetailsID, created)
      case Threw(_) => ServerError(PostFailed)
  }

  /** DELETE {id}: 404 for false, 204 with no body for true, 500 if the service throws. */
  function DeletePaymentDetail(id: int, call: ServiceCall<bool>): (result: ActionResult)
    ensures result.StatusCode() in DeclaredStatusCodes(Delete)
    ensures result.StatusCode() == 204 <==> call == Returned(true)
    ensures result.StatusCode() == 404 <==> call == Returned(false)
    ensures call.Threw? ==> result == ServerError(DeleteFailed)
  {
    match call
    case Returned(true) => NoContent
    case Returned(false) => NotFound
    case Threw(_) => ServerError(DeleteFailed)
  }

  /** No action lets the exception's text reach the response. */
  lemma FailuresRevealNothing(id: int, dto: PaymentDetailDto, m1: string, m2: string)
    ensures GetPaymentDetails(Threw(m1)) == GetPaymentDetails(Threw(m2))
    ensures GetPaymentDetail(id, Threw(m1)) == GetPaymentDetail(id, Threw(m2))
    ensures PutPaymentDetail(id, dto, Threw(m1)) == PutPaymentDetail(id, dto, Threw(m2))
    ensures PostPaymentDetail(dto, Threw(m1)) == PostPaymentDetail(dto, Threw(m2))
    ensures DeletePaymentDetail(id, Threw(m1)) == DeletePaymentDetail(id, Threw(m2))
  {
  }

  /**
   * A client session: POST Jane Doe's card, read it back, PUT a new number over
   * it, delete it, and read it once more.
   */
  method CreateUpdateDeleteScenario()
    returns (post: ActionResult, get: ActionResult, put: ActionResult, delete: ActionResult, getAfterDelete: ActionResult)
    ensures post.StatusCode() == 201 && post.created.cardNumber == "************1111"
    ensures post.created.cardOwnerName == "Jane Doe" && post.actionName == "GetPaymentDetail"
    ensures get == Ok(Detail(post.created))
    ensures put.StatusCode() == 200 && put.body.Detail?
    ensures put.body.detail.cardNumber == "************2222" && put.body.detail.paymentDetailsID == post.routeId
    ensures delete == NoContent
    ensures getAfterDelete == NotFound
  {
    var service := new PaymentDetailService(map[]);
    var body := PaymentDetailDto(0, "Jane Doe", "4111111111111111", "09/27", "123");
    CardNumberExamples();
    ValidationExamples();
    MaskExamples();
    assert IsValid(body);
    var created := service.CreatePaymentDetail(body);
    post := PostPaymentDetail(body, Returned(created));
    var id := created.paymentDetailsID;

    var found := service.GetPaymentDetailById(id);
    get := GetPaymentDetail(id, Returned(found));

    var newBody := body.(paymentDetailsID := id, cardNumber := "4000000000002222");
    assert ValidCardNumber(newBody.cardNumber);
    var updated := service.UpdatePaymentDetail(id, newBody);
    put := PutPaymentDetail(id, newBody, Returned(updated));

    var deleted := service.DeletePaymentDetail(id);
    delete := DeletePaymentDetail(id, Returned(deleted));

    var missing := service.GetPaymentDetailById(id);
    getAfterDelete := GetPaymentDetail(id, Returned(missing));
  }
}
