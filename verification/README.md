# Payment-detail API: a Dafny model

This project models the core of a small ASP.NET Core service that stores payment-card
records. It covers four parts:

- **The entity.** `Models.PaymentDetail` is the persisted row. Its declared column widths
  are `nvarchar(100)`, `nvarchar(16)`, `nvarchar(5)` and `nvarchar(3)`.
- **The inbound DTO.** `Dtos` holds the DTO and its data-annotation rules, written as
  predicates over characters. `[Required]` rejects empty and white-space-only values, with
  white space as `char.IsWhiteSpace` defines it. `[StringLength(100)]` counts UTF-16 units,
  as .NET's `Length` does. The module also holds the model state (property to messages) that
  the framework builds when a rule fails.
- **Text lengths.** `Text` counts string lengths in UTF-16 units, as .NET and `nvarchar(n)`
  do. A character outside the Basic Multilingual Plane counts twice.
- **The service.** `Services` holds the card-number mask (`MaskCardNumber`). It also holds
  `Services.PaymentDetailService`, a class whose `paymentDetails` map, from primary key to
  row, stands for the EF `DbSet`. Create, update and delete reassign that map. The class
  keeps two invariants:
  - `Valid()`: every row sits under its own id.
  - `FitsSchema()`: every row fits its columns. Create and update keep it whenever the DTO
    is valid; delete always keeps it.
- **The controller.** `Controllers` writes each of the five actions as a pure function. Its
  inputs are the DTO's validity and the outcome of the one service call: a returned value,
  or a thrown exception. Its output is the action result. Every action is proved to
  produce only the status codes it declares with `[ProducesResponseType]`.

Two behaviours of the code are worth stating:

- **Concurrency conflicts.** An update's concurrency conflict is not a distinct outcome.
  The service logs and rethrows it, and the controller's catch-all turns it into the
  generic 500. The model does the same, through `ServiceCall.Threw`.
- **Identifiers.** Identity generation is left to the database. The model only promises
  that a new id was not in the table when the row was created; a deleted id may come back.

A consequence the lemmas make explicit:
- A stored card number is twelve `*` followed by four digits (`Services.MaskOfValidCardNumber`).
- So it fails the card-number rule itself (`Services.MaskedCardNumberIsRejected`).
- A client therefore cannot PUT back a record it has just read. It must send the full
  number again.
- Had the masked value been written back directly, re-masking would change nothing
  (`Services.MaskIsIdempotent`, `Services.RewritingStoredRecordIsNoOp`).

Files: `wrappers.dfy` (Option), `text.dfy`, `models.dfy`, `dtos.dfy`, `services.dfy`, `controllers.dfy`.

## Model

| member | source | states |
|---|---|---|
| `Models.KeyedRowCount` | PaymentServer/Models/PaymentDetail.cs:8-9 | in a table keyed by `PaymentDetailsID`, distinct keys hold distinct records, so there are as many records as keys |
| `Models.UnusedIdExists` | PaymentServer/Models/PaymentDetail.cs:8-9 | every finite set of keys leaves some integer unused, so the store can always assign a new identity |
| `Dtos.ValidationErrors` | PaymentServer/Models/DTOs/PaymentDetailDTO.cs:9-23 | the model state is empty iff the DTO is valid; a property has an entry iff its rule fails; the entry lists, in this order, the "required" message when the value is blank (empty or white space only) and the length or format message when that attribute rejects the value, which it never does for the empty string |
| `Dtos.FieldRules` | PaymentServer/Models/DTOs/PaymentDetailDTO.cs:9-23 | owner name valid iff it is not blank and at most 100 UTF-16 units long; card number valid iff exactly 16 digits; CVC valid iff exactly 3 digits; a valid expiry has 5 characters |
| `Dtos.BlankCardNumberGetsBothMessages` | PaymentServer/Models/DTOs/PaymentDetailDTO.cs:13-15 | a non-empty card number made only of white space gets the "required" message followed by the format message |
| `Dtos.ExpirationDateAsMonth` | PaymentServer/Models/DTOs/PaymentDetailDTO.cs:17-19 | the expiry pattern holds iff the value is two digits whose number is a month 1..12, a `/`, and two digits |
| `Dtos.IdentifierIsUnconstrained` | PaymentServer/Models/DTOs/PaymentDetailDTO.cs:7 | changing `PaymentDetailsID` changes neither validity nor the model state |
| `Dtos.DefaultDtoIsInvalid` | PaymentServer/Models/DTOs/PaymentDetailDTO.cs:9-23 | a DTO with all properties at their `string.Empty` defaults is invalid, with each property's "required" message |
| `Dtos.CardNumberExamples` | PaymentServer/Models/DTOs/PaymentDetailDTO.cs:13-15 | `4111111111111111` and `4000000000002222` pass; 15 digits, 17 digits and a trailing letter fail |
| `Dtos.ValidationExamples` | PaymentServer/Models/DTOs/PaymentDetailDTO.cs:9-23 | `09/27` and `12/30` pass; `00/25`, `13/25` and `9/27` fail; `123` passes; `12` and `1234` fail; an empty or all-space owner name fails, `Jane Doe` passes |
| `Text.Utf16Length` | PaymentServer/Models/DTOs/PaymentDetailDTO.cs:10 | the .NET length counts each character outside the Basic Multilingual Plane twice: it lies between the character count and twice that, and equals the character count iff every character is in the BMP |
| `Text.Utf16LengthExamples` | PaymentServer/Models/DTOs/PaymentDetailDTO.cs:10 | `abcd` is 4 units long; U+1F600 followed by `abcd` is 6 |
| `Services.Stars` | PaymentServer/Services/PaymentDetailService.cs:107 | `new string('*', n)` has length n and only `*` characters |
| `Services.MaskCardNumber` | PaymentServer/Services/PaymentDetailService.cs:102-108 | the output has the input's length; inputs shorter than 4 are returned unchanged; otherwise the last 4 characters are the input's and every earlier one is `*` |
| `Services.MaskIsIdempotent` | PaymentServer/Services/PaymentDetailService.cs:102-108 | masking a masked value returns it unchanged |
| `Services.MaskForgetsLeadingDigits` | PaymentServer/Services/PaymentDetailService.cs:107 | two numbers of equal length (at least 4) with the same last four characters mask to the same value, so the mask cannot be inverted |
| `Services.MaskOfValidCardNumber` | PaymentServer/Services/PaymentDetailService.cs:107 | a valid card number masks to twelve `*` plus its last four digits: 16 characters, with no digit before position 12 |
| `Services.MaskedCardNumberIsRejected` | PaymentServer/Services/PaymentDetailService.cs:107 | the masked form of a valid card number fails the card-number rule |
| `Services.MaskExamples` | PaymentServer/Services/PaymentDetailService.cs:102-108 | `4111111111111111` masks to `************1111`, `4000000000002222` to `************2222`; `123` and the empty string are kept |
| `Services.ValidDtoFitsColumns` | PaymentServer/Models/PaymentDetail.cs:11-25 | a row written from a valid DTO fits its columns, counted in UTF-16 units as `nvarchar` counts them: owner name at most 100, card number exactly 16, expiry exactly 5, CVC exactly 3 |
| `Services.RewritingStoredRecordIsNoOp` | PaymentServer/Services/PaymentDetailService.cs:64-67 | for any DTO, writing the resulting row's own four fields back over it (re-masking included) leaves it unchanged |
| `Services.PaymentDetailService.constructor` | PaymentServer/Services/PaymentDetailService.cs:18-22 | the service starts over the given keyed table |
| `Services.PaymentDetailService.GetAllPaymentDetails` | PaymentServer/Services/PaymentDetailService.cs:24-28 | returns every stored row and nothing else, one per key |
| `Services.PaymentDetailService.GetPaymentDetailById` | PaymentServer/Services/PaymentDetailService.cs:30-34 | returns the row under the id, which carries that id, or null when there is none |
| `Services.PaymentDetailService.CreatePaymentDetail` | PaymentServer/Services/PaymentDetailService.cs:36-52 | adds exactly one row, under an id not in the table before (the DTO's id is ignored); copies owner, expiry and CVC and stores the number masked; leaves other rows unchanged; returns the stored row; keeps the schema invariant for a valid DTO |
| `Services.PaymentDetailService.UpdatePaymentDetail` | PaymentServer/Services/PaymentDetailService.cs:54-80 | an absent id gives null with the table unchanged; otherwise the row keeps its id, takes the four fields (number re-masked), is returned, and no other row changes; keeps the schema invariant for a valid DTO |
| `Services.PaymentDetailService.DeletePaymentDetail` | PaymentServer/Services/PaymentDetailService.cs:82-95 | answers true iff the id was present; removes exactly that key |
| `Services.PaymentDetailService.PaymentDetailExists` | PaymentServer/Services/PaymentDetailService.cs:97-100 | a search of the rows' identifiers answers true iff the id is a key of the table |
| `Services.ExistsAgreesWithLookup` | PaymentServer/Services/PaymentDetailService.cs:97-100 | Exists holds exactly when lookup by the same id is non-null |
| `Services.CreateThenGet` | PaymentServer/Services/PaymentDetailService.cs:36-52 | looking up a created row's id returns that row |
| `Services.DeleteThenGet` | PaymentServer/Services/PaymentDetailService.cs:82-95 | after a delete, lookup of the id returns null |
| `Controllers.GetPaymentDetails` | PaymentServer/Controllers/PaymentDetailController.cs:37-52 | 200 with the service's whole collection, or 500 with a fixed message when the service throws |
| `Controllers.GetPaymentDetail` | PaymentServer/Controllers/PaymentDetailController.cs:62-82 | 404 iff the service returns null; 200 with the record otherwise; 500 with a fixed message when the service throws |
| `Controllers.PutPaymentDetail` | PaymentServer/Controllers/PaymentDetailController.cs:94-120 | 400 with the model state iff the DTO is invalid, whatever the service would have done; otherwise 404 for null, 200 with the updated record, 500 on a throw |
| `Controllers.PostPaymentDetail` | PaymentServer/Controllers/PaymentDetailController.cs:130-151 | 400 with the model state iff the DTO is invalid; otherwise 201 referring to `GetPaymentDetail` with the created id and record, or 500 on a throw |
| `Controllers.DeletePaymentDetail` | PaymentServer/Controllers/PaymentDetailController.cs:161-181 | 204 iff the service returns true, 404 iff false, 500 with a fixed message on a throw |
| `Controllers.FailuresRevealNothing` | PaymentServer/Controllers/PaymentDetailController.cs:47-51 | for every action the response to a thrown exception does not depend on the exception's text |
| `Controllers.CreateUpdateDeleteScenario` | PaymentServer/Controllers/PaymentDetailController.cs:130-151 | POST of Jane Doe's card gives 201 with `************1111`; GET returns it; PUT with `4000000000002222` gives 200 with `************2222` under the same id; DELETE gives 204; GET then gives 404 |

## Left out

- Asynchrony: `async`/`Task` are not modelled. Each service method is one atomic step on the map.
- Store failures: `SaveChangesAsync` never fails in the model, and the `DbUpdateConcurrencyException` log-and-rethrow in update is not modelled inside the service. The controller functions take any failure as a `ServiceCall.Threw` input.
- Logging calls are left out; they only have side effects.
- Identity generation is an unspecified choice among unused integers. The model does not claim ids are sequential or never reused. Ids are unbounded integers, so the 32-bit range of `int` is not modelled.
- Services.PaymentDetailService.GetAllPaymentDetails: returns a set, not a list, so the row order is not modelled. The store's order is unspecified anyway.
- Entity aliasing: EF hands out tracked entity objects, and update changes that same object in place. The model returns row values, so a caller's earlier copy does not see a later update.
- Regular expressions are encoded as character predicates. `\d` is taken as ASCII `0`-`9`; .NET's `\d` also accepts other Unicode decimal digits in the card number and the CVC. The expiry uses `[0-9]` and is exact.
- Services.MaskCardNumber: splits before the fourth-last Unicode character, while .NET's `Length` and `Substring` count UTF-16 units. The two differ only for characters outside the Basic Multilingual Plane: `"\U{1F600}abcd"` becomes `"**abcd"` in .NET and `"*abcd"` here. A split inside a surrogate pair cannot be written as a Dafny string at all. Every valid card number is ASCII, so for those the two agree.
- Dtos.ValidationErrors: model-binding and JSON errors are not modelled, and neither are `null` strings. Dafny strings cannot be null, so the null case of `string.IsNullOrEmpty` in the mask is not modelled either.
- The automatic 400 that `[ApiController]` produces before an action runs is not modelled. The model follows the actions' own `ModelState.IsValid` branch, which gives the same status.
- Program.cs (dependency injection, Swagger, CORS, HTTPS), the EF `DbContext` and the service interface have no logic; they are not part of this model. Routing, URL formatting and JSON shapes are left out too.
- The column widths are not enforced by the map itself. `FitsSchema` is preserved only when create and update receive a valid DTO, which the controllers guarantee.
