# BP Optical POS — a Dafny model of its order, report, partner and client rules

BP Optical POS extends an Odoo point of sale for optical shops. The model
covers the rules that decide, validate and aggregate:

- **Optical orders** (`PosOrder`, pos_order.dfy). It covers:
  - when an invoice is forced;
  - how client payment lines are flagged as insurance;
  - the ordered requirement checks;
  - the zero-and-restore wrapper that hides insurance payments from the host's invoice reconciliation;
  - invoice tagging and linking of insurance records after invoicing;
  - the defaults of an insurance payment record;
  - the analytic distribution written into invoice lines;
  - the payment breakdown returned when an order is finalised.
- **The branch profit-and-loss report** (`BranchPL`, branch_pl.dfy): search, distribution filter, grouping per account, sign and partition, totals and the sort by code.
- **Partner creation from the client and the partner's computed insurance fields** (`PartnerPos`, partner.dfy).
- **The invoice's computed insurance company and has-insurance flag** (`AccountMove`, account_move.dfy).
- **The optical test popup** (`TestPopup`, test_popup.dfy): validation, the integer parsing of the axes, the payload, and confirm/cancel.
- **The payment extension of the client** (`PaymentExt`, payment_ext.dfy):
  - the insurance fields of a payment line and their JSON round trip;
  - the routing of a new payment line;
  - the guards of the insurance payment flow.

Supporting modules:

- `Wrappers`: Option, Outcome and Result.
- `PyValues`: Python dictionary values with Python truthiness.
- `JsValues`: JavaScript values with JavaScript truthiness. It also covers `a || b`, `String.prototype.trim`, the StringToNumber conversion behind `<`/`>` (ECMAScript section 7.1.4.1.1) and `parseInt(s, 10)` (ECMAScript section 19.2.5).
- `Decimal`: `str(n)` for natural numbers and reading a numeral back.

Modelling conventions:

- Record ids are natural numbers, with 0 standing for Odoo's False (the empty recordset).
- Money is an integer in minor units.
- Dates are day numbers.
- The host's own implementations (`super()`, ORM searches and creates) are parameters or inputs of the operations that call them.
- Code that changes state step by step is modelled imperatively:
  - methods over arrays for payments, orders and invoice lines;
  - classes for the move values, the partner records, the popup and the payment lines;
  - loops with invariants.
- Expression-only code is modelled as functions with lemmas.

## Model

| member | source | states |
|---|---|---|
| PosOrder.OrderFields | models/pos_order_ext.py:14-44 | `to_invoice` is set to true exactly when the session is optical, a customer is set, and either the configuration forces invoices or some 3-element statement pays with an insurance method; otherwise the host's fields come back unchanged |
| PosOrder.PaymentFields | models/pos_order_ext.py:46-59 | A line that carries the insurance flag or insurance data gets `is_insurance` true and `insurance_raw_data` equal to the client's data. Every other host field keeps its value, and an unflagged line is returned untouched |
| PosOrder.CheckRequirements | models/pos_order_ext.py:100-153 | Passes when optical is disabled, and otherwise passes exactly when the order meets all requirements. Each error is characterised by its own if-and-only-if, which fixes the order of the checks: customer required, forced invoice without customer, missing insurance journal, insurance payment without company, insurance total above the order total. The total comparison is strict, so equality passes |
| PosOrder.SelectRejectPartition | models/pos_order_ext.py:815-823 | A filter and its complement split the payments: their amounts and their counts add up to those of all payments |
| PosOrder.ApplyInvoicePayments | models/pos_order_ext.py:164-201 | The host sees every insurance payment of an optical order at amount 0 and every other payment as it was. Its outcome, including a raised error, is passed on. Afterwards each payment the host did not delete is exactly as before (insurance amounts restored), and deleted ones are left as the host saw them |
| PosOrder.HideInsurance | models/pos_order_ext.py:175-184 | Exactly the insurance payments of optical orders have their amount saved under their position, and each row becomes what the host is to see: amount 0 for those, unchanged otherwise |
| PosOrder.MarkDeleted | models/pos_order_ext.py:188-190 | Exactly the rows the host reports as deleted stop being live; every field other than liveness is kept |
| PosOrder.RestoreSaved | models/pos_order_ext.py:194-199 | Every row still existing is back to its original state, saved amount included, while deleted rows stay as the host saw them |
| PosOrder.LinkInsuranceRecords | models/pos_order_ext.py:239-242 | The loop over one order's payments yields the specified linking of every insurance record to the invoice |
| PosOrder.LinkAllSpec | models/pos_order_ext.py:239-242 | Linking keeps the number, order, ids and amounts of the payments. Insurance payments with a record get that record linked to the invoice with the company kept; every other payment is unchanged |
| PosOrder.TagInsuranceInvoiceSpec | models/pos_order_ext.py:221-242 | An order with an invoice, optical enabled and at least one insurance payment gets its invoice flagged as an insurance invoice paid by insurance for the order's patient, and its insurance records linked to that invoice. Every other order is left exactly as it was. Partner, totals and payment amounts are kept either way |
| PosOrder.GeneratePosOrderInvoice | models/pos_order_ext.py:203-244 | Fails exactly when some forced-invoice optical order has no partner. Otherwise every order is marked `to_invoice` where forced, passed through the host's invoicing and then tagged |
| PosOrder.PrevalidateOrders | models/pos_order_ext.py:206-217 | Raises exactly when some forced-invoice optical order has no partner; otherwise every order is the original with `to_invoice` forced where required |
| PosOrder.TagInvoices | models/pos_order_ext.py:222-242 | Every order ends up as the tagging specification makes it: flagged invoice and linked records for an invoiced optical order with insurance payments, unchanged otherwise |
| PosOrder.InsurancePaymentValues | models/pos_order_ext.py:246-282 | The record values default the amount to 0 and the four text fields to `''`. `payment_id` is present exactly when the given payment id is truthy, `invoice_id` exactly when the order already has an invoice, and no other key appears |
| PosOrder.BaseInsuranceValues | models/pos_order_ext.py:261-269 | The seven fixed keys and no other: the order id, the amount (default 0), the company, and the four texts (default `''`) |
| PosOrder.AnalyticAccount | models/pos_order_ext.py:312-326 | The branch's analytic account wins when optical is on and the branch has one. Otherwise the destination location's account is used whenever both exist, and there is none exactly when neither applies |
| PosOrder.WithAnalytic | models/pos_order_ext.py:328-338 | Only a 3-element entry whose value dictionary has a truthy `product_id` receives `analytic_distribution`; its other keys and the entry's first two elements are kept, and every other entry is untouched |
| PosOrder.DistributionNamesAccount | models/pos_order_ext.py:328 | The distribution has exactly one key, the account's numeral, at 100 percent |
| PosOrder.MoveVals.ApplyLocationAnalytic | models/pos_order_ext.py:306-338 | Each entry of `invoice_line_ids` is updated in place with the chosen account's distribution. Nothing changes without a session, without an analytic account, or without line entries |
| PosOrder.MoveVals.CreateInvoice | models/pos_order_ext.py:284-304 | Applies the analytic distribution. Sets `branch_id` for an optical order with a branch, and otherwise leaves it as it was. Sets `journal_id` to the insurance journal for an optical order with an insurance journal and insurance payments, and otherwise leaves it as it was. All other keys are unchanged, and a non-optical order's values only get the analytic step |
| PosOrder.ResidualPartition | models/pos_order_ext.py:825-842 | The customer's and the insurer's receivable residuals add up to the invoice's whole open receivable |
| PosOrder.BreakdownIsPartition | models/pos_order_ext.py:815-858 | Customer and insurance payment totals add up to all payments, and there are no more insurance payments than payments. Customer and insurance dues add up to the open receivable |
| PosOrder.FinalizePayments | models/pos_order_ext.py:781-866 | Covers the three error answers (no order reference, order not found, no invoice, the last with `has_invoice` false), which change nothing. Otherwise only flagged insurance records without an invoice are linked, and the breakdown is returned |
| BranchPL.Search | wizard/optical_branch_pl_wizard.py:50-62 | An item is found exactly when it lies in the date range inclusive, has a distribution, is on one of the five profit-and-loss types, and is posted when only posted moves are asked for |
| BranchPL.Kept | wizard/optical_branch_pl_wizard.py:64-73 | An item is kept exactly when it was found, its distribution is not empty and one of its keys is a selected account's numeral |
| BranchPL.KeptNamesSelectedAccount | wizard/optical_branch_pl_wizard.py:67-72 | Matching against the set of numerals is the same as some selected non-zero account id having its `str` among the distribution keys |
| BranchPL.FilterByDistribution | wizard/optical_branch_pl_wizard.py:66-73 | The filtering loop keeps exactly the items the specification keeps, in order |
| BranchPL.AccountsSpec | wizard/optical_branch_pl_wizard.py:82-95 | The grouped accounts are distinct, and an account is grouped exactly when some kept item is on it |
| BranchPL.GroupByAccount | wizard/optical_branch_pl_wizard.py:82-95 | The accumulated dictionary has exactly the grouped accounts in first-appearance order, and each account's total is the sum of the balances of its kept items |
| BranchPL.RowsPartition | wizard/optical_branch_pl_wizard.py:97-106 | Every grouped account appears once, in the income list when it is income or other income and in the expense list otherwise. Every listed row comes from such an account |
| BranchPL.SplitByType | wizard/optical_branch_pl_wizard.py:97-106 | The loop builds the two lists with negated balances for income, and the running totals are the sums of the lists' amounts |
| BranchPL.NetProfitIsNegatedBalance | wizard/optical_branch_pl_wizard.py:99-118 | Income total minus expense total is the negated sum of the balances of all kept items |
| BranchPL.SortByCodeSpec | wizard/optical_branch_pl_wizard.py:114-115 | The sort by code yields a list ordered by code that is a permutation of its input with the same sum |
| BranchPL.ReportValues | wizard/optical_branch_pl_wizard.py:35-120 | Fails without form data, and fails when no selected branch has an analytic account, before any item is read. Otherwise it returns the report of the kept items |
| BranchPL.ReportOfSpec | wizard/optical_branch_pl_wizard.py:97-118 | Both lists are sorted by code and every grouped account is listed once. The totals are the sums of the listed amounts, and the net profit is total income minus total expense, which is the negated balance of the kept items |
| BranchPL.ReportOfLines | wizard/optical_branch_pl_wizard.py:97-115 | A row is listed as income (expense) exactly when it is the shown total of a grouped income (non-income) account |
| Decimal.DigitsValueOfDecimal | wizard/optical_branch_pl_wizard.py:67 | Reading back the numeral `str(id)` gives the id |
| Decimal.DecimalStringInjective | wizard/optical_branch_pl_wizard.py:67-72 | Distinct account ids have distinct numerals, so a distribution key names at most one account |
| PartnerPos.SecondSegment | models/res_partner_pos_ext.py:104 | `split(',')[1]` exists exactly when the text contains a comma |
| PartnerPos.DataUrlPayload | models/res_partner_pos_ext.py:103-104 | For a data URL `header,payload` (RFC 2397, section 3) the value kept is the payload |
| PartnerPos.NormaliseImage | models/res_partner_pos_ext.py:102-104 | A falsy image is left alone. A truthy string image with a comma becomes its second segment, and any other truthy image raises |
| PartnerPos.Stripped | models/res_partner_pos_ext.py:112-123 | The values written to an existing partner are all keys but `id` and the ten optical keys, with their values |
| PartnerPos.PopOpticalKeys | models/res_partner_pos_ext.py:112-119 | The loop popping the optical keys leaves exactly those values |
| PartnerPos.DobNormalised | models/res_partner_pos_ext.py:127-129 | A present but falsy date of birth becomes False. Every other key and value is kept |
| PartnerPos.Slug | models/res_partner_pos_ext.py:174 | The name with spaces replaced by underscores and lowered: same length, no space, no upper-case letter |
| PartnerPos.EmailFallback | models/res_partner_pos_ext.py:173-174 | The fallback address is the slug of the name followed by `@pos.local`, and raises exactly when the name is not text |
| PartnerPos.EmailFallbackShape | models/res_partner_pos_ext.py:174 | The fallback address ends in `@pos.local` and contains no space and no upper-case letter |
| PartnerPos.EmailFallbackWithoutName | models/res_partner_pos_ext.py:174 | Without a name key the fallback is `patient@pos.local` |
| PartnerPos.PhoneFallback | models/res_partner_pos_ext.py:177-178 | The fallback phone is the mobile value when the key exists, even an empty one, and `N/A` only when it is absent |
| PartnerPos.IntOf | models/res_partner_pos_ext.py:202 | `int()` keeps integers and raises on None, lists and dictionaries |
| PartnerPos.IntOfNumeral | models/res_partner_pos_ext.py:202 | A company id sent as its numeral is converted back to that id |
| PartnerPos.IfTruthy | models/res_partner_pos_ext.py:208-215 | An optional insurance key is present exactly when the client's value is truthy, and then holds that value |
| PartnerPos.PatientValues | models/res_partner_pos_ext.py:157-187 | Fails exactly when an email fallback is needed and the name is not text. Gives no values exactly when neither the session nor the default branch provides a branch. Otherwise the patient values are built key by key: the date of birth falls back to today, `has_insurance` holds exactly when company and policy are both truthy, and the email, phone and branch fallbacks apply |
| PartnerPos.InitialPatientVals | models/res_partner_pos_ext.py:158-170 | Before the patches: name, phone, mobile and email as given (empty-text defaults), date of birth falling back to today, the session branch or False, and `has_insurance` exactly when company and policy are both truthy |
| PartnerPos.PatchEmail | models/res_partner_pos_ext.py:173-175 | A truthy email is kept. A falsy one becomes the slug of the name (default `patient`) at `pos.local`, and the patch fails exactly when that name is not text |
| PartnerPos.InsuranceValues | models/res_partner_pos_ext.py:198-215 | The insurance record gets the patient, the company, the policy as name, today and active, plus each optional key only when truthy |
| PartnerPos.CreatePatient | models/res_partner_pos_ext.py:146-225 | Without a branch, or when the patient creation raises, a plain partner is created from the dictionary without its insurance keys. An insurance record is created exactly when company and policy are both truthy and the company converts; a company that does not convert falls back to a plain partner |
| PartnerPos.CreateFromUi | models/res_partner_pos_ext.py:94-225 | Covers the image failure, and the existing partner, which is written only when keys remain and whose original id is returned. It covers a new partner outside an optical point of sale, created with the normalised date of birth, and the optical path with the outcome above |
| PartnerPos.LatestActive | models/res_partner_pos_ext.py:79-85 | None exactly when the patient has no active insurance. Otherwise the result is one of the patient's active insurances and no other active one has a later date |
| PartnerPos.PartnerRecord.constructor | models/res_partner_pos_ext.py:70-77 | A partner starts with all seven insurance fields False |
| PartnerPos.ComputeInsuranceFields | models/res_partner_pos_ext.py:66-92 | After the loop every partner shows its latest active insurance in all seven fields, with `has_insurance` true, or all fields False when there is none |
| PartnerPos.PartnerRecord.Fill | models/res_partner_pos_ext.py:70-92 | One partner: the seven fields show the given insurance, or are all False without one |
| AccountMove.InsurancePaymentsOf | models/account_move_ext.py:62-68 | The invoice's insurance payments are exactly the records pointing at it, kept in the host's order: the first record pointing at the invoice comes first |
| AccountMove.InsuranceCompanySpec | models/account_move_ext.py:63-70 | The company is False exactly when there are no insurance payment records, and otherwise it is the company of one of them (which one: InvoiceInsuranceCompany) |
| AccountMove.InsuranceCompanyOfOneCompany | models/account_move_ext.py:65-68 | When all records share one company, that company is shown |
| AccountMove.InvoiceInsuranceCompany | models/account_move_ext.py:62-70 | The company shown on an invoice is False exactly when no insurance payment record points at it, and otherwise the company of the first record (pointing at the invoice) |
| AccountMove.CountActivePositive | models/account_move_ext.py:80-84 | The count of active insurances is positive exactly when the partner has an active insurance |
| AccountMove.PatientHasInsuranceSpec | models/account_move_ext.py:72-85 | The flag is False without a partner, and otherwise true exactly when the partner has an active insurance, which is exactly when the partner's own computed insurance is found |
| JsValues.Or | static/src/js/optical_test_popup.js:162-178 | `a \|\| b` is `a` when truthy and `b` otherwise |
| JsValues.Trim | static/src/js/optical_test_popup.js:147 | The result is a slice of the input with only white space or line terminators before and after it, and it has none at either end |
| JsValues.TrimCharacterised | static/src/js/optical_test_popup.js:147 | Any slice of the input with only white space around it and none at its ends is the trimmed text, so the contract of `Trim` determines it |
| JsValues.ParseInt | static/src/js/optical_test_popup.js:202 | `parseInt(s, 10)` (ECMAScript section 19.2.5). Empty or all-white-space text gives NaN. Text whose first non-space character is a digit gives a non-negative number. Text whose first non-space character is neither a digit nor a sign gives NaN. A negative result needs a leading minus |
| JsValues.ParseIntOfNumeral | static/src/js/optical_test_popup.js:202 | The numeral of a natural number parses back to it |
| JsValues.ParseIntStopsAtNonDigit | static/src/js/optical_test_popup.js:202 | Parsing stops at the first non-digit: digits followed by other text give the digits' value |
| JsValues.StringToNumberOfDigits | static/src/js/optical_test_popup.js:226 | A plain numeral compares as its value against a number |
| JsValues.StringToNumberOfDigitsAndLetter | static/src/js/optical_test_popup.js:226 | A numeral followed by a letter that starts no literal form compares as NaN, so neither `<` nor `>` holds |
| TestPopup.Validate | static/src/js/optical_test_popup.js:211-241 | Valid exactly when OD or OS has a sphere, cylinder, axis or VA and no filled axis compares outside 0..180. Each failure kind (shown with its own message) is characterised by its own if-and-only-if, which fixes the order: measurement, then OD axis, then OS axis |
| TestPopup.ValidateIgnoresOtherFields | static/src/js/optical_test_popup.js:213-216 | Prism, add, PD and height never change the validation result |
| TestPopup.InitialStateInvalid | static/src/js/optical_test_popup.js:30-69 | A freshly set-up popup fails validation with the measurement message |
| TestPopup.ParseIntField | static/src/js/optical_test_popup.js:198-204 | `_parseInt` gives false for `""`, null and undefined, and otherwise the `parseInt` result, with NaN as false |
| TestPopup.TrimmedText | static/src/js/optical_test_popup.js:147 | Text is replaced by its trim, null and undefined by `""`. The result never has white space at either end, and text that is already trimmed is kept |
| TestPopup.GetPayload | static/src/js/optical_test_popup.js:139-182 | The axes are the `_parseInt` of the inputs. VA, workshop number and notes are the trimmed state values. Every flag, id and date is the state's value when truthy and false otherwise |
| TestPopup.ValidatedNumeralAxisInRange | static/src/js/optical_test_popup.js:198-231 | An OD axis typed as a plain numeral that passed validation is stored as its value, and that value lies in 0..180 |
| TestPopup.AxisTextSlipsThrough | static/src/js/optical_test_popup.js:198-231 | An OD axis typed as `200x` passes validation, because the comparison sees NaN, and is stored as 200 by `parseInt` |
| TestPopup.OpticalTestPopup.constructor | static/src/js/optical_test_popup.js:24-69 | The popup starts from the set-up state, not closed and without errors |
| TestPopup.OpticalTestPopup.Confirm | static/src/js/optical_test_popup.js:246-259 | A failing validation shows its message and leaves the popup open. Otherwise the popup closes confirmed with the payload of the current state |
| TestPopup.OpticalTestPopup.Cancel | static/src/js/optical_test_popup.js:264-266 | The popup closes unconfirmed with a null payload |
| PaymentExt.PaymentLine.constructor | static/src/js/optical_models_ext.js:18-22 | A falsy insurance flag left by the host becomes false and falsy data becomes null. Truthy values are kept |
| PaymentExt.PaymentLine.ExportAsJson | static/src/js/optical_models_ext.js:24-29 | The JSON is the host's JSON with `is_insurance` and `insuranceData` added. No other key is removed or changed |
| PaymentExt.Restored | static/src/js/optical_models_ext.js:31-35 | Truthy values in the JSON are restored as they are. A missing or falsy flag comes back as false, and missing or falsy data as null |
| PaymentExt.PaymentLine.InitFromJson | static/src/js/optical_models_ext.js:31-35 | The line takes the restored insurance fields: truthy JSON values as they are, false and null for falsy or missing ones. Amount and details are kept |
| PaymentExt.ExportThenRestore | static/src/js/optical_models_ext.js:24-35 | Exporting a normalised line and initialising from that JSON gives back both insurance fields |
| PaymentExt.ExportThenRestoreNormalises | static/src/js/optical_models_ext.js:33 | A falsy flag comes back as false |
| PaymentExt.DetailsOf | static/src/js/optical_models_ext.js:138-145 | Each of the eight details is the payload's field of the same name, undefined when the payload lacks it |
| PaymentExt.Unwrapped | static/src/js/optical_models_ext.js:48 | The payment method is the event's `detail` when the argument is truthy and has a defined `detail`, and the argument itself otherwise |
| PaymentExt.Route | static/src/js/optical_models_ext.js:46-56 | An insurance method goes to the insurance flow, exactly when the unwrapped method is truthy with a truthy `is_insurance_method`. Anything else goes to the host with the original argument |
| PaymentExt.RouteWrappedAgrees | static/src/js/optical_models_ext.js:48-53 | A method sent directly and the same method wrapped as `{detail: method}` reach the insurance flow alike, with the same method |
| PaymentExt.RouteOfNothing | static/src/js/optical_models_ext.js:48-55 | A missing method goes to the host |
| PaymentExt.HandleInsurancePayment | static/src/js/optical_models_ext.js:58-148 | The due amount is the order total minus the payment lines. Nothing changes when it is at most 0. Without a customer, the "No Customer Selected" error is shown and no line is added. On confirmation with a payload and a line from the host, exactly one fresh line is added, carrying the whole due amount, the insurance flag, the payload as its data and the payload's details, and the order is then fully paid (due 0), so a second insurance payment changes nothing. Otherwise nothing changes |
| PaymentExt.AddInsuranceLine | static/src/js/optical_models_ext.js:131-146 | One fresh line is appended for the method, carrying the given amount, the insurance flag, the payload and its details. The due amount drops by exactly that amount, and total, customer and errors are kept |
| PaymentExt.AddNewPaymentLine | static/src/js/optical_models_ext.js:46-56 | A non-insurance argument leaves the order to the host. On the insurance route the order goes through the four outcomes of the insurance flow with the routed method: no change when nothing is due, the no-customer error, no change without a confirmed payload and a host line, or one fresh line for the whole due amount |
| PaymentExt.OrderUi.constructor | static/src/js/optical_models_ext.js:59-60 | A fresh order with no payment lines owes its whole total |

## Left out

- Host persistence and accounting: record creation and writes, `reconcile()`, `action_post()` and rollbacks. These are inputs or parameters, or their effect is recorded as values (`Effect`, `ParentRun`).
- Floating point: `_parseFloat`, so the sphere, cylinder, prism, add, PD and height values of the test payload are not modelled. Monetary rounding is not modelled either: amounts are integers in minor units.
- Logging and console output.
- `add_payment` (models/pos_order_ext.py:61-98) is not modelled. It only reshapes the payment data around the record creation, whose value defaults are modelled by `InsurancePaymentValues`.
- `action_pos_order_paid` is not modelled; it runs the requirement checks per order before the host.
- `_apply_location_analytic_to_invoice` is not modelled. It applies the same account choice to already created invoice lines through the ORM.
- `optical_register_balance_payment` is mostly host accounting and is not modelled.
- The read-only report and RPC builders and `optical_create_test` are not modelled. The latter copies `add_od` into `add_os` at line 442.
- `_compute_is_optical_patient` is not modelled; it is a single existence search.
- Concurrency: concurrent edits between the insurance-total validation and payment, and the transactional visibility the zero-and-restore wrapper relies on.
- PosOrder.ApplyInvoicePayments: the `is_reverse` argument is passed to the host unchanged and is not modelled.
- PosOrder.FinalizePayments: the invoice's display fields are not part of the modelled answer (number, state, payment state, totals). The generic exception handler, which turns a host error into an error answer, is not modelled.
- PosOrder.CheckRequirements: the formatting of the amounts in the error message (`%.2f`) is not modelled; the error carries the two totals.
- BranchPL.ReportValues: the report's pass-through values (document ids, dates, branch records, company) are not modelled.
- PartnerPos.LatestActive: among active insurances with the same latest date, the model takes the first in the host's order. The host's tie order for `order='date desc'` is not specified.
- PartnerPos.Slug: lowers ASCII letters only; Python's `str.lower()` also maps other Unicode letters.
- PartnerPos.IntOf: accepts only integers, booleans and plain digit strings. Python's `int()` also accepts surrounding white space, a sign, underscores and floats.
- PartnerPos.CreatePatient: the insurance creation by the host is assumed to succeed; only the `int()` conversion is modelled as a raise inside the guarded block.
- PartnerPos.CreateFromUi: logging and the session search are not modelled; the session is an input.
- TestPopup.GetPayload: the floating-point measurement fields are left out (see above).
- TestPopup.TextNumber: only text, null and undefined inputs are converted; a number-typed input, which the form's text fields do not hold, is not modelled. Exact reals stand for the double-precision result, so numerals too long or too precise for a double are compared exactly, and `-0` is 0.
- TestPopup.OpticalTestPopup.Confirm: the error popup is recorded by its message only; its title and the `await` are not modelled.
- PaymentExt.PaymentLine.InitFromJson: the host's own `init_from_JSON` fields are not modelled; only the two insurance fields are restored.
- PaymentExt.HandleInsurancePayment: the ORM loads of insurance companies and policies only feed the selection popup, whose answer is an input. The guard for a selection popup component that failed to load is not modelled, because the component is a static import.
- PaymentExt.OrderUi.Due: the host's `get_due()` is modelled as the order total minus the amounts of its payment lines; its rounding and its handling of a change line are not modelled.
- JsValues.JsValue: numbers are integers. Fractional JavaScript numbers do not occur in the modelled paths except through the text comparison, which uses exact reals.
