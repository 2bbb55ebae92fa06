# B2B ordering platform — a verified Dafny model of its core

This project models the core of a multi-tenant B2B ordering application
written in Ruby on Rails. Companies (the tenants) place orders for items on
behalf of their delivery centers; manufacturers ship them; an internal
operator administers companies, payments and members. The model covers:

- the per-company order-number sequence (`Companies.Company.GenerateNextOrderNo`)
  and the order/order-line life cycle: status machine, amount and CO2
  snapshots, totals recalculation, tenant consistency of customers and items;
- the two approval workflows — membership approval requests that activate or
  reject a user profile, and order approval requests that confirm the order
  on approval and leave it unchanged on rejection — with their reviewer
  rules and one-request-per-order uniqueness;
- every authorization policy and policy scope, with tenant isolation proved
  for each scope (a user outside the internal admins never sees another
  company's rows);
- the validators and small helpers: center hierarchy, domain and prefix
  formats, password rules, payment periods, digit grouping, month parsing,
  the fiscal year of the dashboard, sign-in and failure-message routing;
- the three row-accumulating importers (customer CSV, center assignment CSV,
  shipment CSV) as loops over a given sequence of rows, with row numbering,
  per-row error accumulation and counters;
- the controller decisions around them (before-action filters, parameter
  normalisation, sort whitelists, company selection, soft deletes);
- two data migrations: the role renumbering that introduced the approver
  role, and the clearing of approvers on billing centers.

Each source file is one Dafny module named after it. Entities whose fields
the code updates in place (`Company`, `Order`, `OrderLine`,
`ApprovalRequest`, `OrderApprovalRequest`, the importers' stores, the
migrations' tables) are classes with `modifies` frames; every other entity is
a datatype, and a database table is a `map` from id to row. Amounts are
`real` (the source's decimals), dates are `Date(year, month, day)` values,
and "today", parsing of dates and CSV text, and failures of the database
are parameters. Profiles are modelled in the schema that still has
`user_profiles.supervisor_id`. Migration
`db/migrate/20260230000000_remove_supervisor_from_user_profiles.rb` drops that
column. With it applied, every profile validation raises, and every order is
confirmed at once because the supervisor's user is always nil. Both effects
are stated under "## Findings".

Where two parts of the source disagree the model follows each part as
written and states the disagreement as a lemma: an approver named on a
receiving center passes the order-approval policy yet fails the
reviewed-by validation when approving
(`OrderApprovalRequestPolicy.ApproverPassesPolicyButReviewFails`). The
controller's billing-center test and `is_billing_center?` are written over
different raw values, but the column is boolean and is cast on assignment,
so the model method only reads booleans, on which the two tests agree
(`CustomersController.ControllerAndModelFlagReadings`).

## Model

| member | source | states |
|---|---|---|
| Companies.ParseOrderNumber | app/models/company.rb:55 | a parsed order number starts with the prefix and a dash and has at least seven digits after it |
| Companies.PadLeftIsZeros | app/models/company.rb:55 | `rjust(7, '0')` on a short numeral prefixes exactly the missing zeros |
| Companies.OrderNumberRoundTrip | app/models/company.rb:55 | the number formatted from any sequence value reads back to that value |
| Companies.OrderNumberInjective | app/models/company.rb:53-55 | distinct sequence values give distinct order numbers |
| Companies.OrderNumberShape | app/models/company.rb:55 | the numeral is padded to at least seven digits and never truncated; the digits end the number |
| Companies.OrderNumberExamples | app/models/company.rb:55 | 1 gives "ORD-0000001", 1000000 gives "ABC-1000000", 10000000 gives "ABC-10000000" |
| Companies.PrefixErrors | app/models/company.rb:24-25 | no prefix error iff the prefix has 1 to 10 characters, all `A-Z0-9` |
| Companies.DashAfterPrefix | app/models/company.rb:25-55 | for a valid prefix the first dash of the number is the one right after the prefix |
| Companies.OrderNumberPrefixesDisjoint | app/models/company.rb:25-55 | two companies with different valid prefixes never issue the same order number |
| Companies.Company.constructor | app/models/company.rb:3-28 | a company row holds the given columns and no address |
| Companies.Company.GenerateNextOrderNo | app/models/company.rb:50-56 | `order_seq` grows by exactly one and the result is the prefix, a dash and the padded new value |
| Companies.Company.Errors | app/models/company.rb:21-28 | a valid company has a valid prefix and `order_seq` >= 0; the code is taken iff another company has it |
| Companies.FieldErrors | app/models/company.rb:21-28 | there are no errors if and only if name and code are present and bounded, the code is unique, the payment terms are blank or bounded, the prefix is valid, `order_seq` >= 0, and the domains are a non-empty array of valid domains (together with app/models/company.rb:61-77) |
| Companies.TextFieldErrors | app/models/company.rb:21-23 | no error from the name, code and payment-terms validations if and only if each is present, unique and within its length as required |
| Companies.DomainFieldErrors | app/models/company.rb:27-28 | no domain error if and only if the domains are a non-empty array whose every entry is a valid domain |
| Companies.TwoDraws | app/models/company.rb:52-56 | two successive draws return different numbers and advance the sequence by two |
| Companies.FirstWithDomain | app/models/company.rb:38-41 | the first active company listing the domain, or none exactly when no active company lists it |
| Companies.FindByEmailDomain | app/models/company.rb:34-42 | nil for a blank domain; otherwise the first active company listing the lower-cased domain, nil only when none does |
| MultiTenant.ForCompany | app/models/concerns/multi_tenant.rb:14-15 | exactly the rows of company `c`, unchanged |
| MultiTenant.ForCompanyIsolation | app/models/concerns/multi_tenant.rb:14 | the scope of one company never holds another company's row; two companies' scopes are disjoint |
| MultiTenant.ForCompanyInsert | app/models/concerns/multi_tenant.rb:14 | inserting a row changes only the scope of that row's company |
| MultiTenant.FindForCompany | app/models/concerns/multi_tenant.rb:22-24 | the record is found iff it exists and belongs to the company |
| MultiTenant.FindForCompanyBang | app/models/concerns/multi_tenant.rb:26-30 | found exactly as `find_for_company`; otherwise the "not found or access denied" error |
| MultiTenant.FindForCompanyBangHidesTenant | app/models/concerns/multi_tenant.rb:26-30 | a missing id and another tenant's id give the same outcome |
| Manufacturers.ManufacturerErrors | app/models/manufacturer.rb:13-16 | code taken iff another manufacturer has it; domains checked only as a non-empty array, each entry a valid domain string (together with app/models/manufacturer.rb:40-47) |
| Manufacturers.FirstWithDomain | app/models/manufacturer.rb:27-31 | the first active manufacturer with a non-empty list containing the domain, none exactly when no such one exists |
| Manufacturers.FindByEmailDomain | app/models/manufacturer.rb:23-32 | nil for a blank domain; otherwise the first active manufacturer listing the lower-cased domain |
| Domains.RenderedIsValid | app/models/company.rb:72 | every name built from the pattern's parts (labels joined by one `-` or `.`, a final `.` and two or more letters) passes the domain check |
| Domains.ValidHasParts | app/models/company.rb:72 | every name that passes the domain check is built from the pattern's parts: the pattern admits nothing more |
| Domains.DowncasePreservesValidity | app/models/company.rb:72 | the pattern is case-insensitive: lower-casing a name does not change whether it is valid (together with app/models/manufacturer.rb:42) |
| Domains.InvalidEntries | app/models/company.rb:73-77 | one error per entry that is not a matching string, none iff every entry is valid |
| Domains.CompanyDomainErrors | app/models/company.rb:27 | no domain error iff the value is a non-empty array of valid domain strings; a scalar is "must be an array"; an empty array is blank and "must have at least one" (together with app/models/company.rb:61-77) |
| Domains.ManufacturerDomainErrors | app/models/manufacturer.rb:40-47 | a scalar or an empty list gives no error; otherwise no error iff every entry is a valid domain string |
| Domains.EmailDomain | app/models/company.rb:35-36 | the lookup key, when there is one, is present and holds no `@` (together with app/models/manufacturer.rb:24-25) |
| Domains.EmailDomainOf | app/models/company.rb:35 | for `local@domain` the key is the lower-cased domain |
| Domains.EmailWithoutAt | app/models/company.rb:35 | an address without `@` is its own (lower-cased) key |
| Domains.NormalizeDomainsParam | app/controllers/admin/companies_controller.rb:66-69 | a one-element list is split into clean lines (stripped, present, no newline); any other list passes unchanged; nil stays nil (together with app/controllers/manufacturers_controller.rb:66-68) |
| Domains.CleanLinesClean | app/controllers/admin/companies_controller.rb:68 | every line kept by `map(&:strip).reject(&:blank?)` is stripped and present |
| Domains.NormalizeRoundTrip | app/controllers/admin/companies_controller.rb:66-69 | a list of clean domains shown one per line in the textarea and submitted back is recovered exactly |
| Common.CodeAndNameInjective | app/models/customer.rb:44-46 | for codes without a colon, the `"code: name"` label determines both the code and the name (together with app/models/item.rb:30-32, app/models/manufacturer.rb:34-36) |
| Common.JoinPresentSkipsBlank | app/models/customer.rb:40-42 | a blank address part does not change the joined address (together with app/models/issuer_setting.rb:12-14) |
| Common.JoinPresentAllPresent | app/models/customer.rb:40-42 | with every part present the parts are joined in order with single spaces (together with app/models/issuer_setting.rb:12-14) |
| Common.StripIdempotent | app/controllers/shipping_requests_controller.rb:76-88 | `strip` applied twice is `strip` applied once |
| Common.ToIOfIntToString | app/controllers/items_controller.rb:15-16 | `to_i` inverts `to_s` on every integer (together with app/controllers/admin/company_payments_controller.rb:30-31) |
| Common.MonthStart | app/controllers/dashboard_controller.rb:80-82 | `Date.new(y, m, 1)` is day 1 of that month for months 1..12, also accepts -12..-1, and raises for a nil part or any other month |
| Orders.StatusOfCode | app/models/order.rb:8-14 | the status enum is exactly the codes 0..4, and decoding a code gives the status with that code |
| Orders.StatusCodeRoundTrip | app/models/order.rb:8-14 | every status survives being stored as its code and read back |
| Orders.StatusGates | app/models/order.rb:86-92 | `can_be_edited?` iff draft or confirmed, `can_be_cancelled?` iff neither delivered nor cancelled; editable orders are cancellable |
| Orders.SumColumnAppend | app/models/order.rb:79-84 | the sum of a column over two lists of lines is the sum of the two sums |
| Orders.SumColumnPermutation | app/models/order.rb:79-84 | the totals do not depend on the order the lines are listed in |
| Orders.SumColumnNonNegative | app/models/order.rb:29-30 | lines with non-negative amounts give a non-negative total (together with app/models/order_line.rb:15-16) |
| Orders.OrderErrors | app/models/order.rb:24-31 | an error is reported iff its rule is broken: missing fields, `total_amount` < 0, `co2_total` < 0, a duplicate `order_no` in the company, a customer of another company, a missing `company_id` (together with app/models/order.rb:134-140) |
| Orders.ValidOrderNumbersUnique | app/models/order.rb:24 | two valid orders of one company never share an `order_no` |
| Orders.ForeignCustomerInvalid | app/models/order.rb:134-140 | an order whose customer belongs to another company is invalid |
| Orders.ShippingKeepsErrors | app/models/order.rb:94-100 | marking an order shipped does not change which validations it fails |
| Orders.Order.constructor | app/models/order.rb:53-57 | a new order holds the given attributes, with no order number and no company yet |
| Orders.Order.SetRow | app/models/order.rb:3-31 | the columns become the given row |
| Orders.Order.Errors | app/models/order.rb:24-31 | the errors of the current row are exactly the broken rules (together with app/models/order.rb:134-140) |
| Orders.Order.Update | app/models/order.rb:80-83 | `update!` writes the new row and succeeds iff that row is valid |
| Orders.Order.Ship | app/models/order.rb:94-100 | status becomes shipped with the given tracking number and ship date, nothing else changes, and the prior status is not checked |
| Orders.Order.Deliver | app/models/order.rb:102-107 | status becomes delivered with the given date, nothing else changes, and the prior status is not checked |
| Orders.Order.ShipWithCarrier | app/models/order.rb:94-100 | the intended three-argument ship: status shipped plus carrier, tracking number and date (see Findings) (together with app/controllers/shipping_requests_controller.rb:105) |
| Orders.Order.Cancel | app/models/order.rb:109-111 | status becomes cancelled and nothing else changes |
| Orders.Order.RecalculateTotals | app/models/order.rb:79-84 | `total_amount` becomes the sum of line amounts and `co2_total` the sum of line `co2_amount`s; nothing else changes |
| Orders.Order.SetOrderNo | app/models/order.rb:120-125 | a number is drawn from the company sequence only when `order_no` is blank and a company is set, so at most one draw |
| Orders.Order.SnapshotCustomerAddress | app/models/order.rb:127-132 | the shipping address is copied from the customer only when there is a customer and `ship_center_name` is blank |
| Orders.RecalculateTwice | app/models/order.rb:79-84 | recalculating twice without line changes gives the same row |
| Orders.LineItem | app/models/order.rb:62 | a line's item is found only when it exists and belongs to the order's company |
| Orders.BuildLine | app/models/order.rb:62-70 | a built line snapshots the item's current unit price and its amount is that price times the quantity; a foreign or missing item is not found |
| Orders.BuildLines | app/models/order.rb:61-71 | every attribute set gives one line |
| Orders.BuildLinesStops | app/models/order.rb:54-75 | the first line that fails aborts the whole creation |
| Orders.BuildLinesTenantSafe | app/models/order.rb:62 | every created line uses an item of the order's company |
| Orders.BuildLinesTotalNonNegative | app/models/order.rb:68 | with valid items, the total of the created lines is non-negative (together with app/models/item.rb:18-22) |
| Orders.CreateWithLines | app/models/order.rb:53-76 | on success: one draw of the sequence, the order number of the new value, lines built from the company's items, totals equal to the line sums, a valid order; any failing line aborts; and conversely it succeeds whenever the created row is valid, every line builds and the row with the line totals is valid |
| Orders.CreateLines | app/models/order.rb:61-71 | the loop creates exactly the lines of the specification, or stops at the first not-found item |
| OrderLines.Calculate | app/models/order_line.rb:26-34 | the snapshot is kept if present, else taken from the item; amount = snapshot x quantity; co2 = (co2_per_unit or 0) x quantity; cost and shipping snapshots re-copied from the item |
| OrderLines.SnapshotKept | app/models/order_line.rb:29-32 | an existing snapshot is never overwritten and the amount uses it |
| OrderLines.CalculateIdempotent | app/models/order_line.rb:26-34 | calculating twice equals calculating once |
| OrderLines.CalculatedAmountsNonNegative | app/models/order_line.rb:32-33 | with a valid item and positive quantity the amounts are non-negative (together with app/models/item.rb:18-22) |
| OrderLines.LineErrors | app/models/order_line.rb:12-17 | an error is reported iff its rule is broken: quantity an integer > 0, snapshot and amount present and >= 0, co2 nil or >= 0, a present item of the same company; a missing item is no validation error, since `belongs_to` is optional without framework defaults (together with app/models/order_line.rb:50-56) |
| OrderLines.CalculatedLineValid | app/models/order_line.rb:12-34 | a line calculated from a valid own-company item with positive quantity is valid |
| OrderLines.OrderLine.constructor | app/models/order_line.rb:3-17 | a new line holds the given columns and no shipment data |
| OrderLines.OrderLine.CalculateAmounts | app/models/order_line.rb:26-34 | nothing changes without item or quantity; otherwise the amounts become `Calculate`'s; other columns are untouched |
| OrderLines.OrderLine.BeforeValidation | app/models/order_line.rb:20-48 | amounts are recalculated only when quantity or item changed or the line is new |
| OrderLines.OrderLine.Errors | app/models/order_line.rb:12-17 | the errors of the current line are exactly the broken rules of `LineErrors`, with no error for a missing item (together with app/models/order_line.rb:50-56) |
| OrderLines.ForeignItemInvalid | app/models/order_line.rb:50-56 | a line whose item belongs to another company is invalid |
| Customers.PostalFormatDash | app/models/customer.rb:18-19 | seven digits are a valid postal code with or without the dash after the third digit |
| Customers.CustomerErrors | app/models/customer.rb:15-27 | an error is reported iff its rule is broken: code present, at most 50 and unique in the company; name present; postal format and field lengths; billing center of the same company, itself a billing center, not the center itself (the source skips that last rule while the record has no id, i.e. on create, where the model applies it to the id the create will assign; they differ only for a create that posts exactly that not-yet-assigned id, which the source accepts and the model refuses); a receiving center must name one (together with app/models/customer.rb:62-93) |
| Customers.ValidReceivingCenterHierarchy | app/models/customer.rb:62-93 | a valid receiving center references a billing center other than itself, and when that center exists it is a billing center of the same company |
| Customers.ReceivingWithoutBillingInvalid | app/models/customer.rb:86-93 | a receiving center with no billing center is invalid |
| Customers.ToShippingSnapshot | app/models/customer.rb:49-58 | each address field goes to its `ship_` counterpart and the center name to `ship_center_name` |
| Customers.SnapshotPrintsAsCustomer | app/models/customer.rb:40-42 | the order's shipping address copied from a customer prints exactly as the customer's `full_address` (together with app/models/order.rb:113-116) |
| Items.ItemErrors | app/models/item.rb:15-22 | an error is reported iff its rule is broken: code present, at most 50, unique in the company; name present, at most 255; price present with 0 <= price < 10,000,000,000; co2, cost and shipping nil or >= 0; `company_id` present |
| Items.ValidItemPrices | app/models/item.rb:18-22 | a valid item has a price in [0, 10,000,000,000) and non-negative optional amounts |
| Items.ValidItemCodesUnique | app/models/item.rb:15-16 | two valid items of one company never share an item code |
| ApprovalRequests.RequestStatusOfCode | app/models/approval_request.rb:8 | the status enum is exactly the codes 0..2, and decoding inverts the code |
| ApprovalRequests.ReviewerAdmittedRoles | app/models/approval_request.rb:55-63 | an admitted reviewer can approve members; an internal admin is always admitted; normal users and approvers never are |
| ApprovalRequests.RequestErrors | app/models/approval_request.rb:15-18 | an error is reported iff its rule is broken: while pending, another request for the same profile and company (of any status) exists; a reviewer that is neither internal admin nor the company's admin; a missing `company_id` (together with app/models/approval_request.rb:55-63) |
| ApprovalRequests.ValidPendingIsOnly | app/models/approval_request.rb:16-17 | a valid pending request is the only request of its profile in its company |
| ApprovalRequests.Review | app/models/approval_request.rb:25 | status, reviewer, time and comment are written together; a saved change to approved activates the profile and to rejected rejects it; no profile change without a saved status change (together with app/models/approval_request.rb:28-47, app/models/approval_request.rb:65-72) |
| ApprovalRequests.ApprovalActivatesMember | app/models/approval_request.rb:28-36 | a pending request approved by an admitted reviewer is saved and its profile becomes active (together with app/models/approval_request.rb:65-68) |
| ApprovalRequests.NonAdminReviewFails | app/models/approval_request.rb:18 | a reviewer who is not admitted fails `update!` and no profile changes (together with app/models/approval_request.rb:55-63) |
| ApprovalRequests.ApprovalRequest.constructor | app/models/approval_request.rb:3-18 | a request holds the given row |
| ApprovalRequests.ApprovalRequest.ReviewAs | app/models/approval_request.rb:28-47 | the request and the profiles become what `Review` gives, or nothing changes when `update!` fails |
| ApprovalRequests.ApprovalRequest.Approve | app/models/approval_request.rb:28-36 | `approve!` is `Review` to approved, keeping the comment; the prior status is not checked |
| ApprovalRequests.ApprovalRequest.Reject | app/models/approval_request.rb:38-47 | `reject!` is `Review` to rejected with the given comment; the prior status is not checked |
| ApprovalRequests.RequestTable.constructor | app/models/approval_request.rb:3-18 | the table holds the given rows |
| ApprovalRequests.RequestTable.Create | app/models/approval_request.rb:15-18 | a new request is stored iff its id is new and it passes validation; otherwise the table is unchanged |
| OrderApprovalRequests.OrderRequestErrors | app/models/order_approval_request.rb:15-17 | an error is reported iff its rule is broken: another request for the same order exists in any status; a reviewer that is neither internal admin nor the company's admin; a missing `company_id` (together with app/models/order_approval_request.rb:54-62) |
| OrderApprovalRequests.OneRequestPerOrder | app/models/order_approval_request.rb:16 | a valid request is the only request of its order |
| OrderApprovalRequests.ReviewOrder | app/models/order_approval_request.rb:24 | status, reviewer, time and comment are written together; the order changes only on a saved change to approved, and then only to confirmed (together with app/models/order_approval_request.rb:27-46, app/models/order_approval_request.rb:64-71) |
| OrderApprovalRequests.RejectionKeepsOrder | app/models/order_approval_request.rb:68-71 | rejecting never changes the order |
| OrderApprovalRequests.AdminApprovalConfirms | app/models/order_approval_request.rb:27-35 | a pending request approved by an admitted reviewer is saved and its order becomes confirmed (together with app/models/order_approval_request.rb:64-67) |
| OrderApprovalRequests.OrderApprovalRequest.constructor | app/models/order_approval_request.rb:3-17 | a request holds the given row |
| OrderApprovalRequests.OrderApprovalRequest.ReviewAs | app/models/order_approval_request.rb:27-46 | the request and its order become what `ReviewOrder` gives, or nothing changes when `update!` fails |
| OrderApprovalRequests.OrderApprovalRequest.Approve | app/models/order_approval_request.rb:27-35 | `approve!` is `ReviewOrder` to approved; the prior status is not checked |
| OrderApprovalRequests.OrderApprovalRequest.Reject | app/models/order_approval_request.rb:37-46 | `reject!` is `ReviewOrder` to rejected with the comment; the order keeps its status |
| UserProfiles.RoleCode | app/models/user_profile.rb:7 | role codes lie in 0..3 |
| UserProfiles.RoleOfCode | app/models/user_profile.rb:7 | a stored code is a role exactly when it lies in 0..3 |
| UserProfiles.RoleCodeRoundTrip | app/models/user_profile.rb:7 | normal=0, approver=1, company_admin=2, internal_admin=3 is a bijection onto 0..3 |
| UserProfiles.RoleOfName | app/models/user_profile.rb:7 | a role name read back names that role |
| UserProfiles.RoleNameRoundTrip | app/models/user_profile.rb:7 | every role's name reads back to the role |
| UserProfiles.StatusCode | app/models/user_profile.rb:8 | member status codes lie in 0..3 |
| UserProfiles.StatusOfCode | app/models/user_profile.rb:8 | a stored code is a member status exactly when it lies in 0..3 |
| UserProfiles.StatusCodeRoundTrip | app/models/user_profile.rb:8 | pending=0, active=1, rejected=2, unassigned=3 is a bijection onto 0..3 |
| UserProfiles.CapabilityLadder | app/models/user_profile.rb:59-86 | `can_approve_orders?` iff role code >= 1; `can_approve_members?` (and admin dashboard) iff role code >= 2; the approver is the only role with the first and not the second |
| UserProfiles.ProfileErrors | app/models/user_profile.rb:19-28 | in the schema that still has `supervisor_id`: `company_id` is required unless unassigned, internal admin or manufacturer-linked; the name is required; a profile may not supervise itself; a supervisor error needs both ids set (together with app/models/user_profile.rb:103-130) |
| UserProfiles.ValidateAsWritten | app/models/user_profile.rb:116-130 | validation completes iff the `supervisor_id` column exists, and then its errors are empty iff the profile is valid; without the column it raises |
| UserProfiles.DroppedSupervisorColumnRaises | app/models/user_profile.rb:117 | once migration 20260230000000 drops `supervisor_id`, every profile validation raises; the guarded validation then reports only the field and company rules |
| UserProfiles.ValidateGuarded | app/models/user_profile.rb:116-130 | with the supervisor rules guarded like the manufacturer rule, validation always completes, agrees with the written one while the column exists, and without it reports no supervisor error |
| UserProfiles.ClearedSupervisorKeepsValid | app/models/user_profile.rb:116-130 | a valid profile stays valid under the guarded validation once the column is gone, and with its supervisor cleared |
| UserProfiles.SupervisorUser | app/models/user_profile.rb:93-95 | the supervisor's user is found iff the column exists, a supervisor id is set and names a stored profile with a user |
| UserProfiles.StatusChangeKeepsValid | app/models/user_profile.rb:25 | changing the member status of a valid profile with a company (or internal admin, or manufacturer) keeps it valid (together with app/models/user_profile.rb:103-105) |
| UserProfiles.PendingWithoutCompanyInvalid | app/models/user_profile.rb:25 | without company, internal-admin role or manufacturer only the unassigned status is valid (together with app/models/user_profile.rb:103-105) |
| UserProfiles.WritableWhenValid | app/models/approval_request.rb:65-72 | the approval callback's `update!` of a valid profile that has a company succeeds for every status (together with app/models/user_profile.rb:25) |
| UserProfiles.ProfileTable.constructor | app/models/user_profile.rb:3-28 | the table holds the given rows |
| UserProfiles.ProfileTable.Insert | app/models/user_profile.rb:19-28 | a profile is stored iff its id is new and it is valid; otherwise nothing changes |
| UserProfiles.ProfileTable.UpdateMemberStatus | app/models/approval_request.rb:68-70 | `update!(member_status:)` succeeds iff the updated profile is valid, and then changes only that status |
| Users.LocalName | app/models/user.rb:53 | the new profile's name holds no `@` |
| Users.LocalNameOf | app/models/user.rb:53 | the name of `local@domain` is `local` |
| Users.MatchedCompanyId | app/models/user.rb:50 | a matched company exists and is active |
| Users.NewProfile | app/models/user.rb:52-67 | the new profile is a normal user of the matched company, pending when one matched and unassigned otherwise |
| Users.NewProfileValidity | app/models/user.rb:52-68 | the profile built at signup passes validation |
| Users.CreateUserProfileFromDomain | app/models/user.rb:49-70 | with a matched company: a pending profile and one pending request for that company; without: an unassigned profile and no request; nothing is stored when a save fails |
| Users.SignupLeavesOnePendingRequest | app/models/user.rb:57-65 | after signup exactly one request names the new profile, and it is pending for the matched company |
| Users.InactiveMessageExplains | app/models/user.rb:25-37 | authentication needs an active profile; the message is `pending_approval` iff pending and `account_rejected` iff rejected, else the framework default |
| Users.CurrentCompany | app/models/user.rb:39-45 | the current company is the profile's company and is nil without a profile |
| Users.CurrentCompanyAgrees | app/models/user.rb:39-45 | `current_company` and `company_id` agree |
| ApplicationPolicy.BaseAllows | app/policies/application_policy.rb:12-38 | the base actions all deny, `new?` answers as `create?`, `edit?` as `update?`, and other actions are undefined |
| ApplicationPolicy.BaseDeniesAll | app/policies/application_policy.rb:12-38 | with no override every defined action denies |
| ApplicationPolicy.BaseResolve | app/policies/application_policy.rb:46-48 | the base `Scope#resolve` raises `NotImplementedError` |
| ApplicationPolicy.CurrentCompanyId | app/policies/application_policy.rb:63-68 | the current company is the profile's company when that company exists, and nothing else |
| ApplicationPolicy.SameCompanyIff | app/policies/application_policy.rb:88-93 | `same_company?` is true for internal admins; otherwise it holds iff the record has a company id equal to the user's |
| ApplicationPolicy.SameCompanyExclusive | app/policies/application_policy.rb:88-93 | only an internal admin is "same company" with two different companies |
| OrderPolicy.OrderInheritedActions | app/policies/order_policy.rb:3-40 | `new?` is `create?`, `edit?` is `update?`, and the policy defines no other actions (together with app/policies/application_policy.rb:24-34) |
| OrderPolicy.StatusGates | app/policies/order_policy.rb:17-35 | for an active user of the order's company: `ship?` iff confirmed, `deliver?` iff shipped, `update?` iff draft or confirmed, `cancel?` iff not delivered or cancelled |
| OrderPolicy.GatesNeedStatus | app/policies/order_policy.rb:17-35 | no status-gated action is granted without the status it names, whoever asks |
| OrderPolicy.DestroySkipsActiveCheck | app/policies/order_policy.rb:21-35 | a pending company admin may `destroy?` a cancellable order of the company though `cancel?` is refused |
| OrderPolicy.InternalAdminCannotCreate | app/policies/order_policy.rb:12-40 | internal admins may neither create nor export orders |
| OrderPolicy.OrderScopeIsolation | app/policies/order_policy.rb:42-51 | outside the internal admins, the scope never holds an order of another company, and holds rows unchanged |
| OrderPolicy.OrderScopeMatchesShow | app/policies/order_policy.rb:8-10 | an order is in the scope iff `show?` allows it (together with app/policies/order_policy.rb:42-51) |
| OrderApprovalRequestPolicy.DecideOnlyPending | app/policies/order_approval_request_policy.rb:8-18 | `approve?` equals `reject?`, needs a pending request, and implies `show?` |
| OrderApprovalRequestPolicy.ApproverNeedsCustomerAndProfile | app/policies/order_approval_request_policy.rb:22-28 | without the order's customer or the user's profile nobody is the center's approver |
| OrderApprovalRequestPolicy.ApproverPassesPolicyButReviewFails | app/policies/order_approval_request_policy.rb:12-14 | an active approver named on the order's receiving center passes `approve?`, yet the reviewed-by validation makes `approve!` fail and the order is not confirmed (together with app/policies/order_approval_request_policy.rb:22-28, app/models/order_approval_request.rb:54-62) |
| OrderApprovalRequestPolicy.OrderRequestScopeIsolation | app/policies/order_approval_request_policy.rb:30-45 | outside the internal admins the scope holds only the company's requests; a non-admin sees only requests whose order's customer names them as approver |
| OrderApprovalRequestPolicy.OrderRequestScopeShowable | app/policies/order_approval_request_policy.rb:8-10 | every request in the scope may be shown (together with app/policies/order_approval_request_policy.rb:30-45) |
| ApprovalRequestPolicy.DecisionAdmitsReviewer | app/policies/approval_request_policy.rb:12-18 | whoever `approve?`/`reject?` admits passes the model's reviewer validation, and the request is pending (together with app/models/approval_request.rb:55-63) |
| ApprovalRequestPolicy.MembersCannotDecide | app/policies/approval_request_policy.rb:4-18 | normal users and approvers may not list, show, approve or reject |
| ApprovalRequestPolicy.RequestScopeMatchesPolicy | app/policies/approval_request_policy.rb:20-31 | a non-empty scope needs an active admin; a company admin sees only the company's requests, each of which `show?` allows |
| CustomerPolicy.CustomerWritesInternalOnly | app/policies/customer_policy.rb:9-31 | create, update, destroy and import are internal-admin only; `show?` is active and same company |
| CustomerPolicy.CustomerScopeMatchesShow | app/policies/customer_policy.rb:9-11 | a center is in the scope iff `show?` allows it, so no other company's center is listed (together with app/policies/customer_policy.rb:33-43) |
| ItemPolicy.ShowIsVisibility | app/policies/item_policy.rb:8-16 | `show?` holds iff active and internal admin, or the item is the user's company's or shared to it |
| ItemPolicy.ItemScopeMatchesShow | app/policies/item_policy.rb:8-16 | the scope fails only for an active non-admin without a company; otherwise an item is in it iff `show?` allows it (together with app/policies/item_policy.rb:38-54) |
| ItemPolicy.ItemScopeWithoutShares | app/policies/item_policy.rb:38-54 | without shared items a non-admin's scope holds only the own company's items |
| UserProfilePolicy.OwnProfileRules | app/policies/user_profile_policy.rb:8-29 | the own profile is always visible, editable iff active, and its role is never changeable |
| UserProfilePolicy.OthersProfileRules | app/policies/user_profile_policy.rb:8-23 | for another profile, `show?`, `update?` and `change_role?` all need an active admin of the same company |
| UserProfilePolicy.ProfileScopeMatchesShow | app/policies/user_profile_policy.rb:31-43 | non-admins see only their own profile; non-internal users see only their company's profiles; every listed profile may be shown |
| CompanyPolicy.CompanyScopeMatchesShow | app/policies/company_policy.rb:5-33 | a company is listed iff `show?` allows it; a non-internal user sees at most one company |
| ManufacturerPolicy.ManufacturerScopeRules | app/policies/manufacturer_policy.rb:4-42 | `pdf?` equals `show?`; a manufacturer user sees only their manufacturer, others see all; a non-empty scope needs `index?` |
| InternalAdminPolicies.OnlyInternalAdmins | app/policies/company_payment_policy.rb:4-30 | payments, access logs and issuer settings grant only internal admins; access logs allow only index/show and issuer settings only show/edit/update (together with app/policies/access_log_policy.rb:4-10, app/policies/issuer_setting_policy.rb:4-14) |
| InternalAdminPolicies.InternalAdminScopeIgnoresStatus | app/policies/company_payment_policy.rb:32-40 | the scope is all rows for an internal admin, active or not, and empty for everyone else (together with app/policies/access_log_policy.rb:12-20) |
| CompanyPayments.PaymentErrors | app/models/company_payment.rb:10-13 | an error is reported iff its rule is broken: year an integer in 2000..2100, month in 1..12, one payment per company and period, amount nil or >= 0 |
| CompanyPayments.ValidPaymentPeriod | app/models/company_payment.rb:10-13 | a valid payment has a year in 2000..2100, a month in 1..12 and a non-negative or missing amount |
| CompanyPayments.OnePaymentPerPeriod | app/models/company_payment.rb:12 | two valid payments of one company never share a year and month |
| CompanyPayments.UnpaidScope | app/models/company_payment.rb:15 | exactly the rows without `paid_at` |
| CompanyPayments.PaidScope | app/models/company_payment.rb:16 | exactly the rows with `paid_at` |
| CompanyPayments.OverdueScope | app/models/company_payment.rb:17 | exactly the unpaid rows with a due date before today |
| CompanyPayments.ScopesAgreeWithPredicates | app/models/company_payment.rb:15-31 | paid and unpaid partition the table; the scopes select exactly the rows `paid?` and `overdue?` hold of; overdue rows are unpaid |
| CompanyPayments.PaidNeverOverdue | app/models/company_payment.rb:25-31 | a paid payment is never overdue |
| CompanyPayments.MonthOrderTotalAppend | app/models/company_payment.rb:39-44 | the month's order total over two lists is the sum of the two totals |
| CompanyPayments.MonthOrderTotalNonNegative | app/models/company_payment.rb:39-44 | with non-negative order totals the month's total is non-negative |
| CompanyPayments.ComputedOrderTotal | app/models/company_payment.rb:39-44 | nil without a company; otherwise the company's non-cancelled order total for the month, and an error exactly when the period is not a date |
| CompanyPayments.DisplayAmount | app/models/company_payment.rb:21-23 | the amount when present; else the computed total; 0 without a company |
| CompanyPayments.DisplayAmountFallsBackToOrders | app/models/company_payment.rb:21-44 | for a valid payment without amount the display amount is the month's order total and is non-negative |
| CompanyPayments.PeriodLabelInjective | app/models/company_payment.rb:33-35 | `"#{year}年#{month}月"` determines the year and month |
| IntegrationLogs.LogErrors | app/models/integration_log.rb:7-15 | an error is reported iff the type or result is missing or outside its list, or `company_id` is missing |
| IntegrationLogs.LogValidIff | app/models/integration_log.rb:7-15 | a log is valid iff it has a company, a listed type and a listed result |
| IntegrationLogs.NotBothSuccessAndFailure | app/models/integration_log.rb:46-52 | `success?` and `failure?` never both hold |
| IntegrationLogs.ParsedPayload | app/models/integration_log.rb:54-59 | nil for a blank payload, the parsed value when it parses, the raw text when it does not |
| IntegrationLogs.PayloadRoundTrip | app/models/integration_log.rb:30-59 | a payload stored as JSON parses back to the value |
| IntegrationLogs.LogTable.constructor | app/models/integration_log.rb:3-15 | the table starts empty |
| IntegrationLogs.LogTable.Create | app/models/integration_log.rb:24-43 | `create!` stores the row iff it is valid, else reports its errors and stores nothing |
| IntegrationLogs.LogTable.LogSuccess | app/models/integration_log.rb:24-32 | stores a "success" row with the payload and no error message, iff company and type are valid |
| IntegrationLogs.LogTable.LogFailure | app/models/integration_log.rb:34-43 | stores a "failure" row with the given error message and payload, iff company and type are valid |
| AccessLogs.AccessErrors | app/models/access_log.rb:8 | an error is reported iff one of the four required fields is blank |
| AccessLogs.ReplaceChar | app/models/access_log.rb:15 | `gsub('/', '.')` replaces every slash and nothing else |
| AccessLogs.ActionLabel | app/models/access_log.rb:14-17 | the translation of `controller.path.action` when there is one, else `"controller/path#action"` |
| AccessLogs.ActionKeyRecoversPath | app/models/access_log.rb:15 | the key gives back the controller path and the action name |
| AccessLogs.ActionKeyInjective | app/models/access_log.rb:15 | distinct controller/action pairs (without dots) get distinct keys |
| AccessLogs.ActionWithTarget | app/models/access_log.rb:20-25 | the label alone for a blank target, else the label, `": "` and the target |
| AccessLogs.OlderThan | app/models/access_log.rb:11 | exactly the rows created before the date |
| AccessLogs.PruneKeepsRecent | app/models/access_log.rb:11 | deleting `older_than(d)` keeps exactly the rows created on or after `d`, unchanged |
| IssuerSettings.FullAddressSkipsBlankPart | app/models/issuer_setting.rb:12-14 | a blank part is left out of the address |
| IssuerSettings.FullAddressAllPresent | app/models/issuer_setting.rb:12-14 | with all parts present they are joined in order with single spaces |
| IssuerSettings.SettingTable.constructor | app/models/issuer_setting.rb:5-10 | the table starts empty |
| IssuerSettings.SettingTable.Current | app/models/issuer_setting.rb:7-9 | the first record when one exists; otherwise a record named `""` is created; afterwards a record always exists |
| IssuerSettings.CurrentTwice | app/models/issuer_setting.rb:7-9 | two calls return the same record and create at most one |
| PasswordValidations.PasswordErrors | app/models/concerns/password_validations.rb:16-39 | `same_as_email` iff a present password equals a present email ignoring case; `too_common` iff it equals a listed password ignoring case |
| PasswordValidations.CommonPasswordsLower | app/models/concerns/password_validations.rb:7-14 | every listed common password is lower-case |
| PasswordValidations.AnyCaseEqExists | app/models/concerns/password_validations.rb:36 | the `any?` scan holds iff some entry equals the password ignoring case |
| PasswordValidations.LowerListScan | app/models/concerns/password_validations.rb:36 | against a lower-case list the scan is membership of the lower-cased password |
| PasswordValidations.TooCommonIffListed | app/models/concerns/password_validations.rb:33-39 | `too_common` iff the password is present and its lower-case form is in the list |
| PasswordValidations.BlankPasswordNoErrors | app/models/concerns/password_validations.rb:17-25 | a blank password gets neither error |
| PasswordValidations.SameAsEmailIgnoresCase | app/models/concerns/password_validations.rb:27-31 | a password equal to the email up to case is refused |
| PasswordValidations.AnyCapitalisationRefused | app/models/concerns/password_validations.rb:7-14 | "password" in any capitalisation is too common (together with app/models/concerns/password_validations.rb:33-39) |
| AccessLogger.CriticalActionsByController | app/services/access_logger.rb:6-56 | `critical_action?` iff the action is recorded for its controller (together with app/services/access_logger.rb:79-81) |
| AccessLogger.ListEntryRecorded | app/services/access_logger.rb:6-56 | every listed pair is recorded |
| AccessLogger.CriticalListCovers | app/services/access_logger.rb:6-56 | every recorded action is in the list |
| AccessLogger.ViewsAreNotRecorded | app/services/access_logger.rb:6-56 | show, new and edit, and every index except the access-log index, are never logged |
| AccessLogger.TruncateAgent | app/services/access_logger.rb:73 | the user agent is kept up to 500 characters, else cut to 497 plus "..." |
| AccessLogger.UserName | app/services/access_logger.rb:65 | the profile name when there is one, else "（未ログイン）" |
| AccessLogger.CriticalRowValid | app/services/access_logger.rb:63-74 | the row written for a critical action is valid iff the request path and method are present (together with app/models/access_log.rb:8) |
| AccessLogger.ListEntriesPresent | app/services/access_logger.rb:6-56 | every listed controller and action name is present |
| AccessLogger.AccessLogStore.constructor | app/services/access_logger.rb:3-5 | the store starts empty |
| AccessLogger.AccessLogStore.Log | app/services/access_logger.rb:59-77 | exactly one row is appended for a critical action whose write succeeds; nothing otherwise, and a failure is swallowed |
| Billing.Period | app/services/invoice_generator.rb:11-14 | the period runs from day 1 of (year, month) to the last day of that month, and fails exactly when `Date.new` raises (together with app/services/statement_generator.rb:13-16) |
| Billing.PeriodIsTheMonth | app/services/invoice_generator.rb:13-29 | a date lies in the period iff it lies in that month |
| Billing.SelectBilled | app/services/invoice_generator.rb:27-32 | exactly the orders with a customer in the set, an order date in the period and status shipped or delivered (together with app/services/statement_generator.rb:26-31) |
| Billing.SelectBilledKeepsOrder | app/services/invoice_generator.rb:32 | selection keeps the (date, order number) order of the table (together with app/services/statement_generator.rb:31) |
| Billing.SumTotalsAppend | app/services/invoice_generator.rb:37 | the sum of order totals over two lists is the sum of the two sums (together with app/services/statement_generator.rb:35) |
| Billing.Truncate | app/services/invoice_generator.rb:355 | `to_i` truncates toward zero |
| Billing.RemoveCommas | app/services/invoice_generator.rb:355 | removing commas leaves no comma |
| Billing.GroupRemoveCommas | app/services/invoice_generator.rb:355 | the grouping inserts only commas |
| Billing.GroupLength | app/services/invoice_generator.rb:355 | a numeral of n digits gets (n - 1) / 3 commas |
| Billing.GroupCommaPlaces | app/services/invoice_generator.rb:355 | commas stand exactly every three digits counted from the right |
| Billing.FormatNumberRoundTrip | app/services/invoice_generator.rb:353-356 | removing the commas from `format_number(x)` gives `x.to_i.to_s` (together with app/services/statement_generator.rb:189-191) |
| Billing.FormatNumberInjective | app/services/invoice_generator.rb:353-356 | two numbers print the same iff they truncate to the same integer (together with app/services/statement_generator.rb:189-191) |
| InvoiceGenerator.InvoiceCustomerIds | app/services/invoice_generator.rb:19-25 | only the given receiving center when one is passed; otherwise a set holding the billing center |
| InvoiceGenerator.InvoiceCustomersAreTheCenters | app/services/invoice_generator.rb:22-24 | without a receiving center, another center is billed iff it is an active receiving center of the billing center |
| InvoiceGenerator.FindName | app/services/invoice_generator.rb:47 | the position of the entry with that item name, or none when no entry has it |
| InvoiceGenerator.TotalsOfSnoc | app/services/invoice_generator.rb:45-50 | one more line updates the totals by adding that line |
| InvoiceGenerator.TotalsOfAppend | app/services/invoice_generator.rb:44-51 | folding the lines of one more order into the totals gives the totals of all lines seen so far |
| InvoiceGenerator.AddOrderLines | app/services/invoice_generator.rb:45-50 | the inner loop adds the lines of one order to the running totals, one line at a time in order |
| InvoiceGenerator.ItemTotals | app/services/invoice_generator.rb:43-51 | the nested loop fills `@item_totals` with the totals of all selected lines |
| InvoiceGenerator.NamedZero | app/services/invoice_generator.rb:46-49 | a name no line carries has zero quantity and amount |
| InvoiceGenerator.TotalsNames | app/services/invoice_generator.rb:46-47 | the totals hold each item name once, and exactly the names of the lines (the deleted-item label for a missing item) |
| InvoiceGenerator.TotalsPerName | app/services/invoice_generator.rb:46-49 | each entry's quantity and amount are the sums over the lines with that name |
| InvoiceGenerator.TotalsGrandSum | app/services/invoice_generator.rb:43-51 | the amounts of `@item_totals` add up to the sum of all line amounts |
| InvoiceGenerator.FormatDate | app/services/invoice_generator.rb:294 | `strftime('%Y/%m/%d')` has at least ten characters |
| InvoiceGenerator.OrderRows | app/services/invoice_generator.rb:292-296 | one table row per line of the order |
| InvoiceGenerator.OrderTableRows | app/services/invoice_generator.rb:292-296 | the inner loop builds exactly the rows of one order |
| InvoiceGenerator.Rows | app/services/invoice_generator.rb:291-296 | one table row per selected line |
| InvoiceGenerator.RowsAppend | app/services/invoice_generator.rb:291-296 | the rows of two order lists are the rows of each, in order |
| InvoiceGenerator.FirstLineDate | app/services/invoice_generator.rb:291-295 | the order date appears only on the first line of each order; every row names its line's item |
| InvoiceGenerator.TableRows | app/services/invoice_generator.rb:291-296 | the loop builds exactly the specified rows |
| InvoiceGenerator.Generate | app/services/invoice_generator.rb:8-51 | an error exactly when the period is not a date; nil iff no order is selected; else the selected orders, their total, the item totals, the rows and the closing date |
| StatementGenerator.StatementCustomerIds | app/services/statement_generator.rb:20-24 | the center itself is always in the set |
| StatementGenerator.StatementCoversInvoiceCustomers | app/services/statement_generator.rb:20-24 | a billing center's set is its active children plus itself, as for the invoice; a receiving center's is itself (together with app/services/invoice_generator.rb:19-25) |
| StatementGenerator.CenterOrders | app/services/statement_generator.rb:62 | the block of a center holds exactly the selected orders of that center |
| StatementGenerator.CenterBlocks | app/services/statement_generator.rb:57-80 | the loop builds exactly the specified blocks |
| StatementGenerator.BlocksAreCenters | app/services/statement_generator.rb:61-74 | each block holds exactly its center's orders and its subtotal is their total |
| StatementGenerator.SubtotalsAddUp | app/services/statement_generator.rb:35 | over distinct centers covering every order, the subtotals add up to the grand total (together with app/services/statement_generator.rb:74) |
| StatementGenerator.BlockSumIsSubtotalSum | app/services/statement_generator.rb:61-74 | the printed subtotals are the per-center subtotals |
| StatementGenerator.PrintedSubtotalsAddUp | app/services/statement_generator.rb:35 | the center subtotals printed add up to `@total_amount`: each order lands in exactly one block (together with app/services/statement_generator.rb:57-74) |
| StatementGenerator.Generate | app/services/statement_generator.rb:11-80 | an error exactly when the period is not a date; nil iff no order is selected; else the selected orders, their total and the center blocks ordered by code |
| CenterAssignmentImport.FirstIndex | app/services/center_assignment_csv_importer.rb:54-62 | `find_by` returns the first matching row, and none only when no row matches |
| CenterAssignmentImport.Fields | app/services/center_assignment_csv_importer.rb:78 | splitting on ASCII or full-width commas and whitespace leaves no separator in any field |
| CenterAssignmentImport.MemberEmails | app/services/center_assignment_csv_importer.rb:77-78 | every member email kept is present (blanks are dropped) |
| CenterAssignmentImport.MemberEmailsRoundTrip | app/services/center_assignment_csv_importer.rb:78 | a comma-joined list of plain emails splits back into the list |
| CenterAssignmentImport.AddError | app/services/center_assignment_csv_importer.rb:50-90 | recording an error appends it and changes nothing else |
| CenterAssignmentImport.SetApprover | app/services/center_assignment_csv_importer.rb:66-90 | a valid update sets the approver and counts the center; an invalid one records a validation error and stops the row |
| CenterAssignmentImport.ApproverStep | app/services/center_assignment_csv_importer.rb:60-74 | at most one error, `updated_centers` grows by at most one, members untouched, and only the center's approver may change |
| CenterAssignmentImport.ApproverStepCases | app/services/center_assignment_csv_importer.rb:61-74 | unknown email: an error; known and different: set and counted; equal: nothing; blank: clear and count only when an approver is set |
| CenterAssignmentImport.ApproverStepIdempotent | app/services/center_assignment_csv_importer.rb:61-74 | running the same approver cell again changes nothing more |
| CenterAssignmentImport.MemberStep | app/services/center_assignment_csv_importer.rb:79-90 | an unknown email records an error and the loop continues; a found one sets `billing_center_id` and counts it, or stops the row on a validation failure |
| CenterAssignmentImport.UnreadableFileProcessesNothing | app/services/center_assignment_csv_importer.rb:20-42 | malformed CSV or a missing `center_code` header records one error, processes no row and changes nothing |
| CenterAssignmentImport.UnknownCenterSkipsRow | app/services/center_assignment_csv_importer.rb:49-58 | a blank code or a code that is not a billing center of the company records one error and skips the row |
| CenterAssignmentImport.MembersAccounting | app/services/center_assignment_csv_importer.rb:77-88 | every listed email is either counted or reported, unless a validation failure stops the row |
| CenterAssignmentImport.RowErrorsCarryLine | app/services/center_assignment_csv_importer.rb:44-91 | every error a row records carries that row's line number |
| CenterAssignmentImport.RunLines | app/services/center_assignment_csv_importer.rb:23-25 | rows are numbered index + 2 and each row counts at most one updated center |
| CenterAssignmentImport.RowIsolated | app/services/center_assignment_csv_importer.rb:54-80 | a row writes only centers and profiles of the importing company |
| CenterAssignmentImport.RunIsolated | app/services/center_assignment_csv_importer.rb:16-27 | a whole import writes only the importing company's centers and profiles |
| CenterAssignmentImport.Importer.constructor | app/services/center_assignment_csv_importer.rb:9-14 | a new importer has no errors and zero counters |
| CenterAssignmentImport.Importer.Run | app/services/center_assignment_csv_importer.rb:16-27 | counters and errors are reset, the rows processed in order, and the result is true iff no error was recorded |
| CenterAssignmentImport.Importer.ProcessRow | app/services/center_assignment_csv_importer.rb:44-91 | the row's effect on errors, counters, centers and profiles is the specified one |
| CenterAssignmentImport.Importer.UpdateApprover | app/services/center_assignment_csv_importer.rb:60-74 | the approver cell's effect is `ApproverStep`'s |
| CenterAssignmentImport.Importer.UpdateMembers | app/services/center_assignment_csv_importer.rb:76-88 | the member loop's effect is `MembersStep`'s |
| ApplicationController.CheckMemberStatus | app/controllers/application_controller.rb:41-57 | signed-out users, Devise controllers and users without a profile pass; a pending member is sent to the pending-approval page without signing out; a rejected or unassigned member is signed out and sent to the login page with the matching alert |
| ApplicationController.MemberStatusGate | app/controllers/application_controller.rb:41-57 | the member-status filter lets a profiled user through exactly when the user is active for authentication, and each of the three other outcomes occurs exactly for its status (together with app/models/user.rb:27-31) |
| ApplicationController.ControllerName | app/controllers/application_controller.rb:84-93 | the last path segment of a controller path contains no slash |
| ApplicationController.ControllerNameOfPlain | app/controllers/application_controller.rb:84-93 | a controller path without a namespace is its own name |
| ApplicationController.ControllerNameOfNested | app/controllers/application_controller.rb:84-93 | a namespaced controller path yields the name after the namespace |
| ApplicationController.RestrictManufacturer | app/controllers/application_controller.rb:84-93 | non-manufacturer users always pass; a blocked manufacturer user is redirected to shipping requests with the not-authorized alert |
| ApplicationController.TopLevelControllersForManufacturers | app/controllers/application_controller.rb:84-93 | among top-level controllers a manufacturer user may reach exactly shipping requests, the dashboard and pages |
| ApplicationController.AdminControllersForManufacturers | app/controllers/application_controller.rb:84-93 | among admin controllers a manufacturer user may reach exactly shipping requests and the dashboard |
| ApplicationController.NoNamespace | app/controllers/application_controller.rb:88 | a name without a slash never starts with a namespace prefix ending in a slash |
| ApplicationController.RestrictionTargetOpen | app/controllers/application_controller.rb:84-93 | the redirect target and the Devise session and registration controllers stay reachable for manufacturer users, so the filter cannot loop |
| ApplicationController.PasswordWarning | app/controllers/application_controller.rb:96-108 | a warning is shown exactly when the password expires within the warning window and has not yet expired, and it carries the remaining whole days |
| ApplicationController.PasswordWarningMonotone | app/controllers/application_controller.rb:96-108 | the remaining days in the warning never grow as time passes |
| ApplicationController.PendingOrderApprovalsCount | app/controllers/application_controller.rb:111-121 | as evidently intended: the badge count is set exactly for signed-in active users who approve members or some center, counts the pending order approval requests in the user's scope, and falls back to zero on error |
| ApplicationController.PendingOrderApprovalsCountAsWritten | app/controllers/application_controller.rb:111-121 | as written: admins get the count of pending requests in their scope, and every other active user gets 0, because the undefined `centers_as_approver` raises and the rescue sets 0 |
| ApplicationController.CenterApproverSeesZero | app/controllers/application_controller.rb:115 | an active user who cannot approve members gets 0 as written, while the corrected count gives a center approver the number of pending requests in scope and gives no badge to a user who approves nothing |
| ApplicationController.PendingApprovalRequestsCount | app/controllers/application_controller.rb:124-134 | the badge count is set exactly for active admins, counts the pending requests in the policy scope, and falls back to zero on error |
| ApplicationController.PendingApprovalCountIsolated | app/controllers/application_controller.rb:124-134 | for a user who is not an internal admin every counted request belongs to no company or to the user's company (together with app/policies/approval_request_policy.rb:20-31) |
| ApplicationController.Rescue | app/controllers/application_controller.rb:22-23 | both rescued errors redirect back (falling back to root) with an alert, and the not-authorized alert is used exactly for authorization errors (together with app/controllers/application_controller.rb:59-67) |
| ApplicationController.SkippedControllersNotCritical | app/controllers/application_controller.rb:69-75 | the controllers that skip access logging have no critical action, so skipping them loses no log row (together with app/services/access_logger.rb:6-56) |
| ApplicationController.LogCriticalAccess | app/controllers/application_controller.rb:20 | after a request the access-log table gains exactly the row the access logger writes for a signed-in user, and nothing when the logger's write fails (together with app/controllers/application_controller.rb:77-81) |
| OrdersController.MineFilter | app/controllers/orders_controller.rb:11-13 | the "mine" filter applies exactly when the parameter is present and the user is not an internal admin, and then filters by the user's id |
| OrdersController.Listed | app/controllers/orders_controller.rb:8-13 | the listed orders are exactly the scoped orders that pass the "mine" filter, unchanged |
| OrdersController.MineIgnoredForInternalAdmin | app/controllers/orders_controller.rb:11-13 | an internal admin always sees the whole scope; any other user asking for "mine" sees only the orders they placed |
| OrdersController.SortDirection | app/controllers/orders_controller.rb:24 | the sort is ascending exactly when the direction parameter is "asc" |
| OrdersController.SortParam | app/controllers/orders_controller.rb:23-32 | only the default (newest first) ordering has no sort parameter |
| OrdersController.SortParamRoundTrip | app/controllers/orders_controller.rb:23-32 | the sort parameter of each ordering selects that ordering again, and every unknown or missing parameter falls back to the default ordering |
| OrdersController.Stamped | app/controllers/orders_controller.rb:178-185 | stamping changes only the line's company, and sets it to the current company exactly when there is one and the line names an item |
| OrdersController.StampLineCompanies | app/controllers/orders_controller.rb:180-184 | every nested line attribute set is replaced by its stamped form |
| OrdersController.KeptLinesCarryCompany | app/controllers/orders_controller.rb:178-185 | every nested line that is not rejected for a blank item carries the current company, and stamping twice is stamping once (together with app/models/order.rb:49-50) |
| OrdersController.PendingRequestFor | app/controllers/orders_controller.rb:199-203 | the approval request built on order creation belongs to the order and its company, is pending, and has no reviewer, review time or comment |
| OrdersController.NewRequestValid | app/controllers/orders_controller.rb:199-203 | that request passes the approval-request validations when the order has no request yet (together with app/models/order_approval_request.rb:14-17) |
| OrdersController.Create | app/controllers/orders_controller.rb:55-79 | without a company the user is redirected; an invalid order renders the form and consumes no number; a saved order takes the next company order number, its totals are recalculated, and it is confirmed at once for admins or users without a supervisor, otherwise a pending approval request is created (together with app/controllers/orders_controller.rb:188-207) |
| OrdersController.BuildOrder | app/controllers/orders_controller.rb:58-60 | the new order carries the current company and the ordering user, takes the company's next order number (the sequence advances by one, the prefix is kept) and snapshots the customer's address (together with app/models/order.rb:44-45) |
| OrdersController.AfterSave | app/controllers/orders_controller.rb:64-72 | after a save the totals are recalculated; an admin's order, or one whose creator has no supervisor, is confirmed at once, otherwise one pending approval request is added; a raising update leaves the requests as they were (together with app/controllers/orders_controller.rb:188-204) |
| OrdersController.UpdateOrder | app/controllers/orders_controller.rb:81-90 | an update that fails validation renders the form; one that succeeds keeps the new attributes and recalculates the totals |
| OrdersController.Destroy | app/controllers/orders_controller.rb:92-100 | destroying an order cancels it and redirects to the order list, or fails when the cancelled row is invalid (together with app/models/order.rb:109-111) |
| OrdersController.CancelOrder | app/controllers/orders_controller.rb:122-130 | cancelling sets the status to cancelled and redirects to the order, or fails when the row is invalid (together with app/models/order.rb:109-111) |
| OrdersController.ShipOrder | app/controllers/orders_controller.rb:102-110 | shipping sets the shipped status, the tracking number and the ship date (today only when the parameter is absent; a posted value, even an empty one, is cast) and redirects to the order (together with app/models/order.rb:94-100) |
| OrdersController.DeliverOrder | app/controllers/orders_controller.rb:112-120 | delivering sets the delivered status and the delivered date (today only when the parameter is absent; a posted value, even an empty one, is cast) and redirects to the order (together with app/models/order.rb:102-107) |
| OrdersController.EmptyDateParamIsNil | app/controllers/orders_controller.rb:115 | an empty posted date is truthy, so it is kept and stored as nil; only a missing parameter gives today |
| OrdersController.NewOrderForm | app/controllers/orders_controller.rb:42-48 | the new-order form opens exactly when the user has a current company, otherwise redirects to root with the not-authorized alert |
| CustomersController.NormalizeBillingFlag | app/controllers/customers_controller.rb:99-116 | the posted flag becomes true exactly for '1', true or 'true', which also clears the billing center; a receiving center posted without a billing center is refused; no other parameter changes (together with app/controllers/customers_controller.rb:134-147) |
| CustomersController.CastId | app/controllers/customers_controller.rb:441-446 | a blank parameter gives nil; a present one gives `to_i` of it (leading spaces skipped, an optional sign, the leading digits, 0 when there are none); a negative value reads as nil |
| CustomersController.CastIdReadsLeadingNumber | app/controllers/customers_controller.rb:443 | `"12abc"` is read as id 12 |
| CustomersController.CastIdSkipsLeadingSpace | app/controllers/customers_controller.rb:443 | `" 12"` is read as id 12 |
| CustomersController.CastIdOtherText | app/controllers/customers_controller.rb:443 | `"abc"` is read as 0, `""` and `" "` as nil, `"-3"` as nil |
| CustomersController.CastIdSkipsSpace | app/controllers/customers_controller.rb:443 | a leading whitespace character does not change the cast |
| CustomersController.NumeralThenText | app/controllers/customers_controller.rb:443 | digits followed by text that does not start with a digit cast to the value of the digits |
| CustomersController.NormalizedRecordFollowsFlag | app/controllers/customers_controller.rb:99-123 | after normalisation the record is a billing center exactly when the posted flag said so, and a billing center has no billing center of its own |
| CustomersController.RefusalAnticipatesValidation | app/controllers/customers_controller.rb:107-115 | every create the controller refuses for a missing billing center would also fail the model's receiving-center validation (together with app/models/customer.rb:86-93) |
| CustomersController.UpdateRefusalStricter | app/controllers/customers_controller.rb:142-146 | an update posting no billing center is refused even when the stored center already has one the model would accept (together with app/models/customer.rb:86-93) |
| CustomersController.ControllerAndModelFlagReadings | app/controllers/customers_controller.rb:101 | the two tests are written over different raw values ('true' and 1), and they agree on booleans, the only values the cast boolean column gives the model method (together with app/models/customer.rb:36-38) |
| CustomersController.Create | app/controllers/customers_controller.rb:98-128 | the table changes exactly when the create redirects to the new center, and then holds a valid record under the new id; otherwise the form is rendered again; and a submission that passes the billing-center check and builds a valid record is stored and redirects |
| CustomersController.Update | app/controllers/customers_controller.rb:130-154 | a successful update leaves a valid record and the updated notice; a refused or invalid update leaves the table unchanged and renders the form; and an update that passes the billing-center check and gives a valid record is written and redirects |
| CustomersController.Destroy | app/controllers/customers_controller.rb:156-164 | destroy only deactivates the center, touches no other record, and reports success exactly when the record is valid |
| CustomersController.DeactivationKeepsErrors | app/controllers/customers_controller.rb:159 | deactivating a center changes none of its validation errors (together with app/models/customer.rb:15-27) |
| CustomersController.SortColumn | app/controllers/customers_controller.rb:397-402 | the sort column is always whitelisted, and is the parameter exactly when the parameter is whitelisted |
| CustomersController.SortDirection | app/controllers/customers_controller.rb:404-406 | the direction is asc or desc, and is the parameter exactly when the parameter is one of those |
| CustomersController.SortOrderWhitelisted | app/controllers/customers_controller.rb:408-411 | the ORDER BY text is always a whitelisted column followed by ASC or DESC, and follows valid parameters |
| CustomersController.DowncaseHeaders | app/controllers/customers_controller.rb:466 | header downcasing succeeds exactly when no header is missing, and downcases each header in place |
| CustomersController.Missing | app/controllers/customers_controller.rb:465-466 | the missing headers are exactly the required ones not present |
| CustomersController.HeaderFailure | app/controllers/customers_controller.rb:460-473 | the import proceeds past the header checks exactly when there are headers, none is missing, and both required headers are present after downcasing |
| CustomersController.RowStep | app/controllers/customers_controller.rb:476-518 | each row appends at most one error, numbered with its line; the corrected import counts every row once, the as-written import records every row as an error |
| CustomersController.ImportRowsAccounting | app/controllers/customers_controller.rb:476-528 | over the whole file, the corrected import's created, updated and error counts add up to the number of rows, and the as-written import reports every row as an error |
| CustomersController.AsWrittenImportNeverSucceeds | app/controllers/customers_controller.rb:503-528 | as written, an import with well-formed headers succeeds only for a file without rows |
| CustomersController.CorrectedImportCounts | app/controllers/customers_controller.rb:503-528 | corrected, the import succeeds exactly when every row was created or updated |
| CustomersController.ErrorsNumbered | app/controllers/customers_controller.rb:476-477 | the errors the rows add carry strictly increasing line numbers between 2 and the last line |
| CustomersController.ImportErrorsNumbered | app/controllers/customers_controller.rb:476-477 | the reported row errors follow the file order with line numbers index + 2 (together with app/controllers/customers_controller.rb:522-528) |
| CustomersController.RowStepIsolated | app/controllers/customers_controller.rb:488-491 | one row changes only centers of the importing company |
| CustomersController.ImportRowsIsolated | app/controllers/customers_controller.rb:476-520 | the rows from any index on change only centers of the importing company |
| CustomersController.ImportIsolated | app/controllers/customers_controller.rb:448-534 | a whole import changes only centers of the importing company |
| CustomersController.AsWrittenNewCenterRejected | app/controllers/customers_controller.rb:488-515 | as written, a row with a new center code fails the receiving-center rule (together with app/models/customer.rb:86-93) |
| CustomersController.CorrectedNewCenterIsBillingCenter | app/controllers/customers_controller.rb:488-501 | a new center imported as a billing center passes all four billing-center validations (together with app/models/customer.rb:62-93) |
| CustomersController.CustomerStore.ImportCustomersFromCsv | app/controllers/customers_controller.rb:448-534 | the import loop leaves the result and the center table that the import specification gives |
| CustomersController.CustomerStore.ImportRow | app/controllers/customers_controller.rb:479-518 | one row updates the table and the counters as the row step specifies |
| ShippingRequestsController.ParseDateRange | app/controllers/shipping_requests_controller.rb:270-279 | a present month parameter gives its first and last day, or an error when it does not parse; otherwise the range is always given: each blank bound defaults to the current month's bound and a present one is its parsed date, nil when it does not read as a date |
| ShippingRequestsController.MonthRangeIsTheMonth | app/controllers/shipping_requests_controller.rb:271-274 | the range of a month parameter starts on day 1 and ends on that month's last day |
| ShippingRequestsController.DefaultRangeHoldsToday | app/controllers/shipping_requests_controller.rb:275-277 | with no parameters the range is the current month |
| ShippingRequestsController.UnreadableBoundListsNothing | app/controllers/shipping_requests_controller.rb:276-277 | a present `date_from` that does not read as a date still gives a range, the page is shown, and no request and no import-scope order falls in it |
| ShippingRequestsController.ImportScopeListed | app/controllers/shipping_requests_controller.rb:53-63 | every order the import may ship is also listed on the request page (together with app/controllers/shipping_requests_controller.rb:127-128) |
| ShippingRequestsController.FindLine | app/controllers/shipping_requests_controller.rb:97-99 | the line lookup returns a line of the order, manufacturer and item code, and fails only when there is none (together with app/controllers/shipping_requests_controller.rb:169-171) |
| ShippingRequestsController.MarkLines | app/controllers/shipping_requests_controller.rb:106-112 | exactly the lines of the order with the manufacturer's items get the carrier, tracking number and date (together with app/controllers/shipping_requests_controller.rb:179-181) |
| ShippingRequestsController.ShipOrderIsolated | app/controllers/shipping_requests_controller.rb:104-113 | order-level shipping changes only that order and that manufacturer's lines of it, and marks the order shipped with the carrier |
| ShippingRequestsController.ShipWithKeywordRaises | app/controllers/shipping_requests_controller.rb:105 | a call with two positional arguments and a keyword argument does not bind to ship!, while one or two positional arguments do (together with app/models/order.rb:94) |
| ShippingRequestsController.RegisterShipment | app/controllers/shipping_requests_controller.rb:74-117 | the tables change only for a manufacturer user of this manufacturer, a confirmed order with its items and a carrier and tracking number, and then the success notice is shown; otherwise nothing changes and an alert is shown |
| ShippingRequestsController.AsWrittenOrderShipmentRaises | app/controllers/shipping_requests_controller.rb:105 | as written, an accepted order-level shipment raises and changes nothing |
| ShippingRequestsController.CorrectedOrderShipment | app/controllers/shipping_requests_controller.rb:104-113 | corrected, an accepted order-level shipment marks the order shipped with the stripped carrier, tracking number and date, and marks the manufacturer's lines of it |
| ShippingRequestsController.ItemShipmentChangesOneLine | app/controllers/shipping_requests_controller.rb:95-103 | an item-level shipment changes at most one line, which becomes that line with the carrier, tracking number and date |
| ShippingRequestsController.Field | app/controllers/shipping_requests_controller.rb:145-149 | a cell value is present and stripped, and the Japanese header wins when it has a value |
| ShippingRequestsController.IndexByNo | app/controllers/shipping_requests_controller.rb:128-130 | the order-number index points only into the confirmed scope loaded before the loop |
| ShippingRequestsController.ImportStep | app/controllers/shipping_requests_controller.rb:143-183 | one row keeps the set of orders, adds either one success or one error, and raises only as written |
| ShippingRequestsController.ImportRows | app/controllers/shipping_requests_controller.rb:143-184 | the row loop keeps the set of orders |
| ShippingRequestsController.ImportAccounting | app/controllers/shipping_requests_controller.rb:140-184 | successes plus errors equal the number of rows, and the corrected import never raises |
| ShippingRequestsController.AsWrittenOrderRowRaises | app/controllers/shipping_requests_controller.rb:178 | as written, a ready row without an item code raises |
| ShippingRequestsController.ShippedOrderStillResolves | app/controllers/shipping_requests_controller.rb:128-130 | a row for an order an earlier row already shipped still resolves through the index and ships the order again (together with app/controllers/shipping_requests_controller.rb:160) |
| ShippingRequestsController.ImportKeepsOtherLines | app/controllers/shipping_requests_controller.rb:169-181 | the import changes no line of another manufacturer |
| ShippingRequestsController.StepKeepsOtherLines | app/controllers/shipping_requests_controller.rb:169-181 | one imported row changes no line of another manufacturer |
| ShippingRequestsController.ImportResponse | app/controllers/shipping_requests_controller.rb:186-192 | the import redirects to the request page with the success notice exactly when no row failed |
| ShippingRequestsController.ShippingStore.RegisterShipmentImport | app/controllers/shipping_requests_controller.rb:120-193 | the import loop leaves the tables, counts and errors the row specification gives |
| ShippingRequestsController.ShippingStore.ImportRow | app/controllers/shipping_requests_controller.rb:143-183 | one row updates the tables and the accumulators as the row step specifies |
| DashboardController.ParseMonthParam | app/controllers/dashboard_controller.rb:73-83 | the month parameter yields a valid date: today when blank or out of range, otherwise the first day of a month of year 2000 or later |
| DashboardController.MonthDigits | app/controllers/dashboard_controller.rb:76-77 | the two-digit month text is all digits and reads back as the month |
| DashboardController.SplitTwo | app/controllers/dashboard_controller.rb:76 | splitting "a-b" on the dash gives exactly the two parts |
| DashboardController.ParseOfParts | app/controllers/dashboard_controller.rb:76-80 | when the first two parts read as a year and a month, the result is the first of that month, or today when the year is before 2000 or the month is out of range |
| DashboardController.YearAndMonthRead | app/controllers/dashboard_controller.rb:76 | a written year and two-digit month read back as themselves |
| DashboardController.MonthParamRoundTrip | app/controllers/dashboard_controller.rb:73-83 | a YYYY-MM parameter of year 2000 or later selects the first day of that month |
| DashboardController.MonthParamIgnoresRest | app/controllers/dashboard_controller.rb:76-77 | anything after the month part is ignored |
| DashboardController.EarlyYearFallsBack | app/controllers/dashboard_controller.rb:78 | a year before 2000 falls back to today |
| DashboardController.YearOnlyFallsBack | app/controllers/dashboard_controller.rb:77-78 | a parameter without a month part falls back to today |
| DashboardController.FiscalYearStart | app/controllers/dashboard_controller.rb:86-90 | the chart year starts on the 1st of April not after today, and today falls within the twelve months from it |
| DashboardController.FiscalYearEnd | app/controllers/dashboard_controller.rb:86-100 | the twelfth chart month ends on the 31st of March of the following year |
| DashboardController.StartNotAfter | app/controllers/dashboard_controller.rb:100 | the first of a month is not after a date exactly when its month is not later |
| DashboardController.NotAfterEnd | app/controllers/dashboard_controller.rb:100 | a date is not after a month's end exactly when its month is not later |
| DashboardController.InMonths | app/controllers/dashboard_controller.rb:100-123 | a date lies between the first of one month and the end of another exactly when its month lies between them |
| DashboardController.Count | app/controllers/dashboard_controller.rb:35 | the order count of a range is the number of orders dated in it, at most the number of orders (together with app/controllers/dashboard_controller.rb:127) |
| DashboardController.ProfitIsRevenueLessCost | app/controllers/dashboard_controller.rb:39-44 | the profit of a range is its revenue less its line cost (together with app/controllers/dashboard_controller.rb:102-110) |
| DashboardController.ChartMonth | app/controllers/dashboard_controller.rb:99 | the i-th chart month is the first day of the month i months after the start (together with app/controllers/dashboard_controller.rb:122, app/controllers/dashboard_controller.rb:138) |
| DashboardController.ExtendByMonth | app/controllers/dashboard_controller.rb:98-111 | the total up to the end of month k+1 is the total up to month k plus month k+1 |
| DashboardController.MonthsPartition | app/controllers/dashboard_controller.rb:98-111 | the monthly totals of the first k chart months add up to the total over those months (together with app/controllers/dashboard_controller.rb:121-130) |
| DashboardController.BuildChartData | app/controllers/dashboard_controller.rb:92-131 | an internal admin gets the twelve-month cost and profit chart, everyone else the twelve-month count and amount chart |
| DashboardController.BuildCo2ChartData | app/controllers/dashboard_controller.rb:133-147 | the CO2 chart has twelve months |
| DashboardController.MemberColumns | app/controllers/dashboard_controller.rb:121-130 | the count and amount columns of the first k member points add up to the orders and revenue of those months |
| DashboardController.AdminColumns | app/controllers/dashboard_controller.rb:98-111 | the profit column of the first k admin points adds up to those months' profit |
| DashboardController.Co2Columns | app/controllers/dashboard_controller.rb:137-146 | the CO2 column of the first k points adds up to those months' CO2 |
| DashboardController.MemberChartCoversYear | app/controllers/dashboard_controller.rb:119-131 | the member chart's counts and amounts add up to the whole chart year's orders and revenue |
| DashboardController.AdminChartCoversYear | app/controllers/dashboard_controller.rb:92-112 | the admin chart's profits add up to the whole chart year's profit |
| DashboardController.Co2ChartCoversYear | app/controllers/dashboard_controller.rb:133-147 | the CO2 chart adds up to the whole chart year's CO2 |
| DashboardController.FindId | app/controllers/dashboard_controller.rb:8-19 | a lookup by parameter finds only an id among the candidates, read from the parameter |
| DashboardController.Select | app/controllers/dashboard_controller.rb:5-20 | only an internal admin selects a company, and it is an active one; an admin's center belongs to the selected company; anyone else's center comes from their policy scope |
| DashboardController.MemberSelectsOwnCenter | app/controllers/dashboard_controller.rb:17-19 | outside the internal admins a selected center belongs to the user's current company (together with app/policies/customer_policy.rb:34-42) |
| DashboardController.PolicyAdmitsMatchesScope | app/controllers/dashboard_controller.rb:63 | the per-order admission test agrees with the order policy scope (together with app/policies/order_policy.rb:43-51) |
| DashboardController.OrderScope | app/controllers/dashboard_controller.rb:62-71 | the dashboard orders are orders the policy scope and the selection both admit |
| DashboardController.OrderScopeComplete | app/controllers/dashboard_controller.rb:62-71 | every order the policy scope and the selection admit is on the dashboard |
| DashboardController.MemberScopeIsolated | app/controllers/dashboard_controller.rb:62-71 | outside the internal admins the dashboard shows only the user's company's orders, and only the selected center's when one is selected |
| DashboardController.MonthFiguresOf | app/controllers/dashboard_controller.rb:34-54 | cost and profit of the month are computed exactly for internal admins |
| DashboardController.FiguresMatchChart | app/controllers/dashboard_controller.rb:34-54 | the month figures of a chart month equal that month's chart points (together with app/controllers/dashboard_controller.rb:92-147) |
| DashboardController.Index | app/controllers/dashboard_controller.rb:4-57 | the dashboard renders for users with a profile; the chart is the admin chart exactly for internal admins; the pending count is zero for users who cannot approve members; the displayed month is a valid date |
| ItemsController.OfferedCompanies | app/controllers/items_controller.rb:7-12 | an internal admin is offered the active companies, anyone else only their current company, if any |
| ItemsController.SelectCompany | app/controllers/items_controller.rb:14-20 | the selected company is the posted one when offered, otherwise the first offered one, and none only when nothing is offered |
| ItemsController.SelectOfferedCompany | app/controllers/items_controller.rb:15-17 | a posted offered company's id selects that company |
| ItemsController.ListedItems | app/controllers/items_controller.rb:22-29 | the listed items are exactly the scoped items of the selected company, unchanged, and the list fails when the scope does (together with app/policies/item_policy.rb:39-52) |
| ItemsController.Index | app/controllers/items_controller.rb:6-32 | the selected company is always one of the offered ones |
| ItemsController.MemberListsOwnItems | app/controllers/items_controller.rb:6-32 | outside the internal admins the list holds only items the user's own company owns |
| ItemsController.AdminListsSelectedCompany | app/controllers/items_controller.rb:6-32 | an internal admin selecting an offered company sees exactly that company's items |
| ItemsController.Target | app/controllers/items_controller.rb:106-110 | a posted id names a target company exactly when it is not blank, names an existing company and is not the item's own company |
| ItemsController.WithoutItem | app/controllers/items_controller.rb:103 | clearing the item's shares removes exactly its pairs |
| ItemsController.CreateFrom | app/controllers/items_controller.rb:106-113 | the create loop never removes a pair |
| ItemsController.TargetsCons | app/controllers/items_controller.rb:106-113 | the companies named by a list of ids are those named by its head and by its tail |
| ItemsController.RepeatsCons | app/controllers/items_controller.rb:106-113 | a list of ids names some company twice exactly when its tail does or the head names a company the tail names |
| ItemsController.CreateFromExact | app/controllers/items_controller.rb:106-113 | started without pairs of the item, the loop raises exactly when two ids name the same company, and otherwise adds one pair per named company |
| ItemsController.CreateFromRaises | app/controllers/items_controller.rb:106-113 | the create loop raises exactly when two posted ids name the same company |
| ItemsController.CreateFromAdds | app/controllers/items_controller.rb:106-113 | without repeats, the loop adds one pair per company named and nothing else |
| ItemsController.CreateFromExact1 | app/controllers/items_controller.rb:112 | an existing pair named again makes the loop raise |
| ItemsController.VisibleUpdateExact | app/controllers/items_controller.rb:98-114 | after an internal admin's update without repeated companies the item is shared with exactly the named companies, and other items' pairs are unchanged |
| ItemsController.VisibleUpdateIdempotent | app/controllers/items_controller.rb:98-114 | posting the same ids again changes nothing |
| ItemsController.NeverSharedWithOwner | app/controllers/items_controller.rb:110 | the item is never shared with its own company |
| ItemsController.DeactivationKeepsItemErrors | app/controllers/items_controller.rb:79 | deactivating an item changes none of its validation errors (together with app/models/item.rb:15-22) |
| ItemsController.ItemCatalog.Destroy | app/controllers/items_controller.rb:76-84 | destroy deactivates a valid item and redirects to the list, leaves an invalid one and redirects back with an alert, and never touches the shares |
| ItemsController.ItemCatalog.UpdateVisibleCompanies | app/controllers/items_controller.rb:98-114 | the shares become what the visible-companies update specifies and the items stay as they were |
| ManufacturersController.FindManufacturer | app/controllers/manufacturers_controller.rb:57-59 | a manufacturer is found exactly when it is in the user's policy scope |
| ManufacturersController.LookupStaysInScope | app/controllers/manufacturers_controller.rb:57-59 | an inactive user finds nothing, a manufacturer user finds only their own manufacturer, and any other active user finds every manufacturer (together with app/policies/manufacturer_policy.rb:29-42) |
| ManufacturersController.NullifyProfiles | app/models/manufacturer.rb:10 | deleting a manufacturer clears exactly the profiles pointing at it |
| ManufacturersController.ManufacturerRegistry.Destroy | app/controllers/manufacturers_controller.rb:44-53 | a manufacturer with items is kept and the alert shown; otherwise it is deleted, its profiles cleared, and the notice shown |
| ManufacturersController.DestroyKeepsReferences | app/controllers/manufacturers_controller.rb:44-53 | after a delete no item or profile points at a missing manufacturer (together with app/models/manufacturer.rb:9-10) |
| AdminCompaniesController.RequireInternalAdmin | app/controllers/admin/companies_controller.rb:50-54 | a request passes exactly for an internal admin; anyone else is redirected to root with the not-authorized alert (together with app/controllers/admin/company_payments_controller.rb:75-79) |
| AdminCompaniesController.Gate | app/controllers/admin/companies_controller.rb:5-6 | a request naming a missing company is refused, and every action but show passes only for internal admins (together with app/controllers/admin/companies_controller.rb:56-58) |
| AdminCompaniesController.GateMatchesPolicy | app/controllers/admin/companies_controller.rb:5-46 | for an existing company the controller lets a request through exactly when the company policy allows the action (together with app/policies/company_policy.rb:5-24) |
| AdminCompaniesController.MemberSeesOwnCompanyOnly | app/controllers/admin/companies_controller.rb:14-16 | an active member may open their own company's page and no other, and may never edit or update it (together with app/policies/company_policy.rb:5-24) |
| AdminCompaniesController.CompanyParams | app/controllers/admin/companies_controller.rb:60-72 | only the permitted fields survive, never the order sequence or the payment terms, and a one-line domains textarea is split into its stripped non-blank lines |
| AdminCompaniesController.CastBoolean | app/controllers/admin/companies_controller.rb:62 | a blank form value casts to nil and exactly the false spellings cast to false |
| AdminCompaniesController.CheckBoxValues | app/controllers/admin/companies_controller.rb:62 | the checkbox's "1" and "0" cast to true and false |
| AdminCompaniesController.DomainsOf | app/controllers/admin/companies_controller.rb:62-69 | a permitted list of domains is stored as the array of the same strings |
| AdminCompaniesController.Assign | app/controllers/admin/companies_controller.rb:41 | a column without a submitted parameter keeps its value |
| AdminCompaniesController.EntryTexts | app/controllers/admin/companies_controller.rb:66-69 | the texts of the stored domain entries, in order |
| AdminCompaniesController.ResubmitChangesNothing | app/controllers/admin/companies_controller.rb:38-46 | resubmitting the edit form unchanged, even with an extra field such as the order sequence, assigns the values the company already has (together with app/controllers/admin/companies_controller.rb:60-72) |
| AdminCompaniesController.AssignOwnValues | app/controllers/admin/companies_controller.rb:41 | assigning each column its own value changes nothing |
| AdminCompaniesController.ResubmittedParams | app/controllers/admin/companies_controller.rb:60-72 | the resubmitted textarea is split back into the company's list of domains |
| AdminCompaniesController.SavedFormIsValid | app/controllers/admin/companies_controller.rb:31 | a company saved from the form has a valid prefix, a non-negative sequence, a unique code, a name and at least one domain (together with app/models/company.rb:21-28) |
| AdminCompaniesController.UpdateCompany | app/controllers/admin/companies_controller.rb:38-46 | an update writes the permitted fields when valid, renders the form when not, and never touches the order sequence, payment terms or address |
| AdminCompaniesController.CreateCompany | app/controllers/admin/companies_controller.rb:27-36 | a valid form creates a company numbered from zero without payment terms and redirects to it; an invalid one renders the form |
| AdminCompanyPaymentsController.Gate | app/controllers/admin/company_payments_controller.rb:5-6 | a request passes exactly for an internal admin naming an existing payment where one is needed; others meet the internal-admin guard (together with app/controllers/admin/company_payments_controller.rb:81-83) |
| AdminCompanyPaymentsController.Filtered | app/controllers/admin/company_payments_controller.rb:11-19 | the paid, unpaid and overdue filters select exactly those payments, unchanged; any other filter lists everything (together with app/models/company_payment.rb:15-17) |
| AdminCompanyPaymentsController.TabsSplitTheList | app/controllers/admin/company_payments_controller.rb:9-21 | the paid and unpaid tabs partition the list, and every overdue payment is on the unpaid tab (together with app/models/company_payment.rb:15-17) |
| AdminCompanyPaymentsController.NewDefaults | app/controllers/admin/company_payments_controller.rb:27-32 | the new form's company comes from the parameter and lies in the company scope; a missing year or month defaults to today's (together with app/controllers/admin/company_payments_controller.rb:85-87) |
| AdminCompanyPaymentsController.NewDefaultsRoundTrip | app/controllers/admin/company_payments_controller.rb:27-32 | a link carrying a company and a period opens the form with exactly those; empty parameters read as zero |
| AdminCompanyPaymentsController.Assigned | app/controllers/admin/company_payments_controller.rb:56 | a submitted field replaces the column and an absent one keeps it |
| AdminCompanyPaymentsController.WithoutCompany | app/controllers/admin/company_payments_controller.rb:55 | the update drops the submitted company |
| AdminCompanyPaymentsController.UpdateKeepsCompany | app/controllers/admin/company_payments_controller.rb:53-61 | an update never moves a payment to another company, whatever company is submitted |
| AdminCompanyPaymentsController.SaveKeepsLedgerValid | app/controllers/admin/company_payments_controller.rb:41 | writing a row that passed its validations keeps the whole table valid, one payment per company and month (together with app/controllers/admin/company_payments_controller.rb:56, app/models/company_payment.rb:10-13) |
| AdminCompanyPaymentsController.DestroyKeepsLedgerValid | app/controllers/admin/company_payments_controller.rb:66 | removing a payment keeps the table valid |
| AdminCompanyPaymentsController.PaymentLedger.Create | app/controllers/admin/company_payments_controller.rb:37-47 | a payment without validation errors whose company exists is added under the new id and the list shown; one without validation errors but with a missing or unknown company leaves the table unchanged and raises at the insert; otherwise the form is rendered |
| AdminCompanyPaymentsController.PaymentLedger.Update | app/controllers/admin/company_payments_controller.rb:53-61 | an update without validation errors whose company exists replaces the row; one without validation errors but with a missing or unknown company leaves the table unchanged and raises at the write; otherwise the form is rendered |
| AdminCompanyPaymentsController.PaymentLedger.Destroy | app/controllers/admin/company_payments_controller.rb:63-71 | the payment is always removed, and the response goes to its company's page |
| AdminUserProfilesController.Gate | app/controllers/admin/user_profiles_controller.rb:5 | a request for a profile passes only when the profile is in the user's scope and the profile policy allows the action (together with app/controllers/admin/user_profiles_controller.rb:119-121) |
| AdminUserProfilesController.GateKeepsTenant | app/controllers/admin/user_profiles_controller.rb:5 | outside the internal admins a passed request names a profile of the user's company, and a role change never targets the user's own profile (together with app/controllers/admin/user_profiles_controller.rb:119-121, app/policies/user_profile_policy.rb:14-42) |
| AdminUserProfilesController.CompanyList | app/controllers/admin/user_profiles_controller.rb:9-14 | a non-internal admin is offered at most their own company |
| AdminUserProfilesController.SelectTab | app/controllers/admin/user_profiles_controller.rb:16-34 | the unassigned and manufacturers tabs open only for internal admins who ask for them; a company tab is always an offered company; there is no tab only when nothing is offered |
| AdminUserProfilesController.TabLinkRoundTrip | app/controllers/admin/user_profiles_controller.rb:16-34 | a link carrying an offered company's id opens its tab, and no parameter opens the first company |
| AdminUserProfilesController.NumeralNotKeyword | app/controllers/admin/user_profiles_controller.rb:17-26 | a company id written out is neither special tab name |
| AdminUserProfilesController.NumeralReadsBack | app/controllers/admin/user_profiles_controller.rb:17-26 | a company id written out is present and reads back as itself |
| AdminUserProfilesController.ListedProfiles | app/controllers/admin/user_profiles_controller.rb:36-55 | the listed profiles come from the policy scope unchanged: unassigned members, manufacturer accounts, or the active members of the selected company (together with app/models/user_profile.rb:33-39) |
| AdminUserProfilesController.IndexIsolation | app/controllers/admin/user_profiles_controller.rb:8-58 | outside the internal admins the list holds only the user's company's members |
| AdminUserProfilesController.PermittedParams | app/controllers/admin/user_profiles_controller.rb:137-141 | internal admins may post every field; anyone else only the name, phone, payment terms and billing center |
| AdminUserProfilesController.UpdatedProfile | app/controllers/admin/user_profiles_controller.rb:72-81 | an update never changes the profile's id, user, role or supervisor |
| AdminUserProfilesController.CompanyAdminCannotReassign | app/controllers/admin/user_profiles_controller.rb:137-141 | a non-internal admin cannot change the company, the manufacturer or the member status |
| AdminUserProfilesController.ManufacturerAssignment | app/controllers/admin/user_profiles_controller.rb:73-76 | assigning a manufacturer makes the profile a manufacturer user, active and without a company, which the company presence rule then accepts (together with app/models/user_profile.rb:103-105) |
| AdminUserProfilesController.UnlinkKeepsCompany | app/controllers/admin/user_profiles_controller.rb:77-78 | removing the manufacturer keeps the posted or current company and the member status |
| AdminUserProfilesController.UpdateProfile | app/controllers/admin/user_profiles_controller.rb:69-87 | a valid updated profile replaces the row and redirects to it; otherwise the table is unchanged and the form rendered |
| AdminUserProfilesController.RoleDecision | app/controllers/admin/user_profiles_controller.rb:92-108 | a role change goes ahead only for a known role, not on the user's own profile, and to internal admin only when granted by an internal admin; an unknown role is refused with the invalid-role alert |
| AdminUserProfilesController.RoleGuards | app/controllers/admin/user_profiles_controller.rb:92-108 | once the policy allows the change, a known role is never refused as invalid or as the user's own, and never raises above the changer's role (together with app/policies/user_profile_policy.rb:14-42) |
| AdminUserProfilesController.DemotingCompanylessAdminFails | app/controllers/admin/user_profiles_controller.rb:110-114 | demoting an internal admin who has no company and no manufacturer fails the company presence rule (together with app/models/user_profile.rb:25, app/models/user_profile.rb:103-105) |
| AdminUserProfilesController.ChangeRoleOf | app/controllers/admin/user_profiles_controller.rb:89-115 | a refused change leaves the table and shows its alert; an allowed one writes the new role when the row stays valid and reports failure otherwise |
| SessionsController.AfterSignIn | app/controllers/users/sessions_controller.rb:9-23 | pending members land on the pending page; rejected and unassigned members are signed out with an alert and sent to login; everyone else goes to the stored location or the dashboard |
| SessionsController.AfterSignOut | app/controllers/users/sessions_controller.rb:25-27 | signing out leads to the login page |
| SessionsController.SignInAgreesWithGate | app/controllers/users/sessions_controller.rb:9-23 | the sign-in redirect and the member-status filter agree on who is let in and who is signed out (together with app/controllers/application_controller.rb:41-57) |
| SessionsController.AuthenticatedMembersLandNormally | app/controllers/users/sessions_controller.rb:20-22 | a user active for authentication lands on the stored location or the dashboard (together with app/models/user.rb:25-27) |
| RegistrationsController.SignUpParams | app/controllers/users/registrations_controller.rb:33-35 | sign-up keeps exactly the submitted email and passwords |
| RegistrationsController.AccountUpdateParams | app/controllers/users/registrations_controller.rb:37-39 | an account update keeps exactly the submitted email, passwords and current password |
| RegistrationsController.SignUpIgnoresOtherFields | app/controllers/users/registrations_controller.rb:33-35 | adding or removing a non-permitted field changes nothing |
| RegistrationsController.ValidateEmailDomain | app/controllers/users/registrations_controller.rb:9-17 | sign-up continues exactly when an active company lists the email's domain, otherwise returns to sign-up with the invalid-domain alert (together with app/models/company.rb:34-43) |
| RegistrationsController.AfterSignUp | app/controllers/users/registrations_controller.rb:19-25 | signing up leads to the pending-approval page |
| RegistrationsController.AfterUpdate | app/controllers/users/registrations_controller.rb:27-29 | an account update leads back to the edit page |
| RegistrationsController.StripBlankPassword | app/controllers/users/registrations_controller.rb:42-46 | a blank password is dropped, its confirmation only when blank too, and nothing else changes |
| RegistrationsController.StripBlankPasswordIdempotent | app/controllers/users/registrations_controller.rb:42-46 | dropping blank passwords twice is doing it once |
| RegistrationsController.StripKeepsRealPasswords | app/controllers/users/registrations_controller.rb:42-46 | the password survives exactly when it is not blank, together with its confirmation |
| RegistrationsController.UpdateParams.DropBlankPassword | app/controllers/users/registrations_controller.rb:42-46 | the parameters are replaced in place by their stripped form |
| PagesController.Home | app/controllers/pages_controller.rb:7-15 | the landing page renders exactly for signed-out visitors; a signed-in manufacturer user goes to shipping requests and anyone else to the dashboard |
| PagesController.PendingApprovalPage | app/controllers/pages_controller.rb:17-21 | the waiting page renders exactly for pending members; anyone else goes to the dashboard |
| PagesController.WaitingPageMatchesGate | app/controllers/pages_controller.rb:5 | the members the status filter sends to the waiting page are exactly those the page renders for, so the redirect cannot loop (together with app/controllers/pages_controller.rb:17-21, app/controllers/application_controller.rb:41-57) |
| PagesController.ManufacturerLandingIsOpen | app/controllers/pages_controller.rb:9-10 | a manufacturer user's landing redirect targets a controller the manufacturer restriction lets through (together with app/controllers/application_controller.rb:84-93) |
| DeviseFailureApp.I18nMessage | app/lib/devise_failure_app.rb:12-35 | the application supplies its own message exactly for the nine known failure reasons |
| DeviseFailureApp.AlertText | app/lib/devise_failure_app.rb:12-35 | any other reason keeps the framework's text |
| DeviseFailureApp.CredentialFailuresIndistinguishable | app/lib/devise_failure_app.rb:14-19 | an unknown email, a wrong password and a bad token all show the same message, while the account-state messages are pairwise distinct |
| DeviseFailureApp.InactiveSymbol | app/lib/devise_failure_app.rb:26-29 | the user's inactive message maps pending and rejected profiles to their own reasons, anything else to the framework's (together with app/models/user.rb:29-37) |
| DeviseFailureApp.RefusedMemberIsTold | app/lib/devise_failure_app.rb:26-29 | a pending or rejected member who fails to sign in sees the pending or rejected message (together with app/models/user.rb:29-37) |
| DeviseFailureApp.FailureSession.Redirect | app/lib/devise_failure_app.rb:4-10 | the attempted location is stored, and the alert is set only for flashing formats without a notice; otherwise the flash is unchanged |
| ApplicationHelper.PageTitle | app/helpers/application_helper.rb:6-9 | a blank title gives the base title; otherwise the title followed by the separator and the base title |
| ApplicationHelper.TitlePart | app/helpers/application_helper.rb:6-9 | the page part recovered from a browser title is the prefix before the separator and base title |
| ApplicationHelper.PageTitleRoundTrip | app/helpers/application_helper.rb:6-9 | the page part of a rendered title is the given title, or none when it was blank |
| ApplicationHelper.FlashClass | app/helpers/application_helper.rb:11-22 | notice and success are green, alert and error red, warning yellow, and every other kind blue |
| AddApproverRoleMigration.OldRoleCode | db/migrate/20260223000000_add_approver_role_to_user_profiles.rb:6-7 | the three roles before the migration are stored as 0 to 2 |
| AddApproverRoleMigration.UpdateCode | db/migrate/20260223000000_add_approver_role_to_user_profiles.rb:8-27 | one UPDATE statement rewrites exactly the rows holding its source code |
| AddApproverRoleMigration.AsWrittenUpPromotesCompanyAdmins | db/migrate/20260223000000_add_approver_role_to_user_profiles.rb:4-13 | as written, the two statements in order move company admins to 3, making them internal admins indistinguishable from the real ones, and the rollback cannot restore them |
| AddApproverRoleMigration.UpRenumbersEachRole | db/migrate/20260223000000_add_approver_role_to_user_profiles.rb:4-13 | with the statements in the order the comment describes, every old role gets its new code, none becomes the new approver code, and the rollback restores it |
| AddApproverRoleMigration.DownRenumbersEachRole | db/migrate/20260223000000_add_approver_role_to_user_profiles.rb:15-27 | the rollback maps approvers to normal and every other role back to its old code |
| AddApproverRoleMigration.MapCodes | db/migrate/20260223000000_add_approver_role_to_user_profiles.rb:8-11 | a table-wide update keeps every row and rewrites each code by the statement |
| AddApproverRoleMigration.UpThenDownRestores | db/migrate/20260223000000_add_approver_role_to_user_profiles.rb:4-27 | migrating up and then down restores every table of old codes |
| AddApproverRoleMigration.RoleColumn.UpdateWhere | db/migrate/20260223000000_add_approver_role_to_user_profiles.rb:8-27 | one statement rewrites each row's code in place |
| AddApproverRoleMigration.RoleColumn.UpAsWritten | db/migrate/20260223000000_add_approver_role_to_user_profiles.rb:4-13 | the migration as written leaves each row with the as-written code |
| AddApproverRoleMigration.RoleColumn.Up | db/migrate/20260223000000_add_approver_role_to_user_profiles.rb:4-13 | the corrected migration leaves each row with its new code |
| AddApproverRoleMigration.RoleColumn.Down | db/migrate/20260223000000_add_approver_role_to_user_profiles.rb:15-27 | the rollback leaves each row with its old code |
| MoveApproverMigration.Cleared | db/migrate/20260229000000_move_approver_to_receiving_centers.rb:6-9 | clearing removes the approver of a billing center and changes nothing else |
| MoveApproverMigration.ClearedIdempotent | db/migrate/20260229000000_move_approver_to_receiving_centers.rb:6-9 | running the data migration twice is running it once |
| MoveApproverMigration.Up | db/migrate/20260229000000_move_approver_to_receiving_centers.rb:6-9 | every billing center loses its approver and every receiving center is left unchanged |
| MoveApproverMigration.Down | db/migrate/20260229000000_move_approver_to_receiving_centers.rb:11-13 | the rollback changes nothing |
| Web.RedirectWith | app/controllers/application_controller.rb:59-67 | a redirect with a flash never signs out |
| Web.Permit | app/controllers/orders_controller.rb:173-177 | strong parameters keep only permitted submitted keys, with their submitted values (together with app/controllers/customers_controller.rb:441-446) |
| Web.PermitIgnoresOtherKeys | app/controllers/orders_controller.rb:173-177 | adding or removing a non-permitted key changes nothing, and permitting twice is permitting once (together with app/controllers/customers_controller.rb:441-446) |

## Left out

- PDF and ZIP rendering (Prawn layout, fonts, UTF-8 coercion in the invoice and statement generators, the shipping-request PDF service, the ZIP building in `app/controllers/customers_controller.rb:207-237`): foreign library output; the order selection, aggregation and number formatting behind them are modelled.
- Tax figures: they multiply decimal amounts by the float 0.10 and truncate; floating point is not modelled.
- `app/helpers/co2_equivalents_helper.rb`: float arithmetic and rounding only.
- Concurrency: the `with_lock` row lock around the order-number sequence; the sequence is modelled as sequential calls.
- ORM and query plumbing: pagination, eager loading, ILIKE search and SQL sums; tables are maps or sequences and scopes are filters over them.
- The order-number search, status and date-range filters of the order list and the CSV export (`app/controllers/orders_controller.rb:15-20`, `:132-159`, `:209-241`): query and file-format plumbing; the "mine" filter and the sort choice are modelled.
- The customer list page, its JSON variant, the center page aggregates and the invoice download actions (`app/controllers/customers_controller.rb:6-83`, `:166-305`): listing and file plumbing; the invoice and statement selection they call is modelled in `InvoiceGenerator` and `StatementGenerator`.
- The center-assignment import action in `app/controllers/customers_controller.rb:347-384`: its importer (`CenterAssignmentImport`) is modelled, the surrounding form handling is not.
- The shipping-request list, page and template download (`app/controllers/shipping_requests_controller.rb:1-71`, `:195-261`) beyond the request-order selection (`ShippingRequestsController.ImportScopeListed`).
- Controllers that only call a model and a mailer (order approval requests, admin approval requests, admin issuer settings) and the access-log list: their logic lives in the modelled models and policies.
- Mail delivery, I18n lookups (message keys are opaque strings), PaperTrail auditing, Devise and Pundit configuration, routes, seeds and fixtures.
- CSV and date parsing: the importers take the parsed header row and data rows; `Date.parse` and JSON parsing are parameters of the members that use them.
- Case folding is ASCII only; the source's Unicode `downcase` is not modelled beyond ASCII letters.
- Database failures other than validation (a failed insert of an access log, a NOT NULL column) are modelled only where the source rescues or reports them; otherwise an operation's write is assumed to succeed when its validations pass.
- AccessLogs.ActionLabel: a nil controller path, on which `gsub` would raise, is read as the empty string; the presence validation keeps such rows out of the table.
- CustomersController.Create: the controller mutates its parameter hash in place; the model states the same steps as a value transformation of the parameters.
- The manufacturer, item and customer create/update actions beyond the steps listed in the table: each only saves the permitted parameters or renders the form again; the manufacturers' domains textarea split is `Domains.NormalizeDomainsParam`, shared with the admin companies controller.
- UserProfiles.ProfileErrors: models the schema that still has `user_profiles.supervisor_id`; once migration 20260230000000 drops it, the profile validation at `app/models/user_profile.rb:117` raises and this operation raises with it (`UserProfiles.DroppedSupervisorColumnRaises`).
- UserProfiles.StatusChangeKeepsValid: models the schema that still has `user_profiles.supervisor_id`; once migration 20260230000000 drops it, the profile validation at `app/models/user_profile.rb:117` raises and this operation raises with it (`UserProfiles.DroppedSupervisorColumnRaises`).
- UserProfiles.WritableWhenValid: models the schema that still has `user_profiles.supervisor_id`; once migration 20260230000000 drops it, the profile validation at `app/models/user_profile.rb:117` raises and this operation raises with it (`UserProfiles.DroppedSupervisorColumnRaises`).
- UserProfiles.ProfileTable.Insert: models the schema that still has `user_profiles.supervisor_id`; once migration 20260230000000 drops it, the profile validation at `app/models/user_profile.rb:117` raises and this operation raises with it (`UserProfiles.DroppedSupervisorColumnRaises`).
- UserProfiles.ProfileTable.UpdateMemberStatus: models the schema that still has `user_profiles.supervisor_id`; once migration 20260230000000 drops it, the profile validation at `app/models/user_profile.rb:117` raises and this operation raises with it (`UserProfiles.DroppedSupervisorColumnRaises`).
- ApprovalRequests.Review: models the schema that still has `user_profiles.supervisor_id`; once migration 20260230000000 drops it, the profile validation at `app/models/user_profile.rb:117` raises and this operation raises with it (`UserProfiles.DroppedSupervisorColumnRaises`).
- ApprovalRequests.ApprovalActivatesMember: models the schema that still has `user_profiles.supervisor_id`; once migration 20260230000000 drops it, the profile validation at `app/models/user_profile.rb:117` raises and this operation raises with it (`UserProfiles.DroppedSupervisorColumnRaises`).
- ApprovalRequests.ApprovalRequest.ReviewAs: models the schema that still has `user_profiles.supervisor_id`; once migration 20260230000000 drops it, the profile validation at `app/models/user_profile.rb:117` raises and this operation raises with it (`UserProfiles.DroppedSupervisorColumnRaises`).
- ApprovalRequests.ApprovalRequest.Approve: models the schema that still has `user_profiles.supervisor_id`; once migration 20260230000000 drops it, the profile validation at `app/models/user_profile.rb:117` raises and this operation raises with it (`UserProfiles.DroppedSupervisorColumnRaises`).
- ApprovalRequests.ApprovalRequest.Reject: models the schema that still has `user_profiles.supervisor_id`; once migration 20260230000000 drops it, the profile validation at `app/models/user_profile.rb:117` raises and this operation raises with it (`UserProfiles.DroppedSupervisorColumnRaises`).
- Users.NewProfileValidity: models the schema that still has `user_profiles.supervisor_id`; once migration 20260230000000 drops it, the profile validation at `app/models/user_profile.rb:117` raises and this operation raises with it (`UserProfiles.DroppedSupervisorColumnRaises`).
- Users.CreateUserProfileFromDomain: models the schema that still has `user_profiles.supervisor_id`; once migration 20260230000000 drops it, the profile validation at `app/models/user_profile.rb:117` raises and this operation raises with it (`UserProfiles.DroppedSupervisorColumnRaises`).
- Users.SignupLeavesOnePendingRequest: models the schema that still has `user_profiles.supervisor_id`; once migration 20260230000000 drops it, the profile validation at `app/models/user_profile.rb:117` raises and this operation raises with it (`UserProfiles.DroppedSupervisorColumnRaises`).
- CenterAssignmentImport.MemberStep: models the schema that still has `user_profiles.supervisor_id`; once migration 20260230000000 drops it, the profile validation at `app/models/user_profile.rb:117` raises and this operation raises with it (`UserProfiles.DroppedSupervisorColumnRaises`).
- CenterAssignmentImport.MembersAccounting: models the schema that still has `user_profiles.supervisor_id`; once migration 20260230000000 drops it, the profile validation at `app/models/user_profile.rb:117` raises and this operation raises with it (`UserProfiles.DroppedSupervisorColumnRaises`).
- CenterAssignmentImport.Importer.Run: models the schema that still has `user_profiles.supervisor_id`; once migration 20260230000000 drops it, the profile validation at `app/models/user_profile.rb:117` raises and this operation raises with it (`UserProfiles.DroppedSupervisorColumnRaises`).
- CenterAssignmentImport.Importer.ProcessRow: models the schema that still has `user_profiles.supervisor_id`; once migration 20260230000000 drops it, the profile validation at `app/models/user_profile.rb:117` raises and this operation raises with it (`UserProfiles.DroppedSupervisorColumnRaises`).
- CenterAssignmentImport.Importer.UpdateMembers: models the schema that still has `user_profiles.supervisor_id`; once migration 20260230000000 drops it, the profile validation at `app/models/user_profile.rb:117` raises and this operation raises with it (`UserProfiles.DroppedSupervisorColumnRaises`).
- AdminUserProfilesController.UpdateProfile: models the schema that still has `user_profiles.supervisor_id`; once migration 20260230000000 drops it, the profile validation at `app/models/user_profile.rb:117` raises and this operation raises with it (`UserProfiles.DroppedSupervisorColumnRaises`).
- AdminUserProfilesController.ChangeRoleOf: models the schema that still has `user_profiles.supervisor_id`; once migration 20260230000000 drops it, the profile validation at `app/models/user_profile.rb:117` raises and this operation raises with it (`UserProfiles.DroppedSupervisorColumnRaises`).
- OrdersController.Create: models the schema that still has `user_profiles.supervisor_id`; once migration 20260230000000 drops it, `supervisor_user` is always nil and every order is confirmed at once (`OrdersController.DroppedSupervisorConfirmsAtOnce`).
- OrdersController.AfterSave: models the schema that still has `user_profiles.supervisor_id`; once migration 20260230000000 drops it, the approval branch is never taken and every order is confirmed at once (`OrdersController.DroppedSupervisorConfirmsAtOnce`).
- CustomersController.CastId: a negative number is read as nil, where the assignment would store it and `find_by` would find nothing; underscores between digits, which `to_i` accepts, are not modelled.
- Companies.CompanyHasDomain: a non-string entry of `domains` is treated as not matching, where `casecmp?` on it would raise; only rows that fail the domains validation can hold one.
- PasswordValidations: no model includes the concern, so its rules are modelled as defined but are not in force on any record.
- CenterAssignmentImport: the validity of a center and of a profile are the parameters `centerValid` and `profileValid` of the importer (`center_assignment_import.dfy`), standing for `Customer#valid?` and `UserProfile#valid?`; `profileValid` assumes the supervisor column exists (see `UserProfiles.DroppedSupervisorColumnRaises`). Each user's e-mail (`emailOf`) is a parameter too, standing for `user.email`; nothing ties these parameters to the tables.
- StatementGenerator.Generate: `centersByCode` is a parameter standing for the query that loads the billed orders' centers ordered by code; the model does not require it to hold exactly those centers in that order, so the block figures are stated for whatever sequence is given.
- `current_manufacturer` and `manufacturer_user?` on `User`, called by the controllers, are not defined in `app/models/user.rb`; the model reads both from the user's profile, where `manufacturer_user?` is defined, rather than modelling the NoMethodError.

## Findings

| source | as written | input that shows it | evidently intended | confidence | as-written member | corrected member |
|---|---|---|---|---|---|---|
| db/migrate/20260223000000_add_approver_role_to_user_profiles.rb:8-11 | moves role 1 to 2, then role 2 to 3, so the second statement also catches the rows the first one moved | a company admin (role 1) before the migration | company admins become 2 and internal admins 3, as the comment at lines 5-6 says (run the second statement first) | high; not executed | AddApproverRoleMigration.AsWrittenUpPromotesCompanyAdmins | AddApproverRoleMigration.UpRenumbersEachRole |
| app/controllers/shipping_requests_controller.rb:105 | calls `ship!` with two positional arguments and a keyword, while `app/models/order.rb:94` takes at most two positional ones, so the call raises | a manufacturer registering a whole-order shipment (no item code) for a confirmed order | ship the order with the tracking number, date and carrier, and mark the manufacturer's lines | high; not executed | ShippingRequestsController.AsWrittenOrderShipmentRaises | ShippingRequestsController.CorrectedOrderShipment |
| app/controllers/shipping_requests_controller.rb:178 | the same three-argument `ship!` call in the CSV import, outside any rescue | a CSV row with an order number, carrier and tracking number but no item code | the row ships the order and counts as a success; the import never raises | high; not executed | ShippingRequestsController.AsWrittenOrderRowRaises | ShippingRequestsController.ImportAccounting |
| app/controllers/customers_controller.rb:488-501 | a new center is built with neither `is_billing_center` nor `billing_center_id`, so the receiving-center validation rejects it | a CSV row whose center code is new for the company | the import creates the center (as a billing center, which needs no parent) | medium; not executed | CustomersController.AsWrittenNewCenterRejected | CustomersController.CorrectedNewCenterIsBillingCenter |
| app/controllers/customers_controller.rb:504 | `persisted_before_last_save?` is not an ActiveRecord method; the NoMethodError is rescued at lines 516-517 and the saved row is reported as an error | any CSV row that saves | count the row as updated or created and report success when every row saved | medium; not executed | CustomersController.AsWrittenImportNeverSucceeds | CustomersController.CorrectedImportCounts |
| app/controllers/application_controller.rb:115 | `centers_as_approver` is defined nowhere (not on `UserProfile`, which has no association of that name), so for every active user who cannot open the admin dashboard the call raises and the rescue at lines 119-120 sets the count to 0 | an active normal-role user named approver of a receiving center that has a pending order approval request | a center approver sees the number of pending requests in their scope, and a user who approves nothing gets no badge | high; not executed | ApplicationController.CenterApproverSeesZero | ApplicationController.PendingOrderApprovalsCount |
| app/models/user_profile.rb:117 | `supervisor_must_be_same_company` and `cannot_be_own_supervisor` (:125) read `supervisor_id` unguarded; migration `db/migrate/20260230000000_remove_supervisor_from_user_profiles.rb` drops the column, so the read raises NameError and sign-up, member approval, the admin profile update and the center-assignment import all raise; `supervisor_user` is nil and `app/controllers/orders_controller.rb:190-194` confirms every order at once | any profile save after migration 20260230000000 | guard the reads as `manufacturer_id` is guarded, so the supervisor reads as nil and the remaining rules apply | high; not executed | UserProfiles.DroppedSupervisorColumnRaises | UserProfiles.ValidateGuarded |
