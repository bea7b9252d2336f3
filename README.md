# CRM Seguros: a verified model of its data-shaping and form logic

CRM Seguros is a web front end for an insurance agent. The agent keeps
policyholders, who are natural persons ("fisico") or legal entities
("juridico"), together with their policies, insurance companies and their
coverages, policy types, currencies and expiry notifications. Every read and
write goes to a hosted database. What the browser computes itself is modelled
here:

- **Name and phone formatting.** This is used by the birthday reminders and
  the WhatsApp links.
- **The backup workbook.** Export writes one sheet per entity with Spanish
  column headers. Import reads those sheets back into records.
- **The dashboard.** It shows monthly premium income per currency, the
  counters, and a currency symbol beside each amount.
- **Each list page.**
  - Searches and filters.
  - Counters, labels, colours and icons.
  - Each form's initial values and save payload.
  - The company page's three-item coverage preview.
  - The currency presets.
  - The policy-type icon grid.
  - The local read-state updates of the notification list.
- **The login card.** One form is a sign-in, a sign-up, a reset request or
  the verification step of a reset, chosen by three flags.
- **The password-recovery page.** It checks the link's tokens, then takes the
  new password twice.

Modules follow the source files:

- `FormatUtils`, `ExcelUtils` and `Dashboard`.
- `PolicyholderList`, `PolicyList`, `NotificationList`,
  `InsuranceCompanyList`, `CurrencyList` and `PolicyTypesList`.
- `AuthForm` and `ResetPasswordForm`.

Four shared modules support them:

- `Js` holds JavaScript's null and `x || default` semantics and template
  interpolation of null.
- `Text` holds case mapping, trimming, `includes`, digit stripping and
  `parseInt`.
- `Lists` holds an order-preserving filter and the subsequence relation.
- `Records` holds the table rows.

Components whose handlers assign state variables one after another are
classes:

- `AuthForm.AuthFormState`
- `ResetPasswordForm.ResetPasswordState`
- `NotificationList.NotificationState`

Each method is proved equal to a pure transition function of the old state,
and the lemmas are stated about those functions. The two filter effects that
reassign a local `filtered` step by step are methods. They are proved equal to
one filter by the conjunction of the stages. The dashboard's `forEach`
aggregation is a loop over a map, proved against a per-currency sum.

The answers of the database and of the account service are parameters. These
include a count the store returned or left out, whether an update failed, and
the session check's answer.

## Model

| member | source | states |
|---|---|---|
| FormatUtils.FormatName | src/utils/formatUtils.ts:2-5 | '' stays ''. Otherwise the result has the input's letters, the first character is not lower-case and no later one is upper-case. |
| FormatUtils.FormatNameIdempotent | src/utils/formatUtils.ts:2-5 | Formatting a first name twice is formatting it once. |
| FormatUtils.FormatLastName | src/utils/formatUtils.ts:7-10 | '' stays ''. Otherwise the result is the same letters, all upper-case. |
| FormatUtils.FormatBusinessName | src/utils/formatUtils.ts:12-15 | Same rule as a last name: '' stays '', otherwise the same letters, all upper-case. |
| FormatUtils.FormatLastNameIdempotent | src/utils/formatUtils.ts:7-15 | Last-name and business-name formatting are idempotent. |
| FormatUtils.FormatPolicyholderName | src/utils/formatUtils.ts:17-27 | No policyholder gives 'Sin asegurado'. A non-fisico gives the upper-cased business name, or 'SIN NOMBRE' when it is empty. A fisico gives the formatted first name, a blank and the upper-cased last name, trimmed, so no blank at either end. |
| FormatUtils.FisicoNameBothParts | src/utils/formatUtils.ts:20-23 | With both parts present and no white space at the outer ends, nothing is trimmed: the result is the formatted first name, one blank, and the upper-cased last name. |
| FormatUtils.FisicoNameMissingPart | src/utils/formatUtils.ts:20-23 | When one part of a fisico name is missing, the result is the other part alone, trimmed. When both are missing, it is ''. |
| FormatUtils.FormatPhoneForWhatsApp | src/utils/formatUtils.ts:30-41 | '' gives ''. The output has only digits and is the phone's digits. '54' is prefixed exactly when there are ten digits that do not start with 54. |
| FormatUtils.FormatPhoneIdempotent | src/utils/formatUtils.ts:36-40 | Formatting an already formatted number changes nothing. |
| FormatUtils.WhatsAppUrl | src/utils/formatUtils.ts:43-54 | There is no URL exactly when the number formats to ''. Otherwise the URL is 'https://wa.me/' plus the number, with '?text=' and the message only when the message is non-empty. |
| FormatUtils.BirthdaysThisWeek | src/utils/formatUtils.ts:57-77 | Keeps, in order, exactly the fisico policyholders that have a date of birth inside the window. |
| Records.EntityTypeLabel | src/components/PolicyholderList.tsx:103-105 | 'Persona Física' exactly for 'fisico'; 'Persona Jurídica' for every other type. |
| Records.ToggledStatus | src/components/PolicyTypesList.tsx:71-84 | The status toggle writes the opposite of the current `is_active`. The company and currency toggles do the same. |
| Js.ParsedOrZero | src/components/PolicyList.tsx:504 | `parseFloat(v) \|\| 0` keeps a parsed number and gives 0 for input that does not parse. The coverage premium at InsuranceCompanyList.tsx:671 works the same way. |
| Js.OrEmptyThenNull | src/utils/excelUtils.ts:17-30 | `\|\| null` undoes `\|\| ''` on every value except the empty string. |
| ExcelUtils.InsuredName | src/utils/excelUtils.ts:37-40 | The 'Asegurado' column is "first last" for a fisico, the business name otherwise, and '' without a policyholder. |
| ExcelUtils.ExportWorkbook | src/utils/excelUtils.ts:84-95 | Exactly the five named sheets, each holding one row per record in list order. |
| ExcelUtils.CellOrNull | src/utils/excelUtils.ts:135-148 | `row[h] \|\| null` is null exactly when the cell is missing or falsy, and otherwise is the cell. |
| ExcelUtils.ImportPolicyholderRow | src/utils/excelUtils.ts:133-149 | The entity type is 'fisico' exactly when the cell reads 'Persona Física', and 'juridico' otherwise. |
| ExcelUtils.ImportCompanyRow | src/utils/excelUtils.ts:155-162 | `is_active` holds exactly when the 'Activa' cell is 'Sí'. |
| ExcelUtils.CustomFieldsOf | src/utils/excelUtils.ts:174 | A missing or empty cell gives []. JSON text gives its list. Anything else makes the parse fail. |
| ExcelUtils.ImportPolicyTypeRow | src/utils/excelUtils.ts:168-175 | The icon defaults to '📋' and the order to 0 when their cells are missing or falsy. Active exactly when 'Activo' is 'Sí'. |
| ExcelUtils.ImportCurrencyRow | src/utils/excelUtils.ts:181-186 | `is_active` holds exactly when the 'Activa' cell is 'Sí'. |
| ExcelUtils.ImportPolicyholders | src/utils/excelUtils.ts:133 | One imported record per row, in row order. |
| ExcelUtils.ImportCompanies | src/utils/excelUtils.ts:155 | One imported record per row, in row order. |
| ExcelUtils.ImportPolicyTypes | src/utils/excelUtils.ts:168 | One imported record per row, in row order. |
| ExcelUtils.ImportCurrencies | src/utils/excelUtils.ts:181 | One imported record per row, in row order. |
| ExcelUtils.ImportWorkbook | src/utils/excelUtils.ts:121-192 | Rejected exactly when a custom-field cell fails to parse. Policies are always []. An absent sheet gives []. A present sheet gives exactly that sheet's rows imported one by one, in order. |
| ExcelUtils.ImportFromExcel | src/utils/excelUtils.ts:116-193 | Filling the result sheet by sheet gives the outcome `ImportWorkbook` specifies. |
| ExcelUtils.EntityTypeRoundTrip | src/utils/excelUtils.ts:16 | After export and import, 'fisico' comes back as 'fisico' and any other type as 'juridico'. |
| ExcelUtils.TextColumnRoundTrip | src/utils/excelUtils.ts:17-30 | A column written as `value \|\| ''` reads back as the value when it is non-empty, and as null otherwise. |
| ExcelUtils.NameColumnsRoundTrip | src/utils/excelUtils.ts:17-21 | First name, last name, business name, business type and legal representative round-trip: non-empty values unchanged, null or empty as null. |
| ExcelUtils.IdColumnsRoundTrip | src/utils/excelUtils.ts:22-30 | DNI, CUIL/CUIT, email, phone and date of birth round-trip the same way. |
| ExcelUtils.AddressColumnsRoundTrip | src/utils/excelUtils.ts:26-29 | Address, city, state and postal code round-trip the same way. |
| ExcelUtils.PolicyholderRoundTrip | src/utils/excelUtils.ts:15-32 | An exported and re-imported policyholder is its entity type plus every text field, non-empty or null. |
| ExcelUtils.CompanyRoundTrip | src/utils/excelUtils.ts:53-61 | A company comes back with its name, its optional fields non-empty or null, and its `is_active` through 'Sí'/'No'. |
| ExcelUtils.PolicyTypeRoundTrip | src/utils/excelUtils.ts:64-72 | A policy type comes back with its name, description, order, `is_active` and custom fields. An empty icon comes back as '📋'. |
| ExcelUtils.CurrencyRoundTrip | src/utils/excelUtils.ts:75-81 | A currency comes back with its code, name, symbol and `is_active`. |
| ExcelUtils.WorkbookRoundTrip | src/utils/excelUtils.ts:91-95 | Importing an exported backup is never rejected. It returns every list except the policies, row for row and in order. |
| Dashboard.MonthlyShareSpreads | src/components/Dashboard.tsx:127-139 | A known frequency spreads the whole premium over 1, 3, 6 or 12 months. Any other frequency adds nothing. |
| Dashboard.MonthlyPremiums | src/components/Dashboard.tsx:118-141 | The keys are exactly the defaulted ('EUR') currencies of the policies. Each entry is the sum of that currency's monthly shares. |
| Dashboard.TallyTotals | src/components/Dashboard.tsx:118-141 | After n policies, the map holds one entry per currency seen, equal to that currency's income so far. |
| Dashboard.TotalAbsent | src/components/Dashboard.tsx:119-121 | A currency no policy is in has no income. |
| Dashboard.TotalAppend | src/components/Dashboard.tsx:118-141 | The income of two lists together is the sum of their incomes. |
| Dashboard.TotalPermutation | src/components/Dashboard.tsx:118-141 | The income per currency does not depend on the order of the policies. |
| Dashboard.TotalNonNegative | src/components/Dashboard.tsx:127-139 | With no negative premium, no currency shows a negative income. |
| Dashboard.CurrencySymbol | src/components/Dashboard.tsx:168-169 | With no matching currency the result is the code itself. Otherwise only the first currency with that code counts: its symbol, or the code when that symbol is empty. Never empty for a non-empty code. |
| Dashboard.CurrencySymbolFirstMatchOnly | src/components/Dashboard.tsx:168-169 | A later currency's symbol is never used: an empty symbol on the first match shows the code. |
| Dashboard.FormatCurrency | src/components/Dashboard.tsx:167-176 | The formatted amount, a blank, then the currency's symbol. |
| Dashboard.DashboardStats | src/components/Dashboard.tsx:148-155 | Every count the store left out shows 0. Every count it gave is shown as given. |
| Dashboard.QueryCount | src/components/Dashboard.tsx:58-96 | The store returns a count exactly when the query asks for one, and that count is the number of matching rows. |
| Dashboard.ExpiringCardAlwaysZero | src/components/Dashboard.tsx:81-91 | As written, the expiring query asks for no count, so the 'Por Vencer (30 días)' card shows 0 whatever the number of expiring policies. |
| Dashboard.ExpiringCardCountsPolicies | src/components/Dashboard.tsx:81-91 | With a count requested, the card shows the number of expiring policies. |
| PolicyholderList.FilterPolicyholders | src/components/PolicyholderList.tsx:23-47 | Keeps, in order, exactly the rows that pass the search and the type. An empty term and 'all' keep everything. |
| PolicyholderList.NameSearchIgnoresCase | src/components/PolicyholderList.tsx:33-34 | Name and email matching ignore the case of the term. |
| PolicyholderList.DisplayName | src/components/PolicyholderList.tsx:95-101 | Never empty. A fisico shows "first last", a missing part printed as 'null'. A non-fisico shows its business name, or 'Sin nombre' without one. |
| PolicyholderList.SearchNameIsDisplayName | src/components/PolicyholderList.tsx:29-31 | The search looks in the displayed name, except for a nameless legal entity: it shows as 'Sin nombre' but is searched as ''. |
| PolicyholderList.CountsWithinTotal | src/components/PolicyholderList.tsx:174-198 | The fisico and juridico counters never exceed the total. They add up to it exactly when every row has one of the two types. |
| PolicyholderList.InitialForm | src/components/PolicyholderList.tsx:349-366 | A new form is a fisico with every field ''. An edited one shows every field of the row, null as '', and its entity type, or 'fisico' when that is empty. |
| PolicyholderList.SavePayload | src/components/PolicyholderList.tsx:389-403 | A fisico nulls the business fields, and any other type nulls first name, last name and date of birth. Every other field comes from the form, plus the agent. |
| PolicyholderList.SaveThenEdit | src/components/PolicyholderList.tsx:349-403 | Saving a form and editing the saved row gives the same form, except that the other entity type's fields come back empty. |
| PolicyList.FilterPolicies | src/components/PolicyList.tsx:24-49 | Keeps, in order, exactly the policies that pass search, type and status. An empty term and 'all' disable their stage. |
| PolicyList.LegalEntitySearchedByNull | src/components/PolicyList.tsx:32-34 | The search reads first and last names even for a legal entity, so such a policy matches the term "null". |
| PolicyList.StatusColorCases | src/components/PolicyList.tsx:120-133 | The four known statuses get four different colours. Any other status gets the grey of 'cancelada'. |
| PolicyList.TypeIconCases | src/components/PolicyList.tsx:135-150 | The five known types get glyphs other than '📋'. 'otro' and any other type get '📋'. |
| PolicyList.Capitalize | src/components/PolicyList.tsx:274 | Same length. The first character is upper-cased and the rest are kept. |
| PolicyList.CapitalizeKeepsStatus | src/components/PolicyList.tsx:274 | The label differs from the status only in case, and labelling twice is labelling once. |
| PolicyList.InitialPolicyForm | src/components/PolicyList.tsx:339-350 | A new policy is 'vida', 'mensual', 'activa', premium 0 and empty text. Type, frequency and status are never empty. |
| NotificationList.ReadFilter | src/components/NotificationList.tsx:19-29 | 'unread' keeps exactly the unread and 'read' exactly the read, in order. Any other value keeps the list. |
| NotificationList.ReadCountsPartition | src/components/NotificationList.tsx:130 | Unread plus read is the total. The 'No Leídas' counter is the unread list's length. |
| NotificationList.MarkedRead | src/components/NotificationList.tsx:67-69 | Same length. Entries with the id become read, and every other entry is unchanged. |
| NotificationList.MarkedReadOnlyMatching | src/components/NotificationList.tsx:67-69 | Only the read flag of matching entries changes, and no matching entry stays unread. |
| NotificationList.MarkedReadIdempotent | src/components/NotificationList.tsx:67-69 | Marking twice is marking once. |
| NotificationList.MarkedReadLowersUnread | src/components/NotificationList.tsx:67-69 | Marking never raises the unread count. |
| NotificationList.AllRead | src/components/NotificationList.tsx:86-88 | Same length, and every entry is the old one with its read flag set. |
| NotificationList.AllReadNoneUnread | src/components/NotificationList.tsx:86-88 | After marking all, nothing is unread and the 'read' list is the whole list. |
| NotificationList.TypeLabelsDistinct | src/components/NotificationList.tsx:107-118 | The three known types get distinct labels, none of them 'Notificación'. Any other type gets 'Notificación'. |
| NotificationList.NotificationState.MarkAsRead | src/components/NotificationList.tsx:57-73 | The list is marked only when the store accepted the update. The filter is kept. |
| NotificationList.NotificationState.MarkAllAsRead | src/components/NotificationList.tsx:75-92 | The list is marked only when the store accepted the update, after which nothing is unread. |
| NotificationList.NotificationState.SetFilter | src/components/NotificationList.tsx:176-198 | The filter buttons change the filter and nothing else. |
| InsuranceCompanyList.FilterCompanies | src/components/InsuranceCompanyList.tsx:25-31 | Keeps, in order, exactly the companies whose name or description contain the term, ignoring case. |
| InsuranceCompanyList.EmptySearchKeepsAll | src/components/InsuranceCompanyList.tsx:26-30 | An empty search keeps every company. |
| InsuranceCompanyList.CoveragePreview | src/components/InsuranceCompanyList.tsx:273-275 | The first min(count, 3) of the company's own coverages: a prefix of them, in list order. |
| InsuranceCompanyList.MoreCoveragesLabel | src/components/InsuranceCompanyList.tsx:298-301 | '+N coberturas más' exactly when the count exceeds 3, with N = count - 3. |
| InsuranceCompanyList.PreviewAccountsForAll | src/components/InsuranceCompanyList.tsx:273-301 | Preview plus '+N' is the company's count. The line appears exactly when the preview leaves coverages out. |
| InsuranceCompanyList.CountsOfTwoCompanies | src/components/InsuranceCompanyList.tsx:131-133 | Two companies' coverage counters never add up to more than the coverage list. |
| InsuranceCompanyList.SelectableCompanies | src/components/InsuranceCompanyList.tsx:335 | Exactly the active companies, in order. |
| InsuranceCompanyList.EditCoverage | src/components/InsuranceCompanyList.tsx:91-95 | Editing opens the form on that coverage with its company selected. |
| InsuranceCompanyList.NewCoverage | src/components/InsuranceCompanyList.tsx:155-158 | 'Nueva Cobertura' opens the form with nothing edited and no company selected. |
| InsuranceCompanyList.InitialCoverageForm | src/components/InsuranceCompanyList.tsx:536-543 | The company falls back from the coverage's to the selected one. A new coverage is 'vida', premium 0 and active. An explicit `is_active` false is kept. |
| InsuranceCompanyList.DialogPreselectsCompany | src/components/InsuranceCompanyList.tsx:91-95 | A coverage's edit button preselects that coverage's company. 'Nueva Cobertura' preselects none. |
| CurrencyList.FilterCurrencies | src/components/CurrencyList.tsx:21-28 | Keeps, in order, exactly the currencies whose name or code contain the term ignoring case, or whose symbol contains it exactly. |
| CurrencyList.EmptySearchKeepsAll | src/components/CurrencyList.tsx:21-28 | An empty search keeps every currency. |
| CurrencyList.NameAndCodeIgnoreCase | src/components/CurrencyList.tsx:23-25 | A term typed in capitals finds the same names and codes. |
| CurrencyList.PresetsWellFormed | src/components/CurrencyList.tsx:237-253 | 15 presets with distinct codes (used as keys). Each code has three upper-case letters, and each symbol fits the 5-character input. |
| CurrencyList.InitialCurrencyForm | src/components/CurrencyList.tsx:230-235 | A new currency has empty text and is active. An edited one keeps its fields. |
| CurrencyList.ApplyPreset | src/components/CurrencyList.tsx:255-262 | The preset's code, name and symbol replace the form's, and `is_active` is kept. |
| CurrencyList.ApplyPresetLastWins | src/components/CurrencyList.tsx:255-262 | A second preset overrides the first. |
| CurrencyList.CodeInput | src/components/CurrencyList.tsx:346-348 | At most three characters, all upper-case: the first three typed, up to case. |
| CurrencyList.SymbolInput | src/components/CurrencyList.tsx:361 | At most five characters, a prefix of what was typed. |
| CurrencyList.SavePayload | src/components/CurrencyList.tsx:264-300 | The saved code is upper-case and equal to the form's up to case. The other fields and the agent are kept. |
| CurrencyList.SavedCodeAsShown | src/components/CurrencyList.tsx:271 | A typed or preset code is saved exactly as the field shows it. |
| PolicyTypesList.FilterPolicyTypes | src/components/PolicyTypesList.tsx:21-27 | Keeps, in order, exactly the types whose name or description contain the term, ignoring case. |
| PolicyTypesList.EmptySearchKeepsAll | src/components/PolicyTypesList.tsx:22-25 | An empty search keeps every type. |
| PolicyTypesList.InitialPolicyTypeForm | src/components/PolicyTypesList.tsx:247-253 | A new type has name '', description '', icon '📋', is active and has order 0. The icon is never empty. |
| PolicyTypesList.SortOrderInput | src/components/PolicyTypesList.tsx:335 | `parseInt(v) \|\| 0`: the parsed integer, or 0 when nothing parses. |
| PolicyTypesList.SortOrderInputReadsNumbers | src/components/PolicyTypesList.tsx:335 | Every integer written in decimal reads back as itself. Input without leading digits gives 0. |
| PolicyTypesList.CommonIconsDistinct | src/components/PolicyTypesList.tsx:255-258 | Twenty distinct icons (used as keys), the first being the default '📋'. |
| PolicyTypesList.PickIcon | src/components/PolicyTypesList.tsx:371 | Picking an icon changes only the form's icon. |
| PolicyTypesList.PickHighlightsOnlyThatIcon | src/components/PolicyTypesList.tsx:371-374 | After a pick, exactly that icon's button is drawn as selected. |
| AuthForm.SanitizeResetCode | src/components/AuthForm.tsx:175 | Only digits, at most six, a prefix of the typed digits, and all of them when there are at most six. |
| AuthForm.SanitizeResetCodeStable | src/components/AuthForm.tsx:175 | Sanitising twice is sanitising once. A code of at most six digits is kept as typed. |
| AuthForm.SubmitForgetsOldMessages | src/components/AuthForm.tsx:24-25 | A submit's result does not depend on earlier messages. It never shows both an error and a message, and ends not loading. |
| AuthForm.VerifyValidationOrder | src/components/AuthForm.tsx:28-39 | A mismatch is reported before a short password, neither sends a request, and the step is kept. The reset is sent exactly for a matching pair of six or more characters. |
| AuthForm.FailureKeepsMode | src/components/AuthForm.tsx:62-63 | A rejected request shows the service's message, or 'Ha ocurrido un error'. The mode and the inputs are unchanged. |
| AuthForm.SuccessTransitions | src/components/AuthForm.tsx:49-60 | A reset request moves to verification and keeps the email. A sign-up returns to sign-in. A sign-in and a password update keep the mode. |
| AuthForm.ResetCompletedSignsIn | src/components/AuthForm.tsx:43-47 | After the update's timer the form is an empty sign-in. |
| AuthForm.ModeChangeSelectsMode | src/components/AuthForm.tsx:80-85 | The chosen mode with every input and message empty. Sign-up and reset are never both set. |
| AuthForm.BackToResetKeepsEmail | src/components/AuthForm.tsx:87-94 | Back to the reset request, with the email kept and the code, passwords and messages cleared. |
| AuthForm.HandlersKeepFlagsValid | src/components/AuthForm.tsx:21-94 | No handler sets sign-up and reset together, or shows verification outside a reset. |
| AuthForm.AuthFormState.constructor | src/components/AuthForm.tsx:6-17 | The form opens as an empty sign-in. |
| AuthForm.AuthFormState.Submit | src/components/AuthForm.tsx:21-67 | Sends the request `SubmitCall` names. The new state is `AfterSubmit` of the old state and the answer. |
| AuthForm.AuthFormState.ResetForm | src/components/AuthForm.tsx:69-78 | Inputs, messages and visibility toggles are cleared, and the flags are kept. |
| AuthForm.AuthFormState.ModeChange | src/components/AuthForm.tsx:80-85 | The new state is `AfterModeChange` of the old state. |
| AuthForm.AuthFormState.BackToReset | src/components/AuthForm.tsx:87-94 | The new state is `AfterBackToReset` of the old state. |
| AuthForm.AuthFormState.ResetCompleted | src/components/AuthForm.tsx:43-47 | The new state is a cleared form out of the reset. |
| AuthForm.AuthFormState.TypeResetCode | src/components/AuthForm.tsx:175 | Only the code field changes, to the sanitised input. |
| ResetPasswordForm.ValidationDecidesScreen | src/components/ResetPasswordForm.tsx:21-54 | The form appears exactly when both tokens are present, the link is a recovery link and the session names a user. Otherwise the invalid-link screen appears. |
| ResetPasswordForm.SubmitValidationOrder | src/components/ResetPasswordForm.tsx:56-86 | A mismatch is reported before a short password, and neither sends the update. Every path ends not loading. Success is set only by an accepted update. |
| ResetPasswordForm.SubmitScreens | src/components/ResetPasswordForm.tsx:92-156 | From the form with something typed, an accepted password shows the success screen. Anything else stays on the form with a message. |
| ResetPasswordForm.EmptySubmitShowsInvalidLinkScreen | src/components/ResetPasswordForm.tsx:105 | With both fields empty, the length error would be drawn on the invalid-link screen. |
| ResetPasswordForm.ResetPasswordState.constructor | src/components/ResetPasswordForm.tsx:8-15 | The page starts validating, with nothing typed. |
| ResetPasswordForm.ResetPasswordState.ValidateTokens | src/components/ResetPasswordForm.tsx:21-54 | The session is asked exactly when the link is complete. The new state is `AfterValidate` of the old state. |
| ResetPasswordForm.ResetPasswordState.Submit | src/components/ResetPasswordForm.tsx:56-86 | The update is sent exactly for a matching pair of six or more characters. The new state is `AfterSubmit`. |

## Left out

- All database, authentication and session calls. Their answers are
  parameters, including a store error and an account-service or session
  outcome. The auth context and the server-side procedures are not part of
  this model. Neither is the backup page that fetches and upserts the lists.
- The spreadsheet library, the file reader and the JSON codec. The model
  takes writing a sheet and reading it back to be the identity. A
  custom-field cell that is not JSON text is taken to make the parse fail.
- The 'Fecha de Creación' column, the dated backup file name, and every other
  date written with the locale.
- The clock. The birthday window is passed in as a predicate. The 30-day
  date window of the expiring-policies query is applied by the store; the
  model takes the number of rows it matches as a parameter.
- Floating point. Premiums are real numbers, so the final rounding to cents
  (src/components/Dashboard.tsx:144-146) is not modelled. `Intl.NumberFormat`
  is not modelled either: the formatted amount is passed in as text.
- FormatUtils.WhatsAppUrl: appends the message as given, because
  `encodeURIComponent` is not modelled.
- `parseFloat`, which is left abstract: its result, or its failure, is a
  parameter.
- Text.ParseInt: reads an optional sign and the leading decimal digits only.
  Hexadecimal prefixes, radixes and exponent forms are not modelled.
- NaN and infinities.
- Case mapping beyond ASCII and Latin-1, and mappings that change length
  (such as 'ß' to 'SS'). 'µ' (U+00B5) is left unchanged, although its upper
  case is 'Μ' (U+039C), outside Latin-1. String lengths count code points rather than UTF-16
  units, so a `maxLength` on emoji or astral characters is not modelled
  faithfully.
- `setTimeout`, navigation, `window.open`, `alert` and `confirm`. The timer
  callback after a password update is a separate method.
- Icons, class names other than the status colours, and the subtitle text of
  the login card.
- The browser's own checks of `required`, `min` and `minLength` on inputs.
  The models follow the handlers, which do not repeat those checks.
- The create, update and delete handlers beyond their payloads and local
  state changes. They only send requests and reload.

## Findings

| source | as written | input that shows it | evidently intended | confidence | as-written member | corrected member |
|---|---|---|---|---|---|---|
| src/components/Dashboard.tsx:81-91 | The expiring-policies query selects rows without `{ count: 'exact' }`, so `count` is null and `expiringCount \|\| 0` (line 152) is always 0 | three active policies ending within 30 days: the 'Por Vencer (30 días)' card shows 0 | the card shows the number of policies expiring within 30 days | not executed | Dashboard.ExpiringCardAlwaysZero | Dashboard.ExpiringCardCountsPolicies |
