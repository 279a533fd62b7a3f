# Doorasi sales-order bot, in Dafny

`app.py` is a Telegram bot that a sales team uses to record orders. An
operator posts an order as a multi-line message that begins with `SALES`.
The bot does the following with it:

- It parses the `key: value` lines into an order record.
- It validates the record: the required fields, the SKU against the box
  or sachet count, and the payment method.
- It screens a regular order. The phone number or address must not
  already appear in today's rows, unless the message says `#ro` (repeat
  order). An agent code in the notes must be on the agent roster.
- It appends a 20-column row to the `Closing` sheet. A marketplace order
  (Shopee, Lazada, TikTok) goes to the `Closing MP` sheet instead.
- It confirms the order to the operator with their totals for today. It
  forwards a transfer receipt photo to the right group.
- It alerts the admin when anything fails.

Scheduled jobs post a closing reminder at 11, 14 and 18 o'clock. They
also post a sales report that ranks operators by boxes and sachets for
the day, the last seven days and the month.

The model is eleven modules, one per concern:

- `Outcomes`: `Option`, `Result`, and the Python exceptions the code can raise.
- `Text`: the Python string operations the code uses.
- `Normalize`: `get_num`, `format_phone_number` and the expedition lookup.
- `Dates`: the calendar, `timedelta` subtraction, `strftime` and `strptime`.
- `OrderParser`: `parse_order`.
- `Validator`: `validate_order`.
- `Intake`: the duplicate check, the agent-code check, the row layout,
  the regular and marketplace pipelines, and message routing.
- `Report`: `get_combined_stats` and the bucket loop of `send_sales_report`.
- `Ranking`: `format_rank_section` and the report message.
- `Notify`: `send_confirmation` and `send_closing_reminder`.
- `Webhook`: `webhook_handler`, as one function from a message and the
  state of the world to the effects it causes.

Each statement loop in the source is also a method whose `ensures` ties
it to the specification function: `ParseOrder`, `ScanLines`,
`FillDefaults`, `CollectMissing`, `IsDupPhone`, `GetCombinedStats`,
`TallyRows`, `CollectBuckets`, `RankEntries` and `FormatRankSection`. The
methods built on those loops, `ValidateOrder` and `CheckRecord`, are tied
to their specification functions in the same way. Three loops stay functions: the
reminder loop (app.py:367-368, `ReminderPosts`) and the comprehensions at
app.py:213 (`StripAll`) and app.py:334 (`RankLines`), because each only
builds a value.

Everything the code reads from outside is a parameter:

- the clock, as one `Instant` (date, time and epoch seconds) per message;
- the rows of the Closing and Closing MP sheets, `None` when a read raises;
- column B of the AGEN sheet;
- the sender's name;
- whether the message carries a photo.

Everything it sends is a value: reply texts, the appended sheet and row,
the confirmation with its forward target, and the admin alert.

## Model

| member | source | states |
|---|---|---|
| Text.Lower | app.py:152 | `str.lower` maps every character and keeps the length |
| Text.SplitFirst | app.py:151 | `split(c, 1)` gives two parts exactly when `c` occurs; the first part has no `c`; the parts joined back by `c` give the text |
| Text.SplitFirstAt | app.py:163 | splitting `a + "-" + b` at its first dash gives back `[a, b]` when `a` has no dash |
| Text.StripIdempotent | app.py:151 | stripping twice is stripping once |
| Text.PyIntOfDigits | app.py:195-196 | `int()` of a nonempty digit string is its decimal value |
| Text.PyIntOfNat | app.py:242-243 | `int(str(n)) == n` |
| Normalize.GetNum | app.py:100-109 | the only failure is `float('')`'s ValueError |
| Normalize.GetNumWithoutR | app.py:103-104 | text with no `R`/`r` has no match, so it yields 0 |
| Normalize.GetNumOfToken | app.py:100-109 | for any text `pre + w + sp1 + body + sp2 + tail` where `pre` has no `R`/`r`, `w` is `R` or `Rp` in any case, `sp1` and `sp2` are white space, `body` is a nonempty run of digits, `.` and `,`, and `tail` is empty or opens with neither white space nor such a character: the value is the body's digits with the separators deleted, times 1000 exactly when `tail` opens with `k`/`K`; a body of separators alone raises ValueError |
| Normalize.GetNumExampleInText | app.py:103-108 | `get_num("Total Rp150.000 COD") == 150000`: the amount is found inside a sentence |
| Normalize.GetNumWithoutToken | app.py:103-104 | text in which no `R`/`r` is followed by an optional `p`, white space and then a digit, `.` or `,` has no match, so it yields 0 |
| Normalize.GetNumOfDigits | app.py:103-109 | `"Rp " + digits` reads as the digits' value |
| Normalize.GetNumOfDigitsK | app.py:107-108 | `"Rp " + digits + "k"` reads as 1000 times the digits' value |
| Normalize.GetNumOfRendering | app.py:100-109 | round trip: `get_num("Rp " + str(n)) == n` |
| Normalize.GetNumThousands | app.py:107-108 | round trip with the `k` suffix: `get_num("Rp " + str(n) + "k") == 1000 * n` |
| Normalize.GetNumOfGroupedDigits | app.py:105 | the dots of a thousands grouping are deleted before the digits are read |
| Normalize.GetNumGrouped | app.py:105 | `"Rp " + str(a) + "." + three digits of b` reads as `1000 * a + b` |
| Normalize.GetNumOnlySeparators | app.py:105-106 | group 1 made only of `.` and `,` raises ValueError |
| Normalize.GetNumExampleThousands | app.py:101 | `get_num("Rp 50k") == 50000` |
| Normalize.GetNumExampleGrouped | app.py:105 | `get_num("Rp 12.500") == 12500` |
| Normalize.GetNumExampleBareNumber | app.py:103-104 | `get_num("150000") == 0`: the `R` is mandatory |
| Normalize.GetNumExampleSeparatorOnly | app.py:105-106 | `get_num("Rp .")` raises |
| Normalize.GetNumExampleNoAmount | app.py:103-104 | `get_num("Rp -") == 0`: an `Rp` with no amount after it does not match |
| Normalize.FormatPhone | app.py:111-119 | empty input exactly when the output is empty; otherwise the output is all digits and starts with `62` |
| Normalize.FormatPhonePrepends | app.py:117-118 | a digit string that starts with neither `0` nor `62` gets `62` put in front, and its digits are kept |
| Normalize.FormatPhoneIdempotent | app.py:111-119 | formatting twice is formatting once |
| Normalize.FormatPhoneLocalEqualsInternational | app.py:115-119 | `0…` and `62…` forms of one number both give `62…` |
| Normalize.FormatPhoneIgnoresPunctuation | app.py:114 | two nonempty inputs with the same digits format the same |
| Normalize.CanonicalExpedition | app.py:164 | the lookup gives the name itself or one of the table's canonical names |
| Normalize.CanonicalExpeditionIgnoresCase | app.py:42-46 | names equal up to case that are in the table map to the same table entry |
| Normalize.CanonicalExpeditionUnknown | app.py:164 | a name not in the table passes through unchanged, in its own case |
| Normalize.CanonicalExpeditionIdempotent | app.py:42-46 | every canonical name is its own canonical name |
| Dates.Weekday | app.py:129 | `weekday()` is in 0..6 |
| Dates.WeekdayFirstDay | app.py:129 | 0001-01-01 is a Monday (0) |
| Dates.WeekdaySuccession | app.py:129 | each day's weekday is the previous day's plus one, mod 7 |
| Dates.WeekdayExample | app.py:127-129 | 14 October 2026 is weekday 2, so it prints as "Rabu" |
| Dates.DaysBeforeYearClosedForm | app.py:300 | the day count before a year equals the closed form Python's `datetime` uses |
| Dates.DateLeOrdinal | app.py:315-317 | comparing dates is comparing day numbers, and equal dates have equal day numbers |
| Dates.PrevDay | app.py:300 | one day back exists exactly when the date is not 0001-01-01, and it lands strictly earlier |
| Dates.PrevDayOrdinal | app.py:300 | one day back is the day numbered one less |
| Dates.DaysBeforeOrdinal | app.py:300 | `today - timedelta(days=n)` exists exactly when `n` is less than today's day number, and it lands on the day numbered `n` less |
| Dates.WeekWindow | app.py:315 | `week_start <= x <= today` holds exactly for the seven days ending today |
| Dates.MonthStart | app.py:301 | `replace(day=1)` keeps the year and month and is not after the date |
| Dates.MonthWindow | app.py:317 | `month_start <= x <= today` holds exactly for the days of today's month up to today |
| Dates.FormatTimestamp | app.py:420 | the `%d/%m/%Y %H:%M:%S` timestamp starts with the `%d/%m/%Y` date |
| Dates.ParseShortDate | app.py:308 | a parsed date is a real calendar date |
| Dates.FormatShortShape | app.py:124-125 | `%d/%m/%Y` of a date is ten characters: the padded day, `/`, the padded month, `/`, the four-digit year, each reading back as its number |
| Dates.FormatLongExample | app.py:126-129 | 14 October 2026 renders as `Rabu, 14 Oktober 2026` |
| Dates.ParseFormatShort | app.py:308 | round trip: `strptime` of the `dd/MM/yyyy` text of a date gives the date back; field values that pass the pattern but name no date (30/02, year 0) are refused |
| Dates.FieldsUnpadded | app.py:308 | `%d` also reads an unpadded or space-padded day, and `%m` an unpadded month |
| OrderParser.Fields | app.py:150-173 | a key line writes exactly the keys its key maps to; numbers go only into numeric fields; only `doorasi`, `total pembayaran` and `ongkir` can raise |
| OrderParser.DoorasiFields | app.py:155-158 | `doorasi` writes `qty_box`, `qty_sachet` and `price` |
| OrderParser.AmountField | app.py:160-161 | `total pembayaran` and `ongkir` write their own key |
| OrderParser.TextField | app.py:166-173 | every other key writes text, under its renamed key or its own name |
| OrderParser.SetDefaults | app.py:182-183 | `setdefault` keeps every present entry and adds each missing key with the default |
| OrderParser.ParseOrder | app.py:135-184 | the loops of `parse_order` compute the specification `ParseOrderSpec` |
| OrderParser.ParseSplitLines | app.py:143-184 | the same, after the split and the header search |
| OrderParser.ScanLines | app.py:147-177 | the line loop computes `Scan` from an empty current key and no notes |
| OrderParser.FillDefaults | app.py:182-183 | the `setdefault` loop computes `SetDefaults` |
| OrderParser.StepData | app.py:150-177 | a line either changes nothing, merges its key's fields, or appends itself to the current key's text |
| OrderParser.ScanUnwritten | app.py:147-177 | a field that no key line writes keeps its value through the loop |
| OrderParser.ScanKeepsNumbersInNumericFields | app.py:147-177 | the loop puts numbers only into the numeric fields |
| OrderParser.WithDefaultsEntries | app.py:182-183 | the defaults fill each missing default key with 0 or "" and leave every other entry alone |
| OrderParser.ParsedFields | app.py:182-183 | after parsing, every default key is present and the eleven text fields hold text |
| OrderParser.NumericFieldDefault | app.py:182 | a numeric field that no line writes is 0 |
| OrderParser.TextFieldDefault | app.py:179-183 | a text field that no line writes is ""; for `notes` this holds in marketplace mode |
| OrderParser.MarketplaceOrderId | app.py:143-145 | in marketplace mode with two or more lines, `order_id` is line 1 stripped, unless a later `order_id:` line overwrites it |
| OrderParser.MarketplaceLineOneIgnored | app.py:143-145 | in marketplace mode, two texts that differ only in line 1 parse to records that agree off `order_id` |
| OrderParser.MarketplaceLineOneFails | app.py:143-145 | such texts fail with the same exception |
| OrderParser.KeyLineParts | app.py:150-153 | `key: val` splits into the stripped, lower-cased key and the stripped value |
| OrderParser.KeyLineSetsCurrent | app.py:153 | a key line becomes the current key |
| OrderParser.ShippingWithDash | app.py:162-165 | `ekspedisi: name - pay` looks up `name` and stores the stripped rest as the payment method |
| OrderParser.ShippingWithoutDash | app.py:162-165 | without a dash the payment method is `-` |
| OrderParser.QuantityOfCount | app.py:156-157 | in `p + d + sp + u + q`, where `p` has no digit, `d` is a nonempty run of digits, `sp` is nonempty white space and `u` is the unit in any case, the count is the value of `d` |
| OrderParser.BoxAndSachetCounts | app.py:156-157 | in the usual `doorasi` value `<b> Box <n> Sachet` the box count is `b` and the sachet count is `n`: the search for the sachet count passes over `<b> Box`, whose digits are not followed by the sachet unit |
| OrderParser.QuantityWithoutDigits | app.py:156-157 | a value without digits gives the count 0 |
| OrderParser.ContinuationOfAbsent | app.py:175-176 | continuing a key that is absent from the record raises KeyError |
| OrderParser.ContinuationOfText | app.py:175-176 | continuing a key that holds text appends a newline and the stripped line |
| OrderParser.RenamedContinuationFails | app.py:175-176 | a continuation line right after `alamat jalan`, `desa/kelurahan` or `kab/kota` makes the loop fail, with KeyError when nothing failed before |
| OrderParser.RenamedContinuationRaises | app.py:175-176 | so `parse_order` raises on such a text |
| OrderParser.KecamatanContinues | app.py:170-176 | a continuation line after `kecamatan: v` is appended to `v` on a new line |
| OrderParser.PlatformIsKnown | app.py:399-401 | a platform is found exactly for marketplace messages, and it is SHOPEE, LAZADA, TIKTOK or TIK TOK in capitals |
| OrderParser.FindHeaderReaches | app.py:141 | `re.search` finds a header that occurs at or after the start position |
| OrderParser.MarketplaceHeaderDetected | app.py:141 | `SALES <digits> - <platform>`, with the word and the platform each in any case, anywhere in the text, makes it a marketplace order |
| OrderParser.MarketplaceHeaderExample | app.py:141 | `SALES 12 - Shopee` is a marketplace order |
| Validator.SkuCount | app.py:195-196 | `int(sku.split("-")[1])` succeeds exactly when the suffix is a Python integer literal, and then gives its value |
| Validator.CollectMissing | app.py:188-190 | the marker loop computes `MissingErrors` |
| Validator.ValidateOrder | app.py:186-201 | `validate_order` computes `ValidateOrderSpec` |
| Validator.CheckRecord | app.py:193-199 | the SKU, quantity and payment checks compute `RecordErrors` |
| Validator.QuantityCheck | app.py:195-196 | the box check, then the sachet check only when the box line did not fire, compute `QuantityErrors` |
| Validator.ParsedTextFields | app.py:192-198 | a parsed record holds `sku` and `pembayaran` as text |
| Validator.PrefixesExclusive | app.py:195-196 | no SKU starts with both `DRSBOX-` and `DRSA-` |
| Validator.RecordErrorsNone | app.py:193-199 | the record checks report nothing exactly when the record is acceptable |
| Validator.RecordErrorsLines | app.py:193-199 | line by line, when the checks do not raise: the SKU line exactly for an empty SKU; the box line exactly for a `DRSBOX-` SKU whose count is not `qty_box`; the sachet line exactly when the box line did not fire and a `DRSA-` SKU's count is not `qty_sachet`; the payment line exactly when the upper-cased method is neither COD nor TRANSFER |
| Validator.QuantityLines | app.py:195-196 | the `if … elif` gives the box line, the sachet line or nothing, and the sachet line only when the box line did not fire |
| Validator.RecordErrorsFail | app.py:195-196 | the record checks raise exactly when a `DRSBOX-`/`DRSA-` count is not a number |
| Validator.MissingErrorsNone | app.py:189-190 | the marker loop reports nothing exactly when every marker occurs, ignoring case |
| Validator.MissingErrorsReport | app.py:189-190 | a marker is reported exactly when it is listed and does not occur |
| Validator.ValidateOrderAccepts | app.py:186-201 | `validate_order` returns None exactly when every marker occurs, the text parses and the record is acceptable |
| Validator.ValidateOrderFails | app.py:192-196 | `validate_order` raises exactly when `parse_order` raises or a SKU count is not a number |
| Validator.ValidationErrorsOrdered | app.py:187-199 | the marker lines come first, then SKU, quantity and payment, in that order |
| Validator.ValidateOrderReportsMarker | app.py:188-190 | every missing marker is reported, and no other |
| Validator.ValidationMessageNonEmpty | app.py:201 | a returned error text is never empty, so `if error:` treats every returned error as a failure |
| Intake.IsDupPhone | app.py:218-231 | the row loop computes `DuplicateOf`, which is `None` when the sheet read raises |
| Intake.DuplicateOfNone | app.py:218-231 | no duplicate is reported exactly when the sheet read raised or no row entered today matches the phone or the address |
| Intake.FirstDuplicateNone | app.py:222-228 | no duplicate is reported exactly when no row of today matches the phone or the lower-cased address |
| Intake.FirstDuplicateIsFirst | app.py:222-227 | a reported duplicate names the first matching row |
| Intake.LocalNumberIsDuplicate | app.py:223-227 | a row of today that stores the local `0…` form matches the normalised `62…` phone |
| Intake.StripAll | app.py:213 | each roster code stripped, in order |
| Intake.OnRoster | app.py:212-213 | a code is on the roster exactly when some entry below the header strips to it |
| Intake.AgentCodeRejected | app.py:206-216 | an agent code is rejected exactly when the notes are nonempty, match `Agen <name>#<digits>`, the roster was read, and no roster entry equals the stripped match |
| Intake.AgentCodeMatchOf | app.py:208-210 | `Agen <name>#<digits>` at the start of the notes is the match, up to the last digit |
| Intake.ClosingRowShape | app.py:443-450 | the row has 20 cells, with the id, date, operator and channel in their columns, and its timestamp starts with the date |
| Intake.Reply | app.py:428-440 | a reply goes to the thread exactly for a validation error, a duplicate or a bad agent code |
| Intake.RaisedText | app.py:429-441 | an exception is raised exactly when the order is not stored |
| Intake.AcceptedRecord | app.py:426-431 | an accepted message parses to a record whose default fields are present and whose text fields hold text |
| Intake.GateOutcome | app.py:426-431 | a nonempty error text fails validation; an exception from either call crashes |
| Intake.RegularValidationFailed | app.py:426-429 | the order fails validation with `e` exactly when `validate_order` returns `e` |
| Intake.RegularCrashed | app.py:426-431 | the order crashes exactly when `validate_order` raises |
| Intake.RegularScreened | app.py:431-441 | an accepted message goes on to the screens with its parsed record |
| Intake.ScreenOutcome | app.py:432-451 | a duplicate is found exactly when the text lacks `#ro` and a row matches; a bad agent code otherwise exactly when the notes mention `agen` and the code is rejected; otherwise the `INV-<epoch>` row is stored |
| Intake.RepeatOrderIgnoresClosing | app.py:434-437 | a `#ro` order never meets the duplicate check |
| Intake.StoredWasValid | app.py:426-451 | a stored order passed validation |
| Intake.StoredOrderAcceptable | app.py:426-451 | a stored order mentions every marker and has an acceptable record |
| Intake.MarketplaceOrderIdCell | app.py:415 | a truthy `order_id` is kept; an absent or falsy one (such as an empty text) gives `INV-MP-<epoch>` |
| Intake.MarketplaceRowId | app.py:413-421 | the marketplace row id is line 1 stripped, or `INV-MP-<epoch>` when that is empty |
| Intake.RouteIsOrder | app.py:390-403 | a message is an order exactly when it starts with `sales` in any case; it is a marketplace order exactly when it also has the header; only a photo is acknowledged |
| Intake.SalesPrefix | app.py:390 | a text opening with `SALES` in any case passes the `sales` filter |
| Intake.HeaderRoutesToMarketplace | app.py:399-401 | a message opening with the marketplace header, its word and its platform each in any case, is routed to the marketplace intake |
| Report.RowTally | app.py:239-243 | a row of the day (and operator) adds one invoice and its quantities, or ends the sheet when a quantity is unreadable; any other row changes nothing |
| Report.GetCombinedStats | app.py:233-246 | the loop over both sheets computes `CombinedStats` |
| Report.TallyRows | app.py:237-245 | the `try` around one sheet's rows computes `SheetTally` |
| Report.TallyRow | app.py:238-243 | the loop body computes `RowTally` |
| Report.SameDayRows | app.py:239-240 | the rows the tally looks at are rows of the sheet, of today and of the operator |
| Report.SumInvoices | app.py:241 | one invoice per counted row |
| Report.SheetTallyReadable | app.py:238-243 | with every counted row readable, a sheet adds exactly those rows' invoices and quantities |
| Report.SheetTallyInvoices | app.py:238-241 | a sheet adds at most one invoice per row of the day |
| Report.CombinedStatsSkipsUnread | app.py:236-245 | a sheet whose read raises leaves the totals of the other |
| Report.CreditLookup | app.py:314-318 | crediting adds to that operator's figures and one invoice, and to no one else's |
| Report.CreditNames | app.py:326 | crediting keeps the operators in first-credit order, a new one going last |
| Report.CreditUnique | app.py:303 | each operator has one bucket entry |
| Report.LookupAbsent | app.py:303 | an operator never credited reads as zeros |
| Report.ReadSale | app.py:307-311 | a row whose date and quantities parse gives a sale on a real date |
| Report.CollectBuckets | app.py:305-319 | the bucket loop computes `FileSheets` |
| Report.CreditKeepsWithin | app.py:313-318 | crediting the larger bucket whenever the smaller is credited keeps the smaller within the larger |
| Report.FileKeepsDailyWithin | app.py:313-318 | filing one sale keeps the daily bucket within the weekly and monthly ones |
| Report.FileRowsKeepsDailyWithin | app.py:306-319 | so does filing a sheet's rows |
| Report.DailyWithinReport | app.py:305-319 | and filing every sheet |
| Report.UnreadableRowSkipped | app.py:319 | a row whose date or quantities do not parse changes no bucket |
| Report.OperatorOfMissingLabel | app.py:309 | a row without a `CUSTOMER SERVICE` cell is credited to `Unknown` |
| Report.OperatorOfPlainLabel | app.py:309 | a label without `DOORASI ` is only stripped |
| Report.OperatorOfBrandedLabel | app.py:309 | `DOORASI <name>` is credited to `name` stripped |
| Ranking.Convert | app.py:327-328 | whole boxes plus fewer than five sachets, with the same sachet total |
| Ranking.ConvertUnique | app.py:327-328 | that split is the only one |
| Ranking.ConvertAll | app.py:326-330 | one entry per operator, in bucket order |
| Ranking.InsertPermutes | app.py:332 | insertion adds the entry to the multiset |
| Ranking.InsertSorted | app.py:332 | insertion keeps the list non-increasing |
| Ranking.SortDescCorrect | app.py:332 | the ranked list is a permutation, non-increasing in (boxes, sachets) |
| Ranking.SortDescStable | app.py:332 | the sort is stable: entries with equal keys keep their order |
| Ranking.RankLines | app.py:334 | one line per entry, numbered from 1 |
| Ranking.RankSection | app.py:321-336 | the section opens with `title period` and a newline; an empty bucket gives exactly `title period`, a newline, `Tidak ada data.` and a blank line |
| Ranking.RankEntries | app.py:324-330 | the loop converts each operator and sums the TOTAL |
| Ranking.FormatRankSection | app.py:321-336 | the method computes `RankSection` |
| Ranking.SectionTotalsConserve | app.py:324-329 | the TOTAL keeps the invoice count and the sachet total, and its leftover sachets are at most 4 per operator |
| Ranking.SalesReport | app.py:298-350 | a report is produced exactly when every sheet was read and the date six days back exists |
| Ranking.SalesReportSections | app.py:336-350 | the posted text is the title with the long date, a blank line, the daily and the weekly section in full, and then the monthly section without its closing blank line, which the strip removes; the monthly section ends in a visible character followed by one blank line |
| Ranking.ReportPeriod | app.py:299-318 | an operator's daily invoices never exceed their weekly or monthly ones, and every operator of the day appears in both |
| Notify.Confirm | app.py:454-473 | agent notes give the agent text, otherwise TRANSFER gives the transfer text and anything else the success text; a photo of a transfer is forwarded to the agent group or the old transfer group; the text is the totals line, exactly one blank line and the body |
| Notify.ConfirmTexts | app.py:460-473 | the three confirmation texts in full: the totals line, one blank line, then `Data ter-supply untuk` and the notes, `Orderan Transfer <nama> diterima`, or `Success! <nama> berhasil diinput` |
| Notify.ConfirmOpensWithStats | app.py:456-472 | every confirmation opens with the operator's totals line |
| Notify.ForwardOnlyTransferPhotos | app.py:463-470 | a message is forwarded exactly when it is a transfer with a photo |
| Notify.AcceptableConfirmation | app.py:457-473 | an acceptable order without agent notes is a success exactly when it is COD |
| Notify.RegularConfirmation | app.py:425-473 | so, for a stored regular order without agent notes |
| Notify.ReminderText | app.py:358-364 | a reminder exists exactly at 11, 14 and 18 o'clock |
| Notify.ReminderPosts | app.py:366-368 | the reminder goes to each of the four threads in order, and nothing is sent at other hours |
| Notify.ReminderNamesSession | app.py:361-368 | two different reminder hours post different texts, so each post names its session |
| Webhook.DispatchEffects | app.py:398-408 | a confirmation exactly when a row was appended and the text parses; an alert exactly for an order that was not confirmed; the row goes to the sheet of its route; a non-order causes nothing but the acknowledgement |
| Webhook.AfterRegularRejected | app.py:403-408 | a rejected regular order gets its reply and an alert, and nothing is stored or confirmed |
| Webhook.MarketplaceIntakeParses | app.py:412-422 | the marketplace intake fails exactly when `parse_order` does, with the same exception |
| Webhook.StoredParses | app.py:405 | the second parse of a stored regular order succeeds |
| Webhook.MessageEffects | app.py:390-408 | only `sales` messages append or alert; a confirmation exactly when a row was appended; an alert exactly for a `sales` message with nothing appended; other messages get at most the acknowledgement |
| Webhook.RegularOrderHandled | app.py:403-408 | a regular order appends its row exactly when it is stored; otherwise it gets its reply |

## Left out

- Telegram I/O (`send_msg`, `fwd_msg`, `delete_msg`, `bot.send_message`) is not modelled. The model returns the texts and their targets instead.
- Google Sheets I/O is not modelled. The rows read are parameters, and a read that raises is `None`. Every cell is text, so gspread's conversion of numeric cells is not modelled.
- Flask, APScheduler, dotenv and logging are left out: they are infrastructure.
- The JSON message-id store (`_load_message_ids`, `_save_message_ids`) is left out. So is deleting the previous report message: both are file and chat I/O around the report text.
- `is_msg_processed` and `mark_msg_processed` are left out because `app.py` never defines them. The model treats every message as new.
- `send_available_agents` is left out: it is not part of the order pipeline or the report.
- The clock is one `Instant` per message. The source calls `datetime.now()` several times, and the model assumes they agree.
- The sheets that `send_confirmation` reads for the totals are a parameter. They do not contain the row just appended unless the caller passes them that way.
- `get_num` reads its digits as an integer. Python goes through `float`, which can lose precision for numbers of 16 digits or more.
- `\d`, `\s`, `\w` and case folding are ASCII plus Python's white-space set. Unicode digits and letters are not modelled.
- The `int()` error text does not model Python's `repr` escaping of the offending value.
- Sheet cells are text, so a missing cell reads as the default the code gives: "" for `row.get(key, "")`, `Unknown` for the `CUSTOMER SERVICE` cell (app.py:309, `Report.OperatorOf`), `None` for the `WHATSAPP` cell of a duplicate notice (app.py:227, `Intake.DuplicateNotice`), and 0 for the quantities (app.py:310-311).
- Webhook.OperatorName has no contract: it only joins the first and last name and strips the result.
- `append_row` (app.py:422 and app.py:451) is assumed to succeed. In the source a failed append raises into the handler at app.py:406-408, which alerts the admin and sends no confirmation. `Webhook.MessageEffects` relies on this assumption.
- Dates.DaysBefore returns `None` where Python raises OverflowError (before year 1).
- Ranking.SalesReport returns `None` where a sheet read or the week start raises. The source's `except` turns that into the admin alert `Bot Error (Sales Report): …`, and that alert text is not modelled.
- Continuation lines under `alamat jalan`, `desa/kelurahan` and `kab/kota` raise KeyError. app.py:168-171 store these three keys under new names (`alamat`, `kelurahan`, `kota/kab`), but the continuation at app.py:176 indexes the key as written. Only `kecamatan` continues. The model keeps this behaviour (`OrderParser.RenamedContinuationRaises`).
- A marketplace message can still store `notes`. app.py:179 drops the free-text lines of a marketplace message, but a `notes: …` key line is stored by the catch-all at app.py:173. The model keeps this behaviour (`OrderParser.TextFieldDefault` needs that no line writes `notes`).
