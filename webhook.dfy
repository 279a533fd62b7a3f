/** `webhook_handler`: one incoming message, from routing through intake to
    the confirmation, as the effects it has on the chats and the sheets. */
module Webhook {
  import opened Outcomes
  import opened Text
  import opened Dates
  import opened OrderParser
  import opened Intake
  import opened Report
  import opened Notify

  /** The sheet an order row is appended to. */
  datatype Sheet = ClosingSheet | ClosingMpSheet

  /** What handling a message does: the replies in the operator's thread,
      the row appended, the confirmation and the message for the admin. */
  datatype Effects = Effects(replies: seq<string>, appended: Option<(Sheet, seq<Value>)>,
                             confirmation: Option<Confirmation>, alert: Option<string>)

  const NoEffects: Effects := Effects([], None, None, None)

  /** `f"{user.first_name} {user.last_name or ''}".strip()` */
  function OperatorName(first: string, last: Option<string>): string
  {
    Strip(first + " " + (if last.Some? then last.value else ""))
  }

  /** `f"Bot Error: {e}"`, sent to the admin for any exception. */
  function Alert(e: string): string
  {
    "Bot Error: " + e
  }

  /** `send_confirmation` after the row is stored: it parses the text again
      and reads the operator's same-day totals from `statsSheets`, the
      Closing and Closing MP sheets as read after the append. */
  function Confirmed(sheet: Sheet, row: seq<Value>, parsed: Result<Record>, cs: string, today: Date,
                     statsSheets: seq<Option<seq<Row>>>, hasPhoto: bool): Effects
  {
    match parsed
    case Err(f) => Effects([], Some((sheet, row)), None, Some(Alert(FailureText(f))))
    case Ok(d) => Effects([], Some((sheet, row)), Some(Confirm(cs, CombinedStats(statsSheets, today, cs), d, hasPhoto)), None)
  }

  /** After `process_mp_order`. */
  function AfterMarketplace(r: Result<seq<Value>>, parsed: Result<Record>, cs: string, today: Date,
                            statsSheets: seq<Option<seq<Row>>>, hasPhoto: bool): Effects
  {
    match r
    case Err(f) => Effects([], None, None, Some(Alert(FailureText(f))))
    case Ok(row) => Confirmed(ClosingMpSheet, row, parsed, cs, today, statsSheets, hasPhoto)
  }

  /** After `process_regular_order`: a rejection is replied to and raised,
      a stored row is confirmed. */
  function AfterRegular(o: RegularOutcome, parsed: Result<Record>, cs: string, today: Date,
                        statsSheets: seq<Option<seq<Row>>>, hasPhoto: bool): Effects
  {
    if o.Stored? then Confirmed(ClosingSheet, o.row, parsed, cs, today, statsSheets, hasPhoto)
    else Effects(if Reply(o).Some? then [Reply(o).value] else [], None, None, Some(Alert(RaisedText(o, cs).value)))
  }

  /** `webhook_handler` for a new message with text (or caption) `text`
      from operator `cs`, at `now`, with the Closing sheet and AGEN column
      as read by the checks. Only the intake the route selects is looked
      at. */
  function HandleMessage(text: string, cs: string, hasPhoto: bool, now: Instant, closing: Option<seq<Row>>,
                         roster: Option<seq<string>>, statsSheets: seq<Option<seq<Row>>>): Effects
    requires ValidInstant(now)
  {
    var route := RouteOf(text, hasPhoto);
    var platform := if route.MarketplaceOrder? then route.platform else "";
    Dispatch(route, MarketplaceIntake(text, platform, cs, now), RegularIntake(text, cs, now, closing, roster),
             ParseOrderSpec(text), cs, now.date, statsSheets, hasPhoto)
  }

  /** The handler given the route and the results of the two intakes and
      of the confirmation's parse. */
  function Dispatch(route: Route, mp: Result<seq<Value>>, o: RegularOutcome, parsed: Result<Record>, cs: string,
                    today: Date, statsSheets: seq<Option<seq<Row>>>, hasPhoto: bool): Effects
  {
    match route
    case Ignored => NoEffects
    case ReceiptAcknowledged => Effects([ReceiptReply], None, None, None)
    case MarketplaceOrder(_) => AfterMarketplace(mp, parsed, cs, today, statsSheets, hasPhoto)
    case RegularOrder => AfterRegular(o, parsed, cs, today, statsSheets, hasPhoto)
  }

  /** Dispatch on its own: a row is confirmed exactly when it is stored and
      the confirmation's parse succeeds; an order that is not stored raises
      the alert; a message that is no order has at most the acknowledgement. */
  lemma DispatchEffects(route: Route, mp: Result<seq<Value>>, o: RegularOutcome, parsed: Result<Record>, cs: string,
                        today: Date, statsSheets: seq<Option<seq<Row>>>, hasPhoto: bool)
    ensures var e := Dispatch(route, mp, o, parsed, cs, today, statsSheets, hasPhoto);
      && (e.confirmation.Some? <==> e.appended.Some? && parsed.Ok?)
      && (e.alert.Some? <==> (route.MarketplaceOrder? || route.RegularOrder?) && !(e.appended.Some? && parsed.Ok?))
      && (e.appended.Some? <==> (route.MarketplaceOrder? && mp.Ok?) || (route.RegularOrder? && o.Stored?))
      && (route.MarketplaceOrder? && mp.Ok? ==> e.appended == Some((ClosingMpSheet, mp.value)))
      && (route.RegularOrder? && o.Stored? ==> e.appended == Some((ClosingSheet, o.row)))
      && (e.confirmation.Some? ==> e.confirmation == Some(Confirm(cs, CombinedStats(statsSheets, today, cs), parsed.value, hasPhoto)))
      && (route.Ignored? ==> e == NoEffects)
      && (route.ReceiptAcknowledged? ==> e == Effects([ReceiptReply], None, None, None))
  {
  }

  /** A rejected regular order gets its reply and an alert, and nothing is
      stored or confirmed; a crash gets the alert alone. */
  lemma AfterRegularRejected(o: RegularOutcome, parsed: Result<Record>, cs: string, today: Date,
                             statsSheets: seq<Option<seq<Row>>>, hasPhoto: bool)
    requires !o.Stored?
    ensures var e := AfterRegular(o, parsed, cs, today, statsSheets, hasPhoto);
      && e.appended.None? && e.confirmation.None? && e.alert.Some?
      && (o.Crashed? <==> e.replies == [])
      && (o.ValidationFailed? ==> e.replies == [o.errors])
  {
  }

  /** The marketplace intake fails exactly when the parse does. */
  lemma MarketplaceIntakeParses(text: string, platform: string, cs: string, now: Instant)
    requires ValidInstant(now)
    ensures MarketplaceIntake(text, platform, cs, now).Ok? <==> ParseOrderSpec(text).Ok?
    ensures MarketplaceIntake(text, platform, cs, now).Err? ==>
      MarketplaceIntake(text, platform, cs, now).failure == ParseOrderSpec(text).failure
  {
  }

  lemma StoredParses(text: string, cs: string, now: Instant, closing: Option<seq<Row>>, roster: Option<seq<string>>)
    requires ValidInstant(now) && RegularIntake(text, cs, now, closing, roster).Stored?
    ensures ParseOrderSpec(text).Ok?
  {
    StoredWasValid(text, cs, now, closing, roster);
    RegularScreened(text, cs, now, closing, roster);
  }

  /** Whatever the message: only one starting with "sales" touches a sheet
      or alerts the admin; a stored row is always confirmed, with the
      operator's totals; an order that is not stored raises the alert. */
  lemma MessageEffects(text: string, cs: string, hasPhoto: bool, now: Instant, closing: Option<seq<Row>>,
                       roster: Option<seq<string>>, statsSheets: seq<Option<seq<Row>>>)
    requires ValidInstant(now)
    ensures var e := HandleMessage(text, cs, hasPhoto, now, closing, roster, statsSheets);
      && (e.appended.Some? || e.alert.Some? ==> StartsWith(Lower(text), "sales"))
      && (e.confirmation.Some? <==> e.appended.Some?)
      && (e.alert.Some? <==> StartsWith(Lower(text), "sales") && e.appended.None?)
      && (!StartsWith(Lower(text), "sales") ==> e.replies == [] || e.replies == [ReceiptReply])
  {
    var route := RouteOf(text, hasPhoto);
    var platform := if route.MarketplaceOrder? then route.platform else "";
    var o := RegularIntake(text, cs, now, closing, roster);
    RouteIsOrder(text, hasPhoto);
    MarketplaceIntakeParses(text, platform, cs, now);
    if route.RegularOrder? && o.Stored? {
      StoredParses(text, cs, now, closing, roster);
    }
    DispatchEffects(route, MarketplaceIntake(text, platform, cs, now), o, ParseOrderSpec(text), cs, now.date, statsSheets, hasPhoto);
  }

  /** A regular order is stored in the Closing sheet exactly when the
      intake stores it, as the intake's row; one that fails validation gets
      its errors back. */
  lemma RegularOrderHandled(text: string, cs: string, hasPhoto: bool, now: Instant, closing: Option<seq<Row>>,
                            roster: Option<seq<string>>, statsSheets: seq<Option<seq<Row>>>)
    requires ValidInstant(now) && RouteOf(text, hasPhoto) == RegularOrder
    ensures var e := HandleMessage(text, cs, hasPhoto, now, closing, roster, statsSheets);
      var o := RegularIntake(text, cs, now, closing, roster);
      && (e.appended.Some? <==> o.Stored?)
      && (o.Stored? ==> e.appended == Some((ClosingSheet, o.row)))
      && (!o.Stored? ==> e.replies == (if Reply(o).Some? then [Reply(o).value] else []))
  {
  }
}
