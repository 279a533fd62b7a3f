/** The message choices of `send_confirmation` and `send_closing_reminder`:
    which text goes out and where a transfer receipt is forwarded. */
module Notify {
  import opened Outcomes
  import opened Text
  import opened OrderParser
  import opened Validator
  import opened Intake
  import opened Report

  // ---------------------------------------------------------------------
  // send_confirmation
  // ---------------------------------------------------------------------

  /** The three confirmations an operator can get. */
  datatype ConfirmKind = AgentSupplied | TransferReceived | Success

  /** The chats a transfer receipt photo is forwarded to. */
  datatype Forward = AgentGroup | OldTransferGroup

  datatype Confirmation = Confirmation(kind: ConfirmKind, text: string, forward: Option<Forward>)

  /** `f"{cs_name} ★ {invoices} INVOICE - {box} Box - {sachet} Sachet"`,
      with the operator's same-day totals. */
  function StatsHeader(cs: string, stats: Totals): string
  {
    cs + " ★ " + IntToString(stats.invoices) + " INVOICE - " + IntToString(stats.box) + " Box - "
      + IntToString(stats.sachet) + " Sachet"
  }

  /** `result.get('pembayaran', "").upper()` */
  function PayMethod(d: Record): string
  {
    Upper(TextOf(Get(d, "pembayaran")))
  }

  predicate PaidByTransfer(d: Record)
  {
    PayMethod(d) == "TRANSFER"
  }

  /** `"agen" in result.get('notes', "").lower()` */
  predicate AgentOrder(d: Record)
  {
    MentionsAgent(TextOf(Get(d, "notes")))
  }

  function ConfirmBody(kind: ConfirmKind, d: Record): string
  {
    match kind
    case AgentSupplied => "🥷🏻 Data ter-supply untuk " + TextOf(Get(d, "notes"))
    case TransferReceived => "🏧 Orderan Transfer " + TextOf(Get(d, "nama")) + " diterima"
    case Success => "✅ Success! " + TextOf(Get(d, "nama")) + " berhasil diinput"
  }

  /** `send_confirmation` for operator `cs` with their same-day `stats`, the
      parsed order `d` and whether the message carried a photo: an order
      whose notes mention an agent is confirmed as supplied for the agent
      (its photo forwarded to the agent group when paid by transfer), any
      other transfer as received (its photo forwarded to the old transfer
      group), everything else as a success. */
  function Confirm(cs: string, stats: Totals, d: Record, hasPhoto: bool): (c: Confirmation)
    ensures c.kind == AgentSupplied <==> AgentOrder(d)
    ensures c.kind == TransferReceived <==> !AgentOrder(d) && PaidByTransfer(d)
    ensures c.forward == Some(AgentGroup) <==> AgentOrder(d) && PaidByTransfer(d) && hasPhoto
    ensures c.forward == Some(OldTransferGroup) <==> !AgentOrder(d) && PaidByTransfer(d) && hasPhoto
    ensures c.text == StatsHeader(cs, stats) + "\n\n" + ConfirmBody(c.kind, d)
  {
    var kind := if AgentOrder(d) then AgentSupplied else if PaidByTransfer(d) then TransferReceived else Success;
    var forward :=
      if !PaidByTransfer(d) || !hasPhoto then None
      else if kind == AgentSupplied then Some(AgentGroup) else Some(OldTransferGroup);
    Confirmation(kind, StatsHeader(cs, stats) + "\n\n" + ConfirmBody(kind, d), forward)
  }

  /** Every confirmation opens with the operator's totals line. */
  lemma ConfirmOpensWithStats(cs: string, stats: Totals, d: Record, hasPhoto: bool)
    ensures StartsWith(Confirm(cs, stats, d, hasPhoto).text, StatsHeader(cs, stats))
  {
    var c := Confirm(cs, stats, d, hasPhoto);
    OpensWith(StatsHeader(cs, stats), ConfirmBody(c.kind, d));
  }

  lemma OpensWith(h: string, body: string)
    ensures StartsWith(h + "\n\n" + body, h)
  {
    assert (h + "\n\n" + body)[..|h|] == h;
  }

  /** The three messages in full: the totals line, one blank line, and
      the agent, transfer or success line. */
  lemma ConfirmTexts(cs: string, stats: Totals, d: Record, hasPhoto: bool)
    ensures AgentOrder(d) ==>
      Confirm(cs, stats, d, hasPhoto).text == StatsHeader(cs, stats) + "\n\n" + "🥷🏻 Data ter-supply untuk " + TextOf(Get(d, "notes"))
    ensures !AgentOrder(d) && PaidByTransfer(d) ==>
      Confirm(cs, stats, d, hasPhoto).text == StatsHeader(cs, stats) + "\n\n" + "🏧 Orderan Transfer " + TextOf(Get(d, "nama")) + " diterima"
    ensures !AgentOrder(d) && !PaidByTransfer(d) ==>
      Confirm(cs, stats, d, hasPhoto).text == StatsHeader(cs, stats) + "\n\n" + "✅ Success! " + TextOf(Get(d, "nama")) + " berhasil diinput"
  {
    var h := StatsHeader(cs, stats) + "\n\n";
    var notes, nama := TextOf(Get(d, "notes")), TextOf(Get(d, "nama"));
    Append3(h, "🥷🏻 Data ter-supply untuk ", notes, []);
    Append3(h, "🏧 Orderan Transfer ", nama, " diterima");
    Append3(h, "✅ Success! ", nama, " berhasil diinput");
  }

  lemma Append3(h: string, a: string, b: string, c: string)
    ensures h + (a + b + c) == h + a + b + c
  {
  }

  /** Only a transfer receipt photo is ever forwarded. */
  lemma ForwardOnlyTransferPhotos(cs: string, stats: Totals, d: Record, hasPhoto: bool)
    ensures Confirm(cs, stats, d, hasPhoto).forward.Some? <==> PaidByTransfer(d) && hasPhoto
  {
  }

  /** An acceptable order that mentions no agent is paid by COD or by
      transfer, so it is confirmed as a success exactly when it is COD. */
  lemma AcceptableConfirmation(d: Record, cs: string, stats: Totals, hasPhoto: bool)
    requires TextFieldsPresent(d) && RecordAcceptable(d) && !AgentOrder(d)
    ensures Confirm(cs, stats, d, hasPhoto).kind == Success <==> PayMethod(d) == "COD"
  {
    assert PayMethod(d) == Upper(d["pembayaran"].s);
    assert PayMethod(d) in PaymentMethods;
  }

  /** So, for a stored regular order that mentions no agent. */
  lemma RegularConfirmation(text: string, cs: string, now: Dates.Instant, closing: Option<seq<Row>>,
                            roster: Option<seq<string>>, stats: Totals, hasPhoto: bool)
    requires Dates.ValidInstant(now)
    requires RegularIntake(text, cs, now, closing, roster).Stored?
    requires ParseOrderSpec(text).Ok? && !AgentOrder(ParseOrderSpec(text).value)
    ensures Confirm(cs, stats, ParseOrderSpec(text).value, hasPhoto).kind == Success
      <==> PayMethod(ParseOrderSpec(text).value) == "COD"
  {
    StoredOrderAcceptable(text, cs, now, closing, roster);
    AcceptableConfirmation(ParseOrderSpec(text).value, cs, stats, hasPhoto);
  }

  // ---------------------------------------------------------------------
  // send_closing_reminder
  // ---------------------------------------------------------------------

  const MorningReminder: string := "⏰ Segera input SEMUA Closingan Pagi ini sebelum Jam 12:00 Siang!"
  const NoonReminder: string := "⏰ Segera input SEMUA Closingan Siang ini sebelum Jam 15:00 Sore!"
  const AfternoonReminder: string := "⏰ Segera input SEMUA Closingan Sore ini sebelum Jam 19:00 Malam!"

  /** The forum topics of the sales group that get the reminder. */
  const ReminderThreads: seq<int> := [1, 1875, 5838, 19334]

  /** The reminder for the hour the job runs at: one for 11, 14 and 18
      o'clock, none otherwise. */
  function ReminderText(hour: int): (r: Option<string>)
    ensures r.Some? <==> hour == 11 || hour == 14 || hour == 18
  {
    if hour == 11 then Some(MorningReminder)
    else if hour == 14 then Some(NoonReminder)
    else if hour == 18 then Some(AfternoonReminder)
    else None
  }

  /** The (thread, text) posts `send_closing_reminder` makes at `hour`. */
  function ReminderPosts(hour: int): (r: seq<(int, string)>)
    ensures ReminderText(hour).None? ==> r == []
    ensures ReminderText(hour).Some? ==>
      |r| == |ReminderThreads| && (forall k :: 0 <= k < |r| ==> r[k] == (ReminderThreads[k], ReminderText(hour).value))
  {
    match ReminderText(hour)
    case None => []
    case Some(msg) => seq(|ReminderThreads|, k requires 0 <= k < |ReminderThreads| => (ReminderThreads[k], msg))
  }

  /** The three reminders differ. */
  lemma RemindersDistinct()
    ensures MorningReminder != NoonReminder && NoonReminder != AfternoonReminder && MorningReminder != AfternoonReminder
  {
    assert MorningReminder[32] != NoonReminder[32];
    assert NoonReminder[32] != AfternoonReminder[32];
    assert MorningReminder[32] != AfternoonReminder[32];
  }

  /** Each run names its own session: two different reminder hours post
      different texts. */
  lemma ReminderNamesSession(h1: int, h2: int)
    requires ReminderText(h1).Some? && ReminderText(h2).Some? && h1 != h2
    ensures ReminderText(h1).value != ReminderText(h2).value
  {
    RemindersDistinct();
  }
}
