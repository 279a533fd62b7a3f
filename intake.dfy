/** The intake side of app.py: the same-day duplicate check against the
    Closing sheet, the agent-code check against the AGEN roster, the rows
    appended for regular and marketplace orders, and the routing of an
    incoming message. Sheet reads are parameters: `None` stands for a read
    that raised. */
module Intake {
  import opened Outcomes
  import opened Text
  import opened Normalize
  import opened Dates
  import opened OrderParser
  import opened Validator

  /** A sheet record from `get_all_records`, with each cell as text. */
  type Row = map<string, string>

  /** `str(row.get(key, ""))` */
  function Cell(row: Row, key: string): string
  {
    if key in row then row[key] else ""
  }

  // ---------------------------------------------------------------------
  // is_dup_phone
  // ---------------------------------------------------------------------

  /** A row entered on the day `todayText` (as `dd/mm/yyyy`) whose
      normalised phone equals `phone` or whose stripped, lower-cased address
      equals `addr` lower-cased. */
  predicate RowMatches(row: Row, phone: string, addr: string, todayText: string)
  {
    && StartsWith(Cell(row, "TANGGAL INPUT"), todayText)
    && (FormatPhone(Cell(row, "WHATSAPP")) == phone || Lower(Strip(Cell(row, "ALAMAT"))) == Lower(addr))
  }

  /** `f"Duplicate: {row.get('WHATSAPP')}"`; an absent cell prints as None. */
  function DuplicateNotice(row: Row): string
  {
    "Duplicate: " + (if "WHATSAPP" in row then row["WHATSAPP"] else "None")
  }

  /** The notice for the first matching row, if any. */
  function FirstDuplicate(rows: seq<Row>, phone: string, addr: string, todayText: string): (r: Option<string>)
  {
    if |rows| == 0 then None
    else if RowMatches(rows[0], phone, addr, todayText) then Some(DuplicateNotice(rows[0]))
    else FirstDuplicate(rows[1..], phone, addr, todayText)
  }

  /** `is_dup_phone(phone, addr, sheet)`: a read failure counts as no
      duplicate. */
  function DuplicateOf(phone: string, addr: string, sheet: Option<seq<Row>>, today: Date): Option<string>
  {
    match sheet
    case None => None
    case Some(rows) => FirstDuplicate(rows, phone, addr, FormatShort(today))
  }

  method IsDupPhone(phone: string, addr: string, sheet: Option<seq<Row>>, today: Date) returns (r: Option<string>)
    ensures r == DuplicateOf(phone, addr, sheet, today)
  {
    if sheet.None? {
      return None;
    }
    var todayText := FormatShort(today);
    var rows := sheet.value;
    var i := 0;
    while i < |rows|
      invariant 0 <= i <= |rows|
      invariant FirstDuplicate(rows[i..], phone, addr, todayText) == FirstDuplicate(rows, phone, addr, todayText)
    {
      var row := rows[i];
      var rowPhone := FormatPhone(Cell(row, "WHATSAPP"));
      var rowAddr := Lower(Strip(Cell(row, "ALAMAT")));
      if StartsWith(Cell(row, "TANGGAL INPUT"), todayText) {
        if rowPhone == phone || rowAddr == Lower(addr) {
          return Some(DuplicateNotice(row));
        }
      }
      assert rows[i..][1..] == rows[i + 1..];
      i := i + 1;
    }
    return None;
  }

  /** No duplicate is reported exactly when no row matches. */
  lemma {:induction false} FirstDuplicateNone(rows: seq<Row>, phone: string, addr: string, todayText: string)
    ensures FirstDuplicate(rows, phone, addr, todayText).None?
      <==> forall i :: 0 <= i < |rows| ==> !RowMatches(rows[i], phone, addr, todayText)
    decreases |rows|
  {
    if rows != [] {
      FirstDuplicateNone(rows[1..], phone, addr, todayText);
      assert forall i :: 1 <= i < |rows| ==> rows[i] == rows[1..][i - 1];
    }
  }

  /** No duplicate is reported exactly when the sheet read raised or no row
      entered today matches. */
  lemma DuplicateOfNone(phone: string, addr: string, sheet: Option<seq<Row>>, today: Date)
    ensures DuplicateOf(phone, addr, sheet, today).None?
      <==> sheet.None? || forall i :: 0 <= i < |sheet.value| ==> !RowMatches(sheet.value[i], phone, addr, FormatShort(today))
  {
    if sheet.Some? {
      FirstDuplicateNone(sheet.value, phone, addr, FormatShort(today));
    }
  }

  /** A reported duplicate names the first matching row. */
  lemma {:induction false} FirstDuplicateIsFirst(rows: seq<Row>, phone: string, addr: string, todayText: string)
    returns (k: nat)
    requires FirstDuplicate(rows, phone, addr, todayText).Some?
    ensures k < |rows| && RowMatches(rows[k], phone, addr, todayText)
    ensures forall j :: 0 <= j < k ==> !RowMatches(rows[j], phone, addr, todayText)
    ensures FirstDuplicate(rows, phone, addr, todayText) == Some(DuplicateNotice(rows[k]))
    decreases |rows|
  {
    if RowMatches(rows[0], phone, addr, todayText) {
      k := 0;
    } else {
      var j := FirstDuplicateIsFirst(rows[1..], phone, addr, todayText);
      k := j + 1;
      assert forall i :: 1 <= i <= k ==> rows[i] == rows[1..][i - 1];
    }
  }

  /** A row entered on the given day with the local form `0…` of the
      order's number `62…` is a duplicate, whatever follows the date in its
      timestamp. */
  lemma LocalNumberIsDuplicate(row: Row, national: string, addr: string, todayText: string, entered: string)
    requires AllDigits(national)
    requires "TANGGAL INPUT" in row && row["TANGGAL INPUT"] == todayText + entered
    requires "WHATSAPP" in row && row["WHATSAPP"] == "0" + national
    ensures FirstDuplicate([row], "62" + national, addr, todayText) == Some("Duplicate: 0" + national)
  {
    FormatPhoneLocalEqualsInternational(national);
    assert (todayText + entered)[..|todayText|] == todayText;
    assert RowMatches(row, "62" + national, addr, todayText);
    assert [row][0] == row;
    assert DuplicateNotice(row) == "Duplicate: " + ("0" + national);
    assert "Duplicate: " + ("0" + national) == "Duplicate: 0" + national;
  }

  // ---------------------------------------------------------------------
  // is_valid_agent_code:  ^Agen\s+[\w\s]+#\d+   (IGNORECASE)
  // ---------------------------------------------------------------------

  predicate IsWordOrSpace(c: char) { IsWordChar(c) || IsSpace(c) }

  /** The first index at or after `i` that is not a word or space character. */
  function SkipWordOrSpace(s: string, i: nat): (r: nat)
    requires i <= |s|
    ensures i <= r <= |s|
    ensures forall k :: i <= k < r ==> IsWordOrSpace(s[k])
    ensures r == |s| || !IsWordOrSpace(s[r])
    decreases |s| - i
  {
    if i < |s| && IsWordOrSpace(s[i]) then SkipWordOrSpace(s, i + 1) else i
  }

  const AgentWord: string := "agen"

  /** The text the pattern matches at the start of `notes`. `\s+` and
      `[\w\s]+` together take the longest run of word and space characters
      after the word, which must start with a space and hold at least two
      characters; it must be followed by `#` and at least one digit, and the
      digit run is taken whole. */
  function AgentCodeMatch(notes: string): (r: Option<string>)
  {
    if |notes| <= |AgentWord| || Lower(notes[..|AgentWord|]) != AgentWord || !IsSpace(notes[|AgentWord|]) then None
    else
      var c := SkipWordOrSpace(notes, |AgentWord|);
      if c < |AgentWord| + 2 || c == |notes| || notes[c] != '#' then None
      else
        var d := SkipDigits(notes, c + 1);
        if d == c + 1 then None else Some(notes[..d])
  }

  function StripAll(codes: seq<string>): (r: seq<string>)
    ensures |r| == |codes|
    ensures forall i :: 0 <= i < |codes| ==> r[i] == Strip(codes[i])
  {
    seq(|codes|, i requires 0 <= i < |codes| => Strip(codes[i]))
  }

  /** `col_values(2)[1:]`: the roster column without its header. */
  function RosterCodes(column: seq<string>): seq<string>
  {
    if |column| == 0 then [] else column[1..]
  }

  /** `is_valid_agent_code(notes)` for the AGEN column `roster` (`None` when
      reading it raised, which counts as valid). */
  function IsValidAgentCode(notes: string, roster: Option<seq<string>>): bool
  {
    if notes == [] then true
    else
      match AgentCodeMatch(notes)
      case None => true
      case Some(g) =>
        match roster
        case None => true
        case Some(column) => Strip(g) in StripAll(RosterCodes(column))
  }

  /** A stripped code is on the roster exactly when some entry below the
      header strips to it. */
  lemma OnRoster(g: string, column: seq<string>)
    ensures g in StripAll(RosterCodes(column)) <==> exists k :: 1 <= k < |column| && Strip(column[k]) == g
  {
    var below := RosterCodes(column);
    var codes := StripAll(below);
    assert |below| == if |column| == 0 then 0 else |column| - 1;
    assert forall i :: 0 <= i < |below| ==> below[i] == column[i + 1];
    if g in codes {
      var i :| 0 <= i < |codes| && codes[i] == g;
      assert codes[i] == Strip(below[i]) && below[i] == column[i + 1];
    }
    if exists k :: 1 <= k < |column| && Strip(column[k]) == g {
      var k :| 1 <= k < |column| && Strip(column[k]) == g;
      assert below[k - 1] == column[k];
      assert codes[k - 1] == g;
    }
  }

  /** The code is rejected exactly when notes carry the pattern, the roster
      was read, and no roster entry below the header equals the matched text
      once both are stripped. */
  lemma AgentCodeRejected(notes: string, roster: Option<seq<string>>)
    ensures !IsValidAgentCode(notes, roster) <==>
      && notes != []
      && AgentCodeMatch(notes).Some?
      && roster.Some?
      && forall k :: 1 <= k < |roster.value| ==> Strip(roster.value[k]) != Strip(AgentCodeMatch(notes).value)
  {
    var m := AgentCodeMatch(notes);
    if notes != [] && m.Some? && roster.Some? {
      OnRoster(Strip(m.value), roster.value);
    }
  }

  /** What the pattern matches: the word in any case, spaces, a name of
      word and space characters, `#` and the digits, up to the first
      non-digit after them. */
  lemma AgentCodeMatchOf(w: string, sp: string, name: string, d: string, rest: string)
    requires Lower(w) == AgentWord && sp != [] && (forall k :: 0 <= k < |sp| ==> IsSpace(sp[k]))
    requires name != [] && forall k :: 0 <= k < |name| ==> IsWordOrSpace(name[k])
    requires d != [] && AllDigits(d) && (rest == [] || !IsDigit(rest[0]))
    ensures AgentCodeMatch(w + sp + name + "#" + d + rest) == Some(w + sp + name + "#" + d)
  {
    var s := w + sp + name + "#" + d + rest;
    var n := |AgentWord|;
    assert |w| == |Lower(w)| == n;
    assert s[..n] == w;
    assert s[n] == sp[0];
    var c := n + |sp| + |name|;
    assert forall k :: n <= k < c ==> IsWordOrSpace(s[k]) by {
      forall k | n <= k < c
        ensures IsWordOrSpace(s[k])
      {
        if k < n + |sp| {
          assert s[k] == sp[k - n];
        } else {
          assert s[k] == name[k - n - |sp|];
        }
      }
    }
    assert s[c] == '#';
    SkipWordOrSpaceStops(s, n, c);
    var e := c + 1 + |d|;
    assert forall k :: c + 1 <= k < e ==> s[k] == d[k - c - 1];
    assert e == |s| || s[e] == rest[0];
    SkipDigitsStops(s, c + 1, e);
    assert s[..e] == w + sp + name + "#" + d;
  }

  lemma {:induction false} SkipWordOrSpaceStops(s: string, i: nat, c: nat)
    requires i <= c < |s| && !IsWordOrSpace(s[c])
    requires forall k :: i <= k < c ==> IsWordOrSpace(s[k])
    ensures SkipWordOrSpace(s, i) == c
    decreases c - i
  {
    if i < c {
      SkipWordOrSpaceStops(s, i + 1, c);
    }
  }

  lemma {:induction false} SkipDigitsStops(s: string, i: nat, e: nat)
    requires i <= e <= |s| && (e == |s| || !IsDigit(s[e]))
    requires forall k :: i <= k < e ==> IsDigit(s[k])
    ensures SkipDigits(s, i) == e
    decreases e - i
  {
    if i < e {
      SkipDigitsStops(s, i + 1, e);
    }
  }

  // ---------------------------------------------------------------------
  // The appended rows
  // ---------------------------------------------------------------------

  /** `result.get(key)`; the parser always supplies the keys read here, so
      the empty default never shows (see `ParsedFields`). */
  function Get(d: Record, key: string): Value
  {
    if key in d then d[key] else Str("")
  }

  /** A parsed field used as text; every field read this way is text after
      parsing. */
  function TextOf(v: Value): string
  {
    if v.Str? then v.s else ""
  }

  /** Python truthiness of a field. */
  predicate Truthy(v: Value)
  {
    if v.Str? then v.s != [] else v.n != 0
  }

  /** The 20 columns of a Closing / Closing MP row: the invoice id, the
      date, the operator, the customer and address fields, "DOORASI", the
      product fields, the payment method (regular) or platform
      (marketplace), the notes and the full timestamp. */
  function ClosingRow(id: Value, d: Record, cs: string, now: Instant, channel: Value): seq<Value>
    requires ValidInstant(now)
  {
    [ id, Str(FormatShort(now.date)), Str(cs), Get(d, "nama"), Get(d, "no hp"),
      Get(d, "alamat"), Get(d, "kelurahan"), Get(d, "kecamatan"), Get(d, "kota/kab"),
      Get(d, "kode pos"), Str("DOORASI"), Get(d, "sku"), Get(d, "qty_box"), Get(d, "qty_sachet"),
      Get(d, "total pembayaran"), Get(d, "ongkir"), Get(d, "ekspedisi"),
      channel, Get(d, "notes"), Str(FormatTimestamp(now)) ]
  }

  /** The input-timestamp column begins with the date column, which is
      what the duplicate check and the daily totals look for. */
  lemma ClosingRowShape(id: Value, d: Record, cs: string, now: Instant, channel: Value)
    requires ValidInstant(now)
    ensures var r := ClosingRow(id, d, cs, now, channel);
      && |r| == 20 && r[0] == id && r[2] == Str(cs) && r[17] == channel
      && r[1] == Str(FormatShort(now.date)) && r[19].Str? && StartsWith(r[19].s, FormatShort(now.date))
  {
  }

  // ---------------------------------------------------------------------
  // process_regular_order
  // ---------------------------------------------------------------------

  /** How a regular order ends: an exception from parsing, one of the three
      rejections (each replied to the operator and raised to the admin), or
      the row appended to the Closing sheet. */
  datatype RegularOutcome =
    | Crashed(failure: Failure)
    | ValidationFailed(errors: string)
    | DuplicateFound(notice: string)
    | InvalidAgent(notes: string)
    | Stored(row: seq<Value>)

  /** `"#ro" in text.lower()`: a repeat order, exempt from the duplicate
      check. */
  predicate RepeatOrder(text: string)
  {
    Contains(Lower(text), "#ro")
  }

  /** `"agen" in notes.lower()` */
  predicate MentionsAgent(notes: string)
  {
    Contains(Lower(notes), AgentWord)
  }

  /** The checks after validation, on the parsed record `d`. */
  function Screen(text: string, d: Record, cs: string, now: Instant, closing: Option<seq<Row>>, roster: Option<seq<string>>): RegularOutcome
    requires ValidInstant(now)
  {
    var notes := TextOf(Get(d, "notes"));
    var dup := if RepeatOrder(text) then None else DuplicateOf(TextOf(Get(d, "no hp")), TextOf(Get(d, "alamat")), closing, now.date);
    if dup.Some? then DuplicateFound(dup.value)
    else if MentionsAgent(notes) && !IsValidAgentCode(notes, roster) then InvalidAgent(notes)
    else Stored(ClosingRow(Str("INV-" + IntToString(now.epoch)), d, cs, now, Get(d, "pembayaran")))
  }

  /** `process_regular_order` for operator `cs` at `now`, with the Closing
      sheet and the AGEN column as read (`None` when the read raised). */
  function RegularIntake(text: string, cs: string, now: Instant, closing: Option<seq<Row>>, roster: Option<seq<string>>): RegularOutcome
    requires ValidInstant(now)
  {
    Gate(ValidateOrderSpec(text), ParseOrderSpec(text), text, cs, now, closing, roster)
  }

  /** The pipeline given what `validate_order` and `parse_order` return:
      `if error:` rejects a non-empty error text. */
  function Gate(validation: Result<Option<string>>, parsed: Result<Record>, text: string, cs: string, now: Instant,
                closing: Option<seq<Row>>, roster: Option<seq<string>>): RegularOutcome
    requires ValidInstant(now)
  {
    match validation
    case Err(f) => Crashed(f)
    case Ok(error) =>
      if error.Some? && error.value != [] then ValidationFailed(error.value)
      else
        match parsed
        case Err(f) => Crashed(f)
        case Ok(d) => Screen(text, d, cs, now, closing, roster)
  }

  /** The reply sent back to the operator's thread. */
  function Reply(o: RegularOutcome): (r: Option<string>)
    ensures r.Some? <==> o.ValidationFailed? || o.DuplicateFound? || o.InvalidAgent?
  {
    match o
    case ValidationFailed(e) => Some(e)
    case DuplicateFound(n) => Some("🚨 " + n + " Silakan periksa kembali.")
    case InvalidAgent(_) => Some("🚨 Kode Agen tidak valid/terdaftar.")
    case _ => None
  }

  /** The text of the exception the order raises, which the webhook reports
      to the admin. */
  function RaisedText(o: RegularOutcome, cs: string): (r: Option<string>)
    ensures r.None? <==> o.Stored?
  {
    match o
    case Crashed(f) => Some(FailureText(f))
    case ValidationFailed(e) => Some("Pesanan dari " + cs + " gagal validasi: " + e)
    case DuplicateFound(n) => Some("Pesanan duplikat terdeteksi: " + n)
    case InvalidAgent(notes) => Some("Kode agen tidak valid: " + notes)
    case Stored(_) => None
  }

  /** The record the regular pipeline works on, with the text fields it
      reads present. */
  lemma AcceptedRecord(text: string) returns (d: Record)
    requires ValidateOrderSpec(text) == Ok(None)
    ensures ParseOrderSpec(text) == Ok(d)
    ensures forall k :: k in TextDefaults ==> k in d && d[k].Str?
    ensures forall k :: k in NumericDefaults ==> k in d
  {
    ValidateOrderFails(text);
    d := ParseOrderSpec(text).value;
    ParsedFields(IsMarketplace(text), Split(text, '\n'));
  }

  /** The outcome given the two results: a non-empty error text is
      reported, an exception from either call is raised. */
  lemma GateOutcome(validation: Result<Option<string>>, parsed: Result<Record>, text: string, cs: string, now: Instant,
                    closing: Option<seq<Row>>, roster: Option<seq<string>>)
    requires ValidInstant(now)
    ensures var o := Gate(validation, parsed, text, cs, now, closing, roster);
      && (o.ValidationFailed? <==> validation.Ok? && validation.value.Some? && validation.value.value != [])
      && (o.ValidationFailed? ==> o.errors == validation.value.value)
      && (o.Crashed? <==> validation.Err? || (!o.ValidationFailed? && parsed.Err?))
  {
    if validation.Ok? && parsed.Ok? {
      ScreenOutcome(text, parsed.value, cs, now, closing, roster);
    }
  }

  /** A message validation rejects gets its error text back, and no other
      message does. */
  lemma RegularValidationFailed(text: string, cs: string, now: Instant, closing: Option<seq<Row>>, roster: Option<seq<string>>, e: string)
    requires ValidInstant(now)
    ensures RegularIntake(text, cs, now, closing, roster) == ValidationFailed(e) <==> ValidateOrderSpec(text) == Ok(Some(e))
  {
    var v := ValidateOrderSpec(text);
    if v.Ok? && v.value.Some? {
      ValidationMessageNonEmpty(text);
    }
    GateOutcome(v, ParseOrderSpec(text), text, cs, now, closing, roster);
  }

  /** The order raises only where `validate_order` itself raises: the
      second parse of an accepted message succeeds. */
  lemma RegularCrashed(text: string, cs: string, now: Instant, closing: Option<seq<Row>>, roster: Option<seq<string>>)
    requires ValidInstant(now)
    ensures RegularIntake(text, cs, now, closing, roster).Crashed? <==> ValidateOrderSpec(text).Err?
  {
    var v := ValidateOrderSpec(text);
    ValidateOrderFails(text);
    GateOutcome(v, ParseOrderSpec(text), text, cs, now, closing, roster);
  }

  /** An accepted message goes on to the later checks, on its parsed
      record. */
  lemma RegularScreened(text: string, cs: string, now: Instant, closing: Option<seq<Row>>, roster: Option<seq<string>>)
    requires ValidInstant(now) && ValidateOrderSpec(text) == Ok(None)
    ensures ParseOrderSpec(text).Ok?
    ensures RegularIntake(text, cs, now, closing, roster) == Screen(text, ParseOrderSpec(text).value, cs, now, closing, roster)
  {
    var d := AcceptedRecord(text);
    assert RegularIntake(text, cs, now, closing, roster) == Gate(Ok(None), Ok(d), text, cs, now, closing, roster);
  }

  /** The later checks, in order: the duplicate check unless the order is a
      repeat, then the agent code when the notes mention an agent; a row
      with a clock-based `INV-` id and the payment method in column 17 is
      stored exactly when both pass. */
  lemma ScreenOutcome(text: string, d: Record, cs: string, now: Instant, closing: Option<seq<Row>>, roster: Option<seq<string>>)
    requires ValidInstant(now)
    ensures var o := Screen(text, d, cs, now, closing, roster);
      var notes := TextOf(Get(d, "notes"));
      var dup := DuplicateOf(TextOf(Get(d, "no hp")), TextOf(Get(d, "alamat")), closing, now.date);
      && (o.DuplicateFound? <==> !RepeatOrder(text) && dup.Some?)
      && (o.DuplicateFound? ==> o.notice == dup.value)
      && (o.InvalidAgent? <==> (RepeatOrder(text) || dup.None?) && MentionsAgent(notes) && !IsValidAgentCode(notes, roster))
      && (o.Stored? <==> (RepeatOrder(text) || dup.None?) && (!MentionsAgent(notes) || IsValidAgentCode(notes, roster)))
      && (o.Stored? ==> o.row == ClosingRow(Str("INV-" + IntToString(now.epoch)), d, cs, now, Get(d, "pembayaran")))
      && !o.Crashed? && !o.ValidationFailed?
  {
  }

  /** A repeat order never meets the duplicate check: the Closing sheet
      does not affect its outcome. */
  lemma RepeatOrderIgnoresClosing(text: string, d: Record, cs: string, now: Instant, closing: Option<seq<Row>>, roster: Option<seq<string>>)
    requires ValidInstant(now) && RepeatOrder(text)
    ensures Screen(text, d, cs, now, closing, roster) == Screen(text, d, cs, now, None, roster)
    ensures !Screen(text, d, cs, now, closing, roster).DuplicateFound?
  {
  }

  /** No row is appended for a message that fails validation. */
  lemma StoredWasValid(text: string, cs: string, now: Instant, closing: Option<seq<Row>>, roster: Option<seq<string>>)
    requires ValidInstant(now)
    requires RegularIntake(text, cs, now, closing, roster).Stored?
    ensures ValidateOrderSpec(text) == Ok(None)
  {
    var v := ValidateOrderSpec(text);
    if v.Ok? && v.value.Some? {
      ValidationMessageNonEmpty(text);
    }
    assert RegularIntake(text, cs, now, closing, roster) == Gate(v, ParseOrderSpec(text), text, cs, now, closing, roster);
  }

  /** So a stored order mentions every required marker and its record is
      acceptable. */
  lemma StoredOrderAcceptable(text: string, cs: string, now: Instant, closing: Option<seq<Row>>, roster: Option<seq<string>>)
    requires ValidInstant(now)
    requires RegularIntake(text, cs, now, closing, roster).Stored?
    ensures forall m :: m in RequiredMarkers ==> Mentions(text, m)
    ensures ParseOrderSpec(text).Ok? && TextFieldsPresent(ParseOrderSpec(text).value) && RecordAcceptable(ParseOrderSpec(text).value)
  {
    StoredWasValid(text, cs, now, closing, roster);
    ValidateOrderAccepts(text);
  }

  // ---------------------------------------------------------------------
  // process_mp_order
  // ---------------------------------------------------------------------

  /** `result.get('order_id') or f"INV-MP-{epoch}"` */
  function MarketplaceOrderIdCell(d: Record, now: Instant): (r: Value)
    ensures r.Str? || "order_id" in d
    ensures r == d["order_id"] <== "order_id" in d && Truthy(d["order_id"])
    ensures !("order_id" in d && Truthy(d["order_id"])) ==> r == Str("INV-MP-" + IntToString(now.epoch))
  {
    if "order_id" in d && Truthy(d["order_id"]) then d["order_id"] else Str("INV-MP-" + IntToString(now.epoch))
  }

  /** `process_mp_order`: the row for the Closing MP sheet, with the
      upper-cased platform in the payment column; no validation takes
      place. */
  function MarketplaceIntake(text: string, platform: string, cs: string, now: Instant): Result<seq<Value>>
    requires ValidInstant(now)
  {
    match ParseOrderSpec(text)
    case Err(f) => Err(f)
    case Ok(d) => Ok(ClosingRow(MarketplaceOrderIdCell(d, now), d, cs, now, Str(platform)))
  }

  /** The second line of a marketplace message becomes the invoice id when
      it is not blank and no key line sets `order_id`; a blank second line
      falls back to the clock. */
  lemma MarketplaceRowId(lines: seq<string>, platform: string, cs: string, now: Instant)
    requires ValidInstant(now) && |lines| > 1
    requires NoLineWrites(LoopLines(true, lines), "order_id")
    requires ParseLines(true, lines).Ok?
    ensures var id := MarketplaceOrderIdCell(ParseLines(true, lines).value, now);
      && (Strip(lines[1]) != [] ==> id == Str(Strip(lines[1])))
      && (Strip(lines[1]) == [] ==> id == Str("INV-MP-" + IntToString(now.epoch)))
  {
    MarketplaceOrderId(lines);
  }

  // ---------------------------------------------------------------------
  // Routing in webhook_handler
  // ---------------------------------------------------------------------

  datatype Route =
    | Ignored
    | ReceiptAcknowledged
    | MarketplaceOrder(platform: string)
    | RegularOrder

  const ReceiptReply: string := "✅ Bukti transfer diterima. Kirim detail pesanan dengan format SALES yang valid."

  /** Where a message goes: only one starting with "sales" in any case is an
      order, a marketplace one when the platform header occurs anywhere in
      it; a photo whose caption mentions "transfer" is acknowledged. */
  function RouteOf(text: string, hasPhoto: bool): Route
  {
    if text == [] || !StartsWith(Lower(text), "sales") then
      if hasPhoto && Contains(Lower(text), "transfer") then ReceiptAcknowledged else Ignored
    else
      match Platform(text)
      case Some(p) => MarketplaceOrder(p)
      case None => RegularOrder
  }

  lemma RouteIsOrder(text: string, hasPhoto: bool)
    ensures (RouteOf(text, hasPhoto).MarketplaceOrder? || RouteOf(text, hasPhoto).RegularOrder?) <==> StartsWith(Lower(text), "sales")
    ensures RouteOf(text, hasPhoto).MarketplaceOrder? <==> StartsWith(Lower(text), "sales") && IsMarketplace(text)
    ensures RouteOf(text, hasPhoto).MarketplaceOrder? ==> RouteOf(text, hasPhoto).platform in Platforms
    ensures RouteOf(text, hasPhoto).ReceiptAcknowledged? ==> hasPhoto
  {
    PlatformIsKnown(text);
  }

  lemma SalesPrefix(w: string, text: string)
    requires EqualsIgnoreCase(w, SalesWord) && |w| <= |text| && text[..|w|] == w
    ensures StartsWith(Lower(text), "sales")
  {
    assert |w| == |Lower(w)| == |Lower(SalesWord)| == 5;
    assert Lower(text)[..5] == Lower(w);
    assert Lower(SalesWord) == "sales";
  }

  /** A message opening with the marketplace header, its word and its
      platform each in any case, is a marketplace order. */
  lemma HeaderRoutesToMarketplace(w: string, d: string, p: string, q: string, rest: string, hasPhoto: bool)
    requires EqualsIgnoreCase(w, SalesWord) && d != [] && AllDigits(d)
    requires q in Platforms && EqualsIgnoreCase(p, q)
    ensures RouteOf(w + " " + d + " - " + p + rest, hasPhoto).MarketplaceOrder?
  {
    var text := w + " " + d + " - " + p + rest;
    MarketplaceHeaderDetected("", w, d, p, q, rest);
    assert "" + w == w;
    assert text[..|w|] == w;
    SalesPrefix(w, text);
    RouteIsOrder(text, hasPhoto);
  }
}
