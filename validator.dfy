/** `validate_order` of app.py: the checks an ordinary order message must
    pass, collected as an ordered list of error lines. */
module Validator {
  import opened Outcomes
  import opened Text
  import opened OrderParser

  /** The labels every ordinary order must mention, in reporting order. */
  const RequiredMarkers: seq<string> :=
    ["Doorasi:", "SKU:", "Ongkir:", "Total Pembayaran:", "Nama:", "No HP:", "Alamat Jalan:", "Desa/Kelurahan:"]

  const BoxPrefix: string := "DRSBOX-"
  const SachetPrefix: string := "DRSA-"
  const PaymentMethods: seq<string> := ["COD", "TRANSFER"]

  const InvalidSku: string := "🚨 Invalid SKU format"
  const BoxMismatch: string := "🚨 Box qty mismatch"
  const SachetMismatch: string := "🚨 Sachet qty mismatch"
  const InvalidPayment: string := "🚨 Invalid payment method. Must be COD or TRANSFER."

  function MissingMessage(marker: string): string
  {
    "🚨 Missing '" + marker + "'"
  }

  /** `marker.lower() in text.lower()` */
  predicate Mentions(text: string, marker: string)
  {
    Contains(Lower(text), Lower(marker))
  }

  /** The error lines of the marker loop over `markers`, in order. */
  function MissingErrors(text: string, markers: seq<string>): (errs: seq<string>)
    ensures |errs| <= |markers|
    decreases |markers|
  {
    if |markers| == 0 then []
    else
      var last := markers[|markers| - 1];
      MissingErrors(text, markers[..|markers| - 1]) + (if Mentions(text, last) then [] else [MissingMessage(last)])
  }

  /** `sku.split("-")[1]`: the text between the first and second dash. */
  function SkuSuffix(sku: string): string
    requires '-' in sku
  {
    var parts := Split(sku, '-');
    SplitHasSecond(sku, '-');
    parts[1]
  }

  /** `int(sku.split("-")[1])`; Python raises ValueError when the suffix is
      not a decimal literal. */
  function SkuCount(sku: string): (r: Result<int>)
    requires '-' in sku
    ensures r.Ok? <==> PyInt(SkuSuffix(sku)).Some?
    ensures r.Ok? ==> r.value == PyInt(SkuSuffix(sku)).value
  {
    match PyInt(SkuSuffix(sku))
    case None => Err(ValueError("invalid literal for int() with base 10: '" + SkuSuffix(sku) + "'"))
    case Some(n) => Ok(n)
  }

  /** `data.get(key) != n`: an absent key, a text or a different number. */
  predicate Mismatch(d: Record, key: string, n: int)
  {
    key !in d || d[key] != Num(n)
  }

  /** The fields the checks read as text; the parser always supplies them. */
  predicate TextFieldsPresent(d: Record)
  {
    "sku" in d && d["sku"].Str? && "pembayaran" in d && d["pembayaran"].Str?
  }

  /** The box check and, when it does not fire, the sachet check (the
      `if … elif …` of the source). */
  function QuantityErrors(d: Record, sku: string): (r: Result<seq<string>>)
  {
    if StartsWith(sku, BoxPrefix) then
      PrefixHasDash(sku, BoxPrefix);
      match SkuCount(sku)
      case Err(f) => Err(f)
      case Ok(n) => if Mismatch(d, "qty_box", n) then Ok([BoxMismatch]) else SachetErrors(d, sku)
    else SachetErrors(d, sku)
  }

  function SachetErrors(d: Record, sku: string): (r: Result<seq<string>>)
  {
    if StartsWith(sku, SachetPrefix) then
      PrefixHasDash(sku, SachetPrefix);
      match SkuCount(sku)
      case Err(f) => Err(f)
      case Ok(n) => if Mismatch(d, "qty_sachet", n) then Ok([SachetMismatch]) else Ok([])
    else Ok([])
  }

  /** The errors about the parsed record: SKU, quantity, payment. */
  function RecordErrors(d: Record): (r: Result<seq<string>>)
    requires TextFieldsPresent(d)
  {
    var sku := d["sku"].s;
    match QuantityErrors(d, sku)
    case Err(f) => Err(f)
    case Ok(q) =>
      Ok((if sku == [] then [InvalidSku] else [])
         + q
         + (if Upper(d["pembayaran"].s) in PaymentMethods then [] else [InvalidPayment]))
  }

  /** All error lines, or the exception `parse_order` or `int()` raises. */
  function ValidationErrors(text: string): (r: Result<seq<string>>)
  {
    match ParseOrderSpec(text)
    case Err(f) => Err(f)
    case Ok(d) =>
      ParsedTextFields(text);
      match RecordErrors(d)
      case Err(f) => Err(f)
      case Ok(e) => Ok(MissingErrors(text, RequiredMarkers) + e)
  }

  /** `validate_order(text)`: None when nothing is wrong, else the error
      lines joined by newlines. */
  function ValidateOrderSpec(text: string): (r: Result<Option<string>>)
  {
    match ValidationErrors(text)
    case Err(f) => Err(f)
    case Ok(errs) => Ok(if errs == [] then None else Some(Join(errs, "\n")))
  }

  // ---------------------------------------------------------------------
  // The method
  // ---------------------------------------------------------------------

  /** The marker loop. */
  method CollectMissing(text: string, markers: seq<string>) returns (errs: seq<string>)
    ensures errs == MissingErrors(text, markers)
  {
    errs := [];
    var lowered := Lower(text);
    var i := 0;
    while i < |markers|
      invariant 0 <= i <= |markers|
      invariant errs == MissingErrors(text, markers[..i])
    {
      var s := markers[i];
      assert markers[..i + 1][..i] == markers[..i];
      if !Contains(lowered, Lower(s)) {
        errs := errs + [MissingMessage(s)];
      }
      i := i + 1;
    }
    assert markers[..i] == markers;
  }

  method ValidateOrder(text: string) returns (r: Result<Option<string>>)
    ensures r == ValidateOrderSpec(text)
  {
    var errs := CollectMissing(text, RequiredMarkers);
    var parsed := ParseOrder(text);
    if parsed.Err? {
      return Err(parsed.failure);
    }
    var data := parsed.value;
    ParsedTextFields(text);
    var rest := CheckRecord(data);
    if rest.Err? {
      return Err(rest.failure);
    }
    errs := errs + rest.value;
    r := Ok(if errs == [] then None else Some(Join(errs, "\n")));
  }

  /** The SKU, quantity and payment checks, appending as the source does. */
  method CheckRecord(data: Record) returns (r: Result<seq<string>>)
    requires TextFieldsPresent(data)
    ensures r == RecordErrors(data)
  {
    var errs: seq<string> := [];
    var sku := data["sku"].s;
    if sku == [] {
      errs := errs + [InvalidSku];
    }
    var q := QuantityCheck(data, sku);
    if q.Err? {
      assert RecordErrors(data) == Err(q.failure);
      return Err(q.failure);
    }
    errs := errs + q.value;
    if Upper(data["pembayaran"].s) !in PaymentMethods {
      errs := errs + [InvalidPayment];
    }
    assert errs == (if sku == [] then [InvalidSku] else []) + q.value
      + (if Upper(data["pembayaran"].s) in PaymentMethods then [] else [InvalidPayment]);
    r := Ok(errs);
  }

  /** The box check, then the sachet check unless the box check fired;
      the lines it adds to the error list. */
  method QuantityCheck(data: Record, sku: string) returns (r: Result<seq<string>>)
    ensures r == QuantityErrors(data, sku)
  {
    if StartsWith(sku, BoxPrefix) {
      PrefixHasDash(sku, BoxPrefix);
      var n := SkuCount(sku);
      if n.Err? {
        return Err(n.failure);
      }
      if Mismatch(data, "qty_box", n.value) {
        return Ok([BoxMismatch]);
      }
    }
    if StartsWith(sku, SachetPrefix) {
      PrefixHasDash(sku, SachetPrefix);
      var n := SkuCount(sku);
      if n.Err? {
        return Err(n.failure);
      }
      if Mismatch(data, "qty_sachet", n.value) {
        return Ok([SachetMismatch]);
      }
    }
    return Ok([]);
  }

  // ---------------------------------------------------------------------
  // Facts the definitions rely on
  // ---------------------------------------------------------------------

  lemma PrefixHasDash(sku: string, prefix: string)
    requires prefix == BoxPrefix || prefix == SachetPrefix
    requires StartsWith(sku, prefix)
    ensures '-' in sku
  {
    assert sku[|prefix| - 1] == prefix[|prefix| - 1] == '-';
  }

  /** `parse_order` always stores the SKU and the payment method as text. */
  lemma ParsedTextFields(text: string)
    requires ParseOrderSpec(text).Ok?
    ensures TextFieldsPresent(ParseOrderSpec(text).value)
  {
    LinesTextFields(IsMarketplace(text), Split(text, '\n'));
  }

  lemma LinesTextFields(isMp: bool, lines: seq<string>)
    requires ParseLines(isMp, lines).Ok?
    ensures TextFieldsPresent(ParseLines(isMp, lines).value)
  {
    ParsedFields(isMp, lines);
    SkuAndPaymentAreText();
  }

  lemma SkuAndPaymentAreText()
    ensures "sku" in TextDefaults && "pembayaran" in TextDefaults
  {
    assert TextDefaults[10] == "sku" && TextDefaults[1] == "pembayaran";
  }

  lemma PrefixesExclusive(sku: string)
    ensures !(StartsWith(sku, BoxPrefix) && StartsWith(sku, SachetPrefix))
  {
    if StartsWith(sku, BoxPrefix) {
      assert sku[3] == BoxPrefix[3] == 'B' != SachetPrefix[3];
    }
  }

  // ---------------------------------------------------------------------
  // What the checks mean
  // ---------------------------------------------------------------------

  /** The count a `PREFIX-N` SKU names is the quantity stored under `key`. */
  predicate CountAgrees(d: Record, key: string, sku: string)
    requires '-' in sku
  {
    PyInt(SkuSuffix(sku)).Some? && key in d && d[key] == Num(PyInt(SkuSuffix(sku)).value)
  }

  /** A record with nothing to report: a SKU, quantities agreeing with a
      `DRSBOX-N` or `DRSA-N` SKU, and COD or TRANSFER as payment in any case. */
  predicate RecordAcceptable(d: Record)
    requires TextFieldsPresent(d)
  {
    var sku := d["sku"].s;
    && sku != []
    && (StartsWith(sku, BoxPrefix) ==> '-' in sku && CountAgrees(d, "qty_box", sku))
    && (StartsWith(sku, SachetPrefix) ==> '-' in sku && CountAgrees(d, "qty_sachet", sku))
    && Upper(d["pembayaran"].s) in PaymentMethods
  }

  /** A `DRSBOX-`/`DRSA-` SKU whose count `int()` cannot read. */
  predicate SkuUnreadable(d: Record)
    requires TextFieldsPresent(d)
  {
    var sku := d["sku"].s;
    (StartsWith(sku, BoxPrefix) || StartsWith(sku, SachetPrefix)) && '-' in sku && PyInt(SkuSuffix(sku)).None?
  }

  lemma RecordErrorsNone(d: Record)
    requires TextFieldsPresent(d)
    ensures RecordErrors(d) == Ok([]) <==> RecordAcceptable(d)
  {
    var sku := d["sku"].s;
    PrefixesExclusive(sku);
    if StartsWith(sku, BoxPrefix) {
      PrefixHasDash(sku, BoxPrefix);
    }
    if StartsWith(sku, SachetPrefix) {
      PrefixHasDash(sku, SachetPrefix);
    }
  }

  lemma RecordErrorsFail(d: Record)
    requires TextFieldsPresent(d)
    ensures RecordErrors(d).Err? <==> SkuUnreadable(d)
  {
    var sku := d["sku"].s;
    PrefixesExclusive(sku);
    if StartsWith(sku, BoxPrefix) {
      PrefixHasDash(sku, BoxPrefix);
    }
    if StartsWith(sku, SachetPrefix) {
      PrefixHasDash(sku, SachetPrefix);
    }
  }

  /** Which record line is reported when: the SKU line for an empty SKU,
      the box line for a `DRSBOX-N` SKU whose N is not `qty_box`, the sachet
      line, when the box line did not fire, for a `DRSA-N` SKU whose N is
      not `qty_sachet`, and the payment line for anything but COD or
      TRANSFER in any case. */
  lemma RecordErrorsLines(d: Record)
    requires TextFieldsPresent(d) && RecordErrors(d).Ok?
    ensures var errs := RecordErrors(d).value; var sku := d["sku"].s;
      && (InvalidSku in errs <==> sku == [])
      && (BoxMismatch in errs <==> StartsWith(sku, BoxPrefix) && '-' in sku && !CountAgrees(d, "qty_box", sku))
      && (SachetMismatch in errs <==>
            BoxMismatch !in errs && StartsWith(sku, SachetPrefix) && '-' in sku && !CountAgrees(d, "qty_sachet", sku))
      && (InvalidPayment in errs <==> Upper(d["pembayaran"].s) !in PaymentMethods)
  {
    var sku := d["sku"].s;
    var q := QuantityErrors(d, sku).value;
    var head: seq<string> := if sku == [] then [InvalidSku] else [];
    var tail: seq<string> := if Upper(d["pembayaran"].s) in PaymentMethods then [] else [InvalidPayment];
    assert RecordErrors(d).value == head + q + tail;
    QuantityLines(d, sku);
    LinesDiffer();
    forall e ensures e in head + q + tail <==> e in head || e in q || e in tail {}
  }

  /** The quantity part reports the box line, the sachet line or nothing,
      each exactly when its check fires. */
  lemma QuantityLines(d: Record, sku: string)
    requires QuantityErrors(d, sku).Ok?
    ensures var q := QuantityErrors(d, sku).value;
      && (q == [] || q == [BoxMismatch] || q == [SachetMismatch])
      && (q == [BoxMismatch] <==> StartsWith(sku, BoxPrefix) && '-' in sku && !CountAgrees(d, "qty_box", sku))
      && (q == [SachetMismatch] <==>
            q != [BoxMismatch] && StartsWith(sku, SachetPrefix) && '-' in sku && !CountAgrees(d, "qty_sachet", sku))
  {
    PrefixesExclusive(sku);
    LinesDiffer();
    if StartsWith(sku, BoxPrefix) {
      PrefixHasDash(sku, BoxPrefix);
    }
    if StartsWith(sku, SachetPrefix) {
      PrefixHasDash(sku, SachetPrefix);
    }
  }

  lemma LinesDiffer()
    ensures InvalidSku != BoxMismatch && InvalidSku != SachetMismatch && InvalidSku != InvalidPayment
    ensures BoxMismatch != SachetMismatch && BoxMismatch != InvalidPayment && SachetMismatch != InvalidPayment
  {
    assert InvalidSku[2] == 'I' && BoxMismatch[2] == 'B' && SachetMismatch[2] == 'S' && InvalidPayment[2] == 'I';
    assert InvalidSku[10] == 'S' && InvalidPayment[10] == 'p';
  }

  /** The marker loop reports nothing exactly when every marker occurs. */
  lemma {:induction false} MissingErrorsNone(text: string, markers: seq<string>)
    ensures MissingErrors(text, markers) == [] <==> forall m :: m in markers ==> Mentions(text, m)
    decreases |markers|
  {
    if markers != [] {
      var init := markers[..|markers| - 1];
      MissingErrorsNone(text, init);
      assert forall m :: m in markers <==> m in init || m == markers[|markers| - 1];
    }
  }

  lemma MissingMessageInjective(a: string, b: string)
    requires MissingMessage(a) == MissingMessage(b)
    ensures a == b
  {
    var p := |"🚨 Missing '"|;
    assert |a| == |b|;
    assert a == MissingMessage(a)[p..p + |a|];
    assert b == MissingMessage(b)[p..p + |b|];
  }

  /** A marker is reported exactly when it is required and does not occur. */
  lemma {:induction false} MissingErrorsReport(text: string, markers: seq<string>, m: string)
    ensures MissingMessage(m) in MissingErrors(text, markers) <==> m in markers && !Mentions(text, m)
    decreases |markers|
  {
    if markers != [] {
      var init := markers[..|markers| - 1];
      var last := markers[|markers| - 1];
      MissingErrorsReport(text, init, m);
      if MissingMessage(m) == MissingMessage(last) {
        MissingMessageInjective(m, last);
      }
      assert m in markers <==> m in init || m == last;
    }
  }

  /** `validate_order` returns None exactly when every marker occurs, the
      message parses, and the record passes the SKU, quantity and payment
      checks. */
  lemma ValidateOrderAccepts(text: string)
    ensures ValidateOrderSpec(text) == Ok(None) <==>
      && (forall m :: m in RequiredMarkers ==> Mentions(text, m))
      && ParseOrderSpec(text).Ok?
      && TextFieldsPresent(ParseOrderSpec(text).value)
      && RecordAcceptable(ParseOrderSpec(text).value)
  {
    ValidationErrorsNone(text);
  }

  lemma ValidationErrorsNone(text: string)
    ensures ValidationErrors(text) == Ok([]) <==>
      && (forall m :: m in RequiredMarkers ==> Mentions(text, m))
      && ParseOrderSpec(text).Ok?
      && TextFieldsPresent(ParseOrderSpec(text).value)
      && RecordAcceptable(ParseOrderSpec(text).value)
  {
    MissingErrorsNone(text, RequiredMarkers);
    match ParseOrderSpec(text)
    case Err(_) =>
    case Ok(d) =>
      ParsedTextFields(text);
      RecordErrorsNone(d);
  }

  /** `validate_order` raises exactly when `parse_order` does or when the
      count of a `DRSBOX-`/`DRSA-` SKU is not a number. */
  lemma ValidateOrderFails(text: string)
    ensures ValidateOrderSpec(text).Err? <==>
      || ParseOrderSpec(text).Err?
      || (TextFieldsPresent(ParseOrderSpec(text).value) && SkuUnreadable(ParseOrderSpec(text).value))
  {
    if ParseOrderSpec(text).Ok? {
      ParsedTextFields(text);
      RecordErrorsFail(ParseOrderSpec(text).value);
    }
  }

  /** The place of an error line in the reporting order: missing markers,
      then the SKU, then a quantity, then the payment method. */
  function Rank(e: string): nat
  {
    if e == InvalidSku then 1
    else if e == BoxMismatch || e == SachetMismatch then 2
    else if e == InvalidPayment then 3
    else 0
  }

  predicate Ordered(errs: seq<string>)
  {
    forall i, j :: 0 <= i < j < |errs| ==> Rank(errs[i]) <= Rank(errs[j])
  }

  lemma MissingMessageRank(m: string)
    ensures Rank(MissingMessage(m)) == 0
  {
    var e := MissingMessage(m);
    assert e[2] == 'M';
    assert InvalidSku[2] == 'I' && BoxMismatch[2] == 'B' && SachetMismatch[2] == 'S' && InvalidPayment[2] == 'I';
  }

  lemma {:induction false} MissingErrorsRank(text: string, markers: seq<string>)
    ensures forall e :: e in MissingErrors(text, markers) ==> Rank(e) == 0
    decreases |markers|
  {
    if markers != [] {
      MissingErrorsRank(text, markers[..|markers| - 1]);
      MissingMessageRank(markers[|markers| - 1]);
    }
  }

  lemma RecordErrorsRank(d: Record)
    requires TextFieldsPresent(d) && RecordErrors(d).Ok?
    ensures Ordered(RecordErrors(d).value)
    ensures forall e :: e in RecordErrors(d).value ==> Rank(e) > 0
  {
    var sku := d["sku"].s;
    var q := QuantityErrors(d, sku).value;
    var a: seq<string> := if sku == [] then [InvalidSku] else [];
    var c: seq<string> := if Upper(d["pembayaran"].s) in PaymentMethods then [] else [InvalidPayment];
    assert q == [] || q == [BoxMismatch] || q == [SachetMismatch];
    assert Rank(InvalidSku) == 1 && Rank(BoxMismatch) == 2 && Rank(SachetMismatch) == 2 && Rank(InvalidPayment) == 3;
    assert RecordErrors(d).value == a + q + c;
    OrderedOfBands(a, q, c);
  }

  /** Sku errors, then quantity errors, then the payment error. */
  lemma OrderedOfBands(a: seq<string>, q: seq<string>, c: seq<string>)
    requires forall e :: e in a ==> Rank(e) == 1
    requires forall e :: e in q ==> Rank(e) == 2
    requires forall e :: e in c ==> Rank(e) == 3
    ensures Ordered(a + q + c)
    ensures forall e :: e in a + q + c ==> Rank(e) > 0
  {
    var errs := a + q + c;
    forall i | 0 <= i < |errs|
      ensures Rank(errs[i]) == if i < |a| then 1 else if i < |a| + |q| then 2 else 3
    {
      if i < |a| {
        assert errs[i] == a[i];
      } else if i < |a| + |q| {
        assert errs[i] == q[i - |a|];
      } else {
        assert errs[i] == c[i - |a| - |q|];
      }
    }
  }

  lemma OrderedAfterMissing(missing: seq<string>, rest: seq<string>)
    requires forall e :: e in missing ==> Rank(e) == 0
    requires Ordered(rest)
    ensures Ordered(missing + rest)
  {
    var errs := missing + rest;
    forall i, j | 0 <= i < j < |errs|
      ensures Rank(errs[i]) <= Rank(errs[j])
    {
      if j < |missing| {
        assert errs[i] in missing && errs[j] in missing;
      } else if i < |missing| {
        assert errs[i] in missing;
      } else {
        assert errs[i] == rest[i - |missing|] && errs[j] == rest[j - |missing|];
      }
    }
  }

  /** The error lines of a parsed message: the marker lines, then those
      about the record. */
  lemma ValidationErrorsParts(text: string) returns (d: Record)
    requires ValidationErrors(text).Ok?
    ensures ParseOrderSpec(text) == Ok(d) && TextFieldsPresent(d) && RecordErrors(d).Ok?
    ensures ValidationErrors(text).value == MissingErrors(text, RequiredMarkers) + RecordErrors(d).value
  {
    ParsedTextFields(text);
    d := ParseOrderSpec(text).value;
  }

  /** The error lines come in the reporting order. */
  lemma ValidationErrorsOrdered(text: string)
    requires ValidationErrors(text).Ok?
    ensures Ordered(ValidationErrors(text).value)
  {
    var d := ValidationErrorsParts(text);
    MissingErrorsRank(text, RequiredMarkers);
    RecordErrorsRank(d);
    OrderedAfterMissing(MissingErrors(text, RequiredMarkers), RecordErrors(d).value);
  }

  /** Every required marker the text lacks is reported, and no other. */
  lemma ValidateOrderReportsMarker(text: string, m: string)
    requires ValidationErrors(text).Ok?
    ensures MissingMessage(m) in ValidationErrors(text).value <==> m in RequiredMarkers && !Mentions(text, m)
  {
    var d := ValidationErrorsParts(text);
    RecordErrorsRank(d);
    MissingMessageRank(m);
    MissingErrorsReport(text, RequiredMarkers, m);
  }

  lemma {:induction false} MissingErrorsNonEmpty(text: string, markers: seq<string>)
    ensures forall e :: e in MissingErrors(text, markers) ==> e != []
    decreases |markers|
  {
    if markers != [] {
      MissingErrorsNonEmpty(text, markers[..|markers| - 1]);
    }
  }

  lemma ValidationErrorsNonEmpty(text: string)
    requires ValidationErrors(text).Ok?
    ensures forall e :: e in ValidationErrors(text).value ==> e != []
  {
    var d := ValidationErrorsParts(text);
    MissingErrorsNonEmpty(text, RequiredMarkers);
    RecordErrorsRank(d);
    assert Rank([]) == 0;
  }

  lemma JoinNonEmpty(parts: seq<string>, sep: string)
    requires parts != [] && parts[0] != []
    ensures Join(parts, sep) != []
  {
  }

  /** A reported error text is never empty, so the caller's `if error:`
      takes every `Some` as a failure. */
  lemma ValidationMessageNonEmpty(text: string)
    requires ValidateOrderSpec(text).Ok? && ValidateOrderSpec(text).value.Some?
    ensures ValidateOrderSpec(text).value.value != []
  {
    var errs := ValidationErrors(text).value;
    assert errs != [] && ValidateOrderSpec(text).value.value == Join(errs, "\n");
    ValidationErrorsNonEmpty(text);
    assert errs[0] in errs;
    JoinNonEmpty(errs, "\n");
  }
}
