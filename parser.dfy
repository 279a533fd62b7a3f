/** `parse_order` of app.py: the line-oriented `key: value` scanner that turns
    an order message into a record, with its marketplace mode. */
module OrderParser {
  import opened Outcomes
  import opened Text
  import opened Normalize

  /** A record value: the parser stores text, and numbers for quantities and
      amounts. */
  datatype Value = Str(s: string) | Num(n: int)

  /** The `data` dict. */
  type Record = map<string, Value>

  // ---------------------------------------------------------------------
  // Pattern helpers
  // ---------------------------------------------------------------------

  /** The first index at or after `i` that is not a digit (or `|s|`). */
  function SkipDigits(s: string, i: nat): (r: nat)
    requires i <= |s|
    ensures i <= r <= |s|
    ensures forall k :: i <= k < r ==> IsDigit(s[k])
    ensures r == |s| || !IsDigit(s[r])
    decreases |s| - i
  {
    if i < |s| && IsDigit(s[i]) then SkipDigits(s, i + 1) else i
  }

  /** `word` occurs at `i`, ignoring case. */
  predicate WordAt(s: string, i: nat, word: string)
  {
    i + |word| <= |s| && SameIgnoringCase(s[i..i + |word|], word)
  }

  predicate SameIgnoringCase(t: string, w: string)
  {
    |t| == |w| && forall k :: 0 <= k < |t| ==> LowerChar(t[k]) == LowerChar(w[k])
  }

  /** The same, as a comparison of the slice there. */
  lemma WordAtSlice(s: string, i: nat, word: string)
    requires i + |word| <= |s|
    ensures WordAt(s, i, word) <==> EqualsIgnoreCase(s[i..i + |word|], word)
  {
    var t := s[i..i + |word|];
    if WordAt(s, i, word) {
      assert forall k :: 0 <= k < |word| ==> Lower(t)[k] == LowerChar(s[i + k]);
      assert Lower(t) == Lower(word);
    }
    if EqualsIgnoreCase(t, word) {
      forall k | 0 <= k < |word|
        ensures LowerChar(s[i + k]) == LowerChar(word[k])
      {
        assert t[k] == s[i + k];
        assert Lower(t)[k] == Lower(word)[k];
      }
    }
  }

  // ---------------------------------------------------------------------
  // The marketplace header  SALES\s+\d+\s*-\s*(SHOPEE|LAZADA|TIKTOK|TIK TOK)
  // (IGNORECASE, anywhere in the text)
  // ---------------------------------------------------------------------

  const SalesWord: string := "SALES"

  const Platforms: seq<string> := ["SHOPEE", "LAZADA", "TIKTOK", "TIK TOK"]

  /** Group 1 at `i`: the first of the alternatives `alts` that occurs
      there; the text it matched is returned. */
  function PlatformAlternative(s: string, i: nat, alts: seq<string>): (r: Option<string>)
  {
    if |alts| == 0 then None
    else if WordAt(s, i, alts[0]) then Some(s[i..i + |alts[0]|])
    else PlatformAlternative(s, i, alts[1..])
  }

  /** The header match starting at `i`, as the text of group 1. Each of the
      greedy runs (`\s+`, `\d+`, `\s*`) is followed by a character it cannot
      contain, so none of them gives back anything on backtracking. */
  function HeaderAt(s: string, i: nat): (r: Option<string>)
    requires i <= |s|
  {
    if !WordAt(s, i, SalesWord) then None else AfterSales(s, i + |SalesWord|)
  }

  /** The rest of the header after the word: `\s+\d+`, then the dash. */
  function AfterSales(s: string, a: nat): (r: Option<string>)
    requires a <= |s|
  {
    var b := SkipSpace(s, a);
    var c := SkipDigits(s, b);
    if b == a || c == b then None else AfterNumber(s, c)
  }

  /** The rest of the header after the number: `\s*-\s*`, then group 1. */
  function AfterNumber(s: string, c: nat): (r: Option<string>)
    requires c <= |s|
  {
    var d := SkipSpace(s, c);
    if d == |s| || s[d] != '-' then None else PlatformAlternative(s, SkipSpace(s, d + 1), Platforms)
  }

  /** `re.search`: group 1 of the leftmost header at or after `i`. */
  function FindHeader(s: string, i: nat): (r: Option<string>)
    requires i <= |s|
    decreases |s| - i
  {
    if i == |s| then None
    else
      match HeaderAt(s, i)
      case Some(g) => Some(g)
      case None => FindHeader(s, i + 1)
  }

  /** `platform_match.group(1).upper()`, or `None` when the message has no
      marketplace header. */
  function Platform(text: string): Option<string>
  {
    match FindHeader(text, 0)
    case Some(g) => Some(Upper(g))
    case None => None
  }

  predicate IsMarketplace(text: string)
  {
    FindHeader(text, 0).Some?
  }

  // ---------------------------------------------------------------------
  // Quantities:  (\d+)\s+Box  and  (\d+)\s+Sachet  (IGNORECASE)
  // ---------------------------------------------------------------------

  /** The count pattern at `i`: the digits from `i`, at least one space, then
      `unit`. */
  function CountAt(s: string, i: nat, unit: string): (r: Option<nat>)
    requires i <= |s|
  {
    var e := SkipDigits(s, i);
    var w := SkipSpace(s, e);
    if e > i && w > e && WordAt(s, w, unit) then Some(DigitsValue(s[i..e])) else None
  }

  /** `re.search`: the leftmost count at or after `i`. */
  function FindCount(s: string, i: nat, unit: string): (r: Option<nat>)
    requires i <= |s|
    decreases |s| - i
  {
    if i == |s| then None
    else
      match CountAt(s, i, unit)
      case Some(n) => Some(n)
      case None => FindCount(s, i + 1, unit)
  }

  /** `int(m.group(1)) if (m := re.search(...)) else 0` */
  function Quantity(val: string, unit: string): nat
  {
    match FindCount(val, 0, unit)
    case Some(n) => n
    case None => 0
  }

  // ---------------------------------------------------------------------
  // Key lines
  // ---------------------------------------------------------------------

  predicate IsBlank(line: string) { Strip(line) == [] }

  predicate IsKeyLine(line: string) { !IsBlank(line) && ':' in line }

  /** The key of `key: value`, stripped and lower-cased. */
  function KeyOf(line: string): string
    requires ':' in line
  {
    Lower(Strip(SplitFirst(line, ':')[0]))
  }

  /** The value of `key: value`, stripped; it may itself contain `:`. */
  function ValOf(line: string): string
    requires ':' in line
  {
    Strip(SplitFirst(line, ':')[1])
  }

  /** The record fields a line with key `key` writes. */
  function Targets(key: string): set<string>
  {
    if key == "doorasi" then {"qty_box", "qty_sachet", "price"}
    else if key == "total pembayaran" || key == "ongkir" then {key}
    else if key == "ekspedisi" then {"ekspedisi", "pembayaran"}
    else if key == "no hp" then {key}
    else if key == "alamat jalan" then {"alamat"}
    else if key == "desa/kelurahan" then {"kelurahan"}
    else if key == "kab/kota" then {"kota/kab"}
    else {key}
  }

  /** The fields that can hold a number. */
  const NumericFields: set<string> := {"qty_box", "qty_sachet", "price", "total pembayaran", "ongkir"}

  /** The entries the line `key: val` writes into the record; reading an
      amount can fail as `get_num` does. */
  function Fields(key: string, val: string): (r: Result<Record>)
    ensures r.Ok? ==> r.value.Keys == Targets(key)
    ensures r.Ok? ==> forall k :: k in r.value && r.value[k].Num? ==> k in NumericFields
    ensures r.Err? ==> key == "doorasi" || key == "total pembayaran" || key == "ongkir"
  {
    if key == "doorasi" then DoorasiFields(val)
    else if key == "total pembayaran" || key == "ongkir" then AmountField(key, val)
    else if key == "ekspedisi" then Ok(ShippingEntries(Expedition(val), Payment(val)))
    else Ok(TextField(key, val))
  }

  /** `doorasi: …`: the box and sachet counts and the price. */
  function DoorasiFields(val: string): (r: Result<Record>)
    ensures r.Ok? ==> r.value.Keys == {"qty_box", "qty_sachet", "price"}
  {
    match GetNum(val)
    case Err(f) => Err(f)
    case Ok(price) => Ok(CountEntries(Quantity(val, "Box"), Quantity(val, "Sachet"), price))
  }

  function CountEntries(box: nat, sachet: nat, price: nat): (r: Record)
    ensures r.Keys == {"qty_box", "qty_sachet", "price"}
    ensures forall k :: k in r ==> r[k].Num?
  {
    map["qty_box" := Num(box), "qty_sachet" := Num(sachet), "price" := Num(price)]
  }

  /** `total pembayaran: …` and `ongkir: …`: an amount. */
  function AmountField(key: string, val: string): (r: Result<Record>)
    ensures r.Ok? ==> r.value.Keys == {key}
  {
    match GetNum(val)
    case Err(f) => Err(f)
    case Ok(n) => Ok(map[key := Num(n)])
  }

  /** The expedition of `ekspedisi: name - payment`: the text before the
      first dash, stripped, through `SHIP_LOOKUP`. */
  function Expedition(val: string): string
  {
    CanonicalExpedition(Strip(SplitFirst(val, '-')[0]))
  }

  /** The payment method of `ekspedisi: name - payment`: the text after the
      first dash, stripped, or `-` when there is no dash. */
  function Payment(val: string): string
  {
    var parts := SplitFirst(val, '-');
    if |parts| > 1 then Strip(parts[1]) else "-"
  }

  function ShippingEntries(expedition: string, payment: string): (r: Record)
    ensures r.Keys == {"ekspedisi", "pembayaran"}
    ensures forall k :: k in r ==> r[k].Str?
  {
    map["ekspedisi" := Str(expedition), "pembayaran" := Str(payment)]
  }

  /** The keys stored as text: `no hp` normalised, the three address keys
      renamed, and `sku`, `nama`, `kecamatan`, `kode pos` and every other
      key as written under its own name. */
  function TextField(key: string, val: string): (r: Record)
    requires key != "doorasi" && key != "total pembayaran" && key != "ongkir" && key != "ekspedisi"
    ensures r.Keys == Targets(key)
    ensures forall k :: k in r ==> r[k].Str?
  {
    if key == "no hp" then map["no hp" := Str(FormatPhone(val))]
    else if key == "alamat jalan" then map["alamat" := Str(val)]
    else if key == "desa/kelurahan" then map["kelurahan" := Str(val)]
    else if key == "kab/kota" then map["kota/kab" := Str(val)]
    else map[key := Str(val)]
  }

  // ---------------------------------------------------------------------
  // The scan
  // ---------------------------------------------------------------------

  /** The keys whose following lines continue the value. */
  const ContinuationKeys: set<string> := {"alamat jalan", "desa/kelurahan", "kecamatan", "kab/kota"}

  /** The loop's variables: `data`, `current_key` and `notes_lines`. */
  datatype ParseState = ParseState(data: Record, currentKey: string, notes: seq<string>)

  /** One pass of the line loop. A line without `:` continues the value of
      the current key when that key is a continuation key: `data[key] +=`
      on the key as written, which raises KeyError when that key is not in
      the record and TypeError when it holds a number. Any other such line
      is a note. */
  function Step(st: ParseState, line: string): (r: Result<ParseState>)
  {
    if IsBlank(line) then Ok(st)
    else if ':' in line then
      var key := KeyOf(line);
      match Fields(key, ValOf(line))
      case Err(f) => Err(f)
      case Ok(f) => Ok(ParseState(st.data + f, key, st.notes))
    else if st.currentKey in ContinuationKeys then
      if st.currentKey !in st.data then Err(KeyError(st.currentKey))
      else
        match st.data[st.currentKey]
        case Num(_) => Err(TypeError("unsupported operand type(s) for +=: 'int' and 'str'"))
        case Str(v) => Ok(st.(data := st.data[st.currentKey := Str(v + "\n" + Strip(line))]))
    else Ok(st.(notes := st.notes + [Strip(line)]))
  }

  /** The loop over `lines`, stopping at the first exception. */
  function Scan(st: ParseState, lines: seq<string>): (r: Result<ParseState>)
    decreases |lines|
  {
    if |lines| == 0 then Ok(st)
    else
      match Step(st, lines[0])
      case Err(f) => Err(f)
      case Ok(st') => Scan(st', lines[1..])
  }

  /** The lines the loop sees, given whether the text is a marketplace
      order and its lines: in marketplace mode with more than one line,
      line 1 is popped. */
  function LoopLines(isMarketplace: bool, lines: seq<string>): seq<string>
  {
    if isMarketplace && |lines| > 1 then lines[..1] + lines[2..] else lines
  }

  /** The record before the loop: in marketplace mode with more than one
      line, line 1, stripped, is the order id. */
  function InitialRecord(isMarketplace: bool, lines: seq<string>): Record
  {
    if isMarketplace && |lines| > 1 then map["order_id" := Str(Strip(lines[1]))] else map[]
  }

  const NumericDefaults: seq<string> := ["qty_box", "qty_sachet", "total pembayaran", "ongkir"]

  const TextDefaults: seq<string> :=
    ["ekspedisi", "pembayaran", "kelurahan", "kecamatan", "kota/kab", "kode pos", "notes",
     "nama", "no hp", "alamat", "sku"]

  /** `data.setdefault(k, v)` */
  function SetDefault(data: Record, k: string, v: Value): Record
  {
    if k in data then data else data[k := v]
  }

  /** `for k in keys: data.setdefault(k, v)` */
  function SetDefaults(data: Record, keys: seq<string>, v: Value): (r: Record)
    ensures forall k :: k in r <==> k in data || k in keys
    ensures forall k :: k in data ==> r[k] == data[k]
    ensures forall k :: k in r && k !in data ==> r[k] == v
    decreases |keys|
  {
    if |keys| == 0 then data else SetDefaults(SetDefault(data, keys[0], v), keys[1..], v)
  }

  /** After the loop, outside marketplace mode, the notes overwrite `notes`
      when there are any. */
  function WithNotes(st: ParseState, isMarketplace: bool): Record
  {
    if !isMarketplace && st.notes != [] then st.data["notes" := Str(Join(st.notes, "\n"))] else st.data
  }

  /** The two `setdefault` loops. */
  function WithDefaults(data: Record): Record
  {
    SetDefaults(SetDefaults(data, NumericDefaults, Num(0)), TextDefaults, Str(""))
  }

  /** `parse_order` on the lines of a text, given whether its header is a
      marketplace header; `Err` where it raises. */
  function ParseLines(isMarketplace: bool, lines: seq<string>): Result<Record>
  {
    match Scan(ParseState(InitialRecord(isMarketplace, lines), "", []), LoopLines(isMarketplace, lines))
    case Err(f) => Err(f)
    case Ok(st) => Ok(WithDefaults(WithNotes(st, isMarketplace)))
  }

  /** `parse_order(text)`. */
  function ParseOrderSpec(text: string): Result<Record>
  {
    ParseLines(IsMarketplace(text), Split(text, '\n'))
  }

  /** `parse_order(text)`, as the loops the source runs. */
  method ParseOrder(text: string) returns (r: Result<Record>)
    ensures r == ParseOrderSpec(text)
  {
    var all := Split(text, '\n');
    var isMp := FindHeader(text, 0).Some?;
    r := ParseSplitLines(isMp, all);
  }

  /** The body of `parse_order` after the split and the header search. */
  method ParseSplitLines(isMp: bool, all: seq<string>) returns (r: Result<Record>)
    ensures r == ParseLines(isMp, all)
  {
    var lines := all;
    var data: Record := map[];
    if isMp && |all| > 1 {
      data := data["order_id" := Str(Strip(all[1]))];
      lines := all[..1] + all[2..];
    }
    assert lines == LoopLines(isMp, all) && data == InitialRecord(isMp, all);
    var st := ScanLines(data, lines);
    if st.Err? {
      ParseLinesErr(isMp, all, st.failure);
      return Err(st.failure);
    }
    data := st.value.data;
    if !isMp && st.value.notes != [] {
      data := data["notes" := Str(Join(st.value.notes, "\n"))];
    }
    assert data == WithNotes(st.value, isMp);
    data := FillDefaults(data, NumericDefaults, Num(0));
    data := FillDefaults(data, TextDefaults, Str(""));
    ParseLinesOk(isMp, all, st.value);
    r := Ok(data);
  }

  /** `parse_order` raises what the loop raises. */
  lemma ParseLinesErr(isMp: bool, lines: seq<string>, f: Failure)
    requires Scan(ParseState(InitialRecord(isMp, lines), "", []), LoopLines(isMp, lines)) == Err(f)
    ensures ParseLines(isMp, lines) == Err(f)
  {
  }

  /** Otherwise it returns the loop's record with the notes and defaults. */
  lemma ParseLinesOk(isMp: bool, lines: seq<string>, st: ParseState)
    requires Scan(ParseState(InitialRecord(isMp, lines), "", []), LoopLines(isMp, lines)) == Ok(st)
    ensures ParseLines(isMp, lines) == Ok(WithDefaults(WithNotes(st, isMp)))
  {
  }

  /** The line loop, from an empty current key and no notes. */
  method ScanLines(data0: Record, lines: seq<string>) returns (r: Result<ParseState>)
    ensures r == Scan(ParseState(data0, "", []), lines)
  {
    var data := data0;
    var currentKey := "";
    var notesLines: seq<string> := [];
    var i := 0;
    while i < |lines|
      invariant 0 <= i <= |lines|
      invariant Scan(ParseState(data0, "", []), lines) == Scan(ParseState(data, currentKey, notesLines), lines[i..])
    {
      var line := lines[i];
      assert lines[i..][0] == line && lines[i..][1..] == lines[i + 1..];
      if IsBlank(line) {
      } else if ':' in line {
        var key := KeyOf(line);
        currentKey := key;
        var f := Fields(key, ValOf(line));
        if f.Err? {
          return Err(f.failure);
        }
        data := data + f.value;
      } else if currentKey in ContinuationKeys {
        if currentKey !in data {
          return Err(KeyError(currentKey));
        }
        match data[currentKey]
        case Num(_) =>
          return Err(TypeError("unsupported operand type(s) for +=: 'int' and 'str'"));
        case Str(v) =>
          data := data[currentKey := Str(v + "\n" + Strip(line))];
      } else {
        notesLines := notesLines + [Strip(line)];
      }
      i := i + 1;
    }
    r := Ok(ParseState(data, currentKey, notesLines));
  }

  /** `for k in keys: data.setdefault(k, v)`, as a loop. */
  method FillDefaults(data0: Record, keys: seq<string>, v: Value) returns (data: Record)
    ensures data == SetDefaults(data0, keys, v)
  {
    data := data0;
    var j := 0;
    while j < |keys|
      invariant 0 <= j <= |keys|
      invariant SetDefaults(data0, keys, v) == SetDefaults(data, keys[j..], v)
    {
      assert keys[j..][0] == keys[j] && keys[j..][1..] == keys[j + 1..];
      if keys[j] !in data {
        data := data[keys[j] := v];
      }
      j := j + 1;
    }
  }

  // ---------------------------------------------------------------------
  // Properties of the scan
  // ---------------------------------------------------------------------

  /** No key line among `lines` writes the field `k`. */
  predicate NoLineWrites(lines: seq<string>, k: string)
  {
    forall i :: 0 <= i < |lines| && IsKeyLine(lines[i]) ==> k !in Targets(KeyOf(lines[i]))
  }

  lemma NoLineWritesTail(lines: seq<string>, k: string)
    requires lines != [] && NoLineWrites(lines, k)
    ensures NoLineWrites(lines[1..], k)
    ensures IsKeyLine(lines[0]) ==> k !in Targets(KeyOf(lines[0]))
  {
    forall i | 0 <= i < |lines[1..]| && IsKeyLine(lines[1..][i])
      ensures k !in Targets(KeyOf(lines[1..][i]))
    {
      assert lines[1..][i] == lines[i + 1];
    }
  }

  /** What one line changes in the record: a key line adds the entries of
      its fields, a continuation line replaces the current key's entry, and
      any other line changes nothing. */
  lemma StepData(st: ParseState, line: string)
    requires Step(st, line).Ok?
    ensures var d := Step(st, line).value.data;
      || d == st.data
      || (IsKeyLine(line) && Fields(KeyOf(line), ValOf(line)).Ok?
          && d == st.data + Fields(KeyOf(line), ValOf(line)).value)
      || (st.currentKey in ContinuationKeys && st.currentKey in st.data && st.data[st.currentKey].Str?
          && d == st.data[st.currentKey := Str(st.data[st.currentKey].s + "\n" + Strip(line))])
  {
  }

  /** A field no key line writes keeps what it had before the loop (a
      continuation line can only extend a field that is already there). */
  lemma {:induction false} ScanUnwritten(st: ParseState, lines: seq<string>, k: string)
    requires NoLineWrites(lines, k)
    requires k !in ContinuationKeys || k !in st.data
    requires Scan(st, lines).Ok?
    ensures k in Scan(st, lines).value.data <==> k in st.data
    ensures k in st.data ==> Scan(st, lines).value.data[k] == st.data[k]
    decreases |lines|
  {
    if lines != [] {
      var next := Step(st, lines[0]).value;
      NoLineWritesTail(lines, k);
      StepData(st, lines[0]);
      ScanUnwritten(next, lines[1..], k);
    }
  }

  /** Only the amount and count fields ever hold a number. */
  predicate NumbersOnlyInNumericFields(data: Record)
  {
    forall k :: k in data && data[k].Num? ==> k in NumericFields
  }

  lemma MergeKeepsNumbers(d: Record, f: Record)
    requires NumbersOnlyInNumericFields(d) && NumbersOnlyInNumericFields(f)
    ensures NumbersOnlyInNumericFields(d + f)
  {
  }

  lemma {:induction false} ScanKeepsNumbersInNumericFields(st: ParseState, lines: seq<string>)
    requires NumbersOnlyInNumericFields(st.data)
    requires Scan(st, lines).Ok?
    ensures NumbersOnlyInNumericFields(Scan(st, lines).value.data)
    decreases |lines|
  {
    if lines != [] {
      StepData(st, lines[0]);
      if IsKeyLine(lines[0]) && Fields(KeyOf(lines[0]), ValOf(lines[0])).Ok? {
        MergeKeepsNumbers(st.data, Fields(KeyOf(lines[0]), ValOf(lines[0])).value);
      }
      ScanKeepsNumbersInNumericFields(Step(st, lines[0]).value, lines[1..]);
    }
  }

  lemma TextDefaultsNotNumeric()
    ensures forall k :: k in TextDefaults ==> k !in NumericFields && k !in NumericDefaults
    ensures "notes" !in NumericFields && "notes" !in NumericDefaults
  {
  }

  /** The record `parse_order` returns, in terms of the loop's final state. */
  lemma ParseLinesResult(isMp: bool, lines: seq<string>) returns (st: ParseState)
    requires ParseLines(isMp, lines).Ok?
    ensures Scan(ParseState(InitialRecord(isMp, lines), "", []), LoopLines(isMp, lines)) == Ok(st)
    ensures ParseLines(isMp, lines).value == WithDefaults(WithNotes(st, isMp))
  {
    st := Scan(ParseState(InitialRecord(isMp, lines), "", []), LoopLines(isMp, lines)).value;
  }

  /** The defaults fill in each missing default key and leave every other
      entry alone. */
  lemma WithDefaultsEntries(d: Record)
    ensures forall k :: k in WithDefaults(d) <==> k in d || k in NumericDefaults || k in TextDefaults
    ensures forall k :: k in d ==> WithDefaults(d)[k] == d[k]
    ensures forall k :: k in NumericDefaults && k !in d ==> WithDefaults(d)[k] == Num(0)
    ensures forall k :: k in TextDefaults && k !in d ==> WithDefaults(d)[k] == Str("")
  {
    TextDefaultsNotNumeric();
  }

  /** Over a record whose numbers sit only in the numeric fields, the
      defaults leave every default key present and every text default
      holding text. */
  lemma DefaultsOverText(d: Record)
    requires NumbersOnlyInNumericFields(d)
    ensures forall k :: k in NumericDefaults ==> k in WithDefaults(d)
    ensures forall k :: k in TextDefaults ==> k in WithDefaults(d) && WithDefaults(d)[k].Str?
  {
    WithDefaultsEntries(d);
    TextDefaultsNotNumeric();
    forall k | k in TextDefaults
      ensures k in WithDefaults(d) && WithDefaults(d)[k].Str?
    {
      if k in d {
        assert k !in NumericFields;
        assert WithDefaults(d)[k] == d[k];
      }
    }
  }

  /** The loop, and the notes after it, put numbers only in the numeric
      fields. */
  lemma LoopKeepsNumbers(isMp: bool, lines: seq<string>, st: ParseState)
    requires Scan(ParseState(InitialRecord(isMp, lines), "", []), LoopLines(isMp, lines)) == Ok(st)
    ensures NumbersOnlyInNumericFields(WithNotes(st, isMp))
  {
    ScanKeepsNumbersInNumericFields(ParseState(InitialRecord(isMp, lines), "", []), LoopLines(isMp, lines));
    TextDefaultsNotNumeric();
  }

  /** Every default key is present after parsing, and the eleven text
      fields always hold text (`validate_order` calls `.upper()` and
      `.startswith` on them). */
  lemma ParsedFields(isMp: bool, lines: seq<string>)
    requires ParseLines(isMp, lines).Ok?
    ensures forall k :: k in NumericDefaults ==> k in ParseLines(isMp, lines).value
    ensures forall k :: k in TextDefaults ==> k in ParseLines(isMp, lines).value && ParseLines(isMp, lines).value[k].Str?
  {
    var st := ParseLinesResult(isMp, lines);
    LoopKeepsNumbers(isMp, lines, st);
    DefaultsOverText(WithNotes(st, isMp));
  }

  /** A field that no line writes and that the record does not start with
      is absent after the loop. */
  lemma LoopUnwritten(isMp: bool, lines: seq<string>, st: ParseState, k: string)
    requires Scan(ParseState(InitialRecord(isMp, lines), "", []), LoopLines(isMp, lines)) == Ok(st)
    requires NoLineWrites(LoopLines(isMp, lines), k) && k != "order_id"
    ensures k !in st.data
  {
    var init := InitialRecord(isMp, lines);
    assert k !in init;
    ScanUnwritten(ParseState(InitialRecord(isMp, lines), "", []), LoopLines(isMp, lines), k);
  }

  /** A numeric field that no line writes is 0. */
  lemma NumericFieldDefault(isMp: bool, lines: seq<string>, k: string)
    requires k in NumericDefaults && NoLineWrites(LoopLines(isMp, lines), k)
    requires ParseLines(isMp, lines).Ok?
    ensures k in ParseLines(isMp, lines).value && ParseLines(isMp, lines).value[k] == Num(0)
  {
    var st := ParseLinesResult(isMp, lines);
    OrderIdNotDefault();
    TextDefaultsNotNumeric();
    LoopUnwritten(isMp, lines, st, k);
    WithDefaultsEntries(WithNotes(st, isMp));
  }

  /** A text field that no line writes is empty. For `notes` this holds in
      marketplace mode: there the free-text lines are dropped, and only a
      `notes:` key line sets the field. */
  lemma TextFieldDefault(isMp: bool, lines: seq<string>, k: string)
    requires k in TextDefaults && NoLineWrites(LoopLines(isMp, lines), k)
    requires k != "notes" || isMp
    requires ParseLines(isMp, lines).Ok?
    ensures k in ParseLines(isMp, lines).value && ParseLines(isMp, lines).value[k] == Str("")
  {
    var st := ParseLinesResult(isMp, lines);
    OrderIdNotDefault();
    TextDefaultsNotNumeric();
    LoopUnwritten(isMp, lines, st, k);
    WithDefaultsEntries(WithNotes(st, isMp));
  }

  /** The order id is neither a default nor a continuation key. */
  lemma OrderIdNotDefault()
    ensures "order_id" !in ContinuationKeys
    ensures "order_id" !in NumericDefaults && "order_id" !in TextDefaults
  {
  }

  /** In marketplace mode with at least two lines, the order id is the
      second line, stripped, unless a later `order_id:` line overwrites it. */
  lemma MarketplaceOrderId(lines: seq<string>)
    requires |lines| > 1
    requires NoLineWrites(LoopLines(true, lines), "order_id")
    requires ParseLines(true, lines).Ok?
    ensures "order_id" in ParseLines(true, lines).value
    ensures ParseLines(true, lines).value["order_id"] == Str(Strip(lines[1]))
  {
    var st := ParseLinesResult(true, lines);
    var init := InitialRecord(true, lines);
    OrderIdNotDefault();
    ScanUnwritten(ParseState(init, "", []), LoopLines(true, lines), "order_id");
    WithDefaultsEntries(st.data);
  }

  // ---------------------------------------------------------------------
  // Line one in marketplace mode
  // ---------------------------------------------------------------------

  /** Two records hold the same entries on every key but `k0`. */
  ghost predicate AgreeOff(d1: Record, d2: Record, k0: string)
  {
    forall k :: k != k0 ==> (k in d1 <==> k in d2) && (k in d1 ==> d1[k] == d2[k])
  }

  /** One line does the same to two states whose records differ only in
      the order id. */
  lemma StepAgrees(st1: ParseState, st2: ParseState, line: string)
    requires st1.currentKey == st2.currentKey && st1.notes == st2.notes
    requires AgreeOff(st1.data, st2.data, "order_id")
    ensures Step(st1, line).Ok? <==> Step(st2, line).Ok?
    ensures Step(st1, line).Err? ==> Step(st1, line) == Step(st2, line)
    ensures Step(st1, line).Ok? ==>
      var n1 := Step(st1, line).value; var n2 := Step(st2, line).value;
      n1.currentKey == n2.currentKey && n1.notes == n2.notes && AgreeOff(n1.data, n2.data, "order_id")
  {
    if IsBlank(line) {
    } else if ':' in line {
      var f := Fields(KeyOf(line), ValOf(line));
      if f.Ok? {
        MergeAgrees(st1.data, st2.data, f.value);
      }
    } else if st1.currentKey in ContinuationKeys {
      OrderIdNotDefault();
      assert st1.currentKey != "order_id";
    }
  }

  lemma MergeAgrees(d1: Record, d2: Record, f: Record)
    requires AgreeOff(d1, d2, "order_id")
    ensures AgreeOff(d1 + f, d2 + f, "order_id")
  {
  }

  lemma {:induction false} ScanAgrees(st1: ParseState, st2: ParseState, lines: seq<string>)
    requires st1.currentKey == st2.currentKey && st1.notes == st2.notes
    requires AgreeOff(st1.data, st2.data, "order_id")
    ensures Scan(st1, lines).Ok? <==> Scan(st2, lines).Ok?
    ensures Scan(st1, lines).Err? ==> Scan(st1, lines) == Scan(st2, lines)
    ensures Scan(st1, lines).Ok? ==>
      var n1 := Scan(st1, lines).value; var n2 := Scan(st2, lines).value;
      n1.notes == n2.notes && AgreeOff(n1.data, n2.data, "order_id")
    decreases |lines|
  {
    if lines != [] {
      StepAgrees(st1, st2, lines[0]);
      if Step(st1, lines[0]).Ok? {
        ScanAgrees(Step(st1, lines[0]).value, Step(st2, lines[0]).value, lines[1..]);
      }
    }
  }

  /** The defaults keep two records' agreement off the order id. */
  lemma WithDefaultsAgree(d1: Record, d2: Record)
    requires AgreeOff(d1, d2, "order_id")
    ensures AgreeOff(WithDefaults(d1), WithDefaults(d2), "order_id")
  {
    SetDefaultsAgree(d1, d2, NumericDefaults, Num(0));
    SetDefaultsAgree(SetDefaults(d1, NumericDefaults, Num(0)), SetDefaults(d2, NumericDefaults, Num(0)), TextDefaults, Str(""));
  }

  lemma SetDefaultsAgree(d1: Record, d2: Record, keys: seq<string>, v: Value)
    requires AgreeOff(d1, d2, "order_id")
    ensures AgreeOff(SetDefaults(d1, keys, v), SetDefaults(d2, keys, v), "order_id")
  {
  }

  /** The loop from two records that agree off the order id. */
  lemma ScanFromAgreeing(init1: Record, init2: Record, lines: seq<string>)
    requires AgreeOff(init1, init2, "order_id")
    ensures
      var r1 := Scan(ParseState(init1, "", []), lines);
      var r2 := Scan(ParseState(init2, "", []), lines);
      (r1.Err? ==> r2 == r1) && (r1.Ok? ==> r2.Ok? && r1.value.notes == r2.value.notes
                                             && AgreeOff(r1.value.data, r2.value.data, "order_id"))
  {
    ScanAgrees(ParseState(init1, "", []), ParseState(init2, "", []), lines);
  }

  /** The loop over two marketplace texts that differ only in line 1 runs
      over the same lines from records that agree off the order id. */
  lemma LineOneScans(lines1: seq<string>, lines2: seq<string>)
    requires |lines1| > 1 && |lines2| > 1
    requires lines1[0] == lines2[0] && lines1[2..] == lines2[2..]
    ensures
      var r1 := Scan(ParseState(InitialRecord(true, lines1), "", []), LoopLines(true, lines1));
      var r2 := Scan(ParseState(InitialRecord(true, lines2), "", []), LoopLines(true, lines2));
      (r1.Err? ==> r2 == r1) && (r1.Ok? ==> r2.Ok? && r1.value.notes == r2.value.notes
                                             && AgreeOff(r1.value.data, r2.value.data, "order_id"))
  {
    LineOneInputs(lines1, lines2);
    ScanFromAgreeing(InitialRecord(true, lines1), InitialRecord(true, lines2), LoopLines(true, lines1));
  }

  lemma LineOneInputs(lines1: seq<string>, lines2: seq<string>)
    requires |lines1| > 1 && |lines2| > 1
    requires lines1[0] == lines2[0] && lines1[2..] == lines2[2..]
    ensures LoopLines(true, lines1) == LoopLines(true, lines2)
    ensures AgreeOff(InitialRecord(true, lines1), InitialRecord(true, lines2), "order_id")
  {
    SameLoopLines(lines1, lines2);
    OrderIdRecordsAgree(Strip(lines1[1]), Strip(lines2[1]));
  }

  lemma SameLoopLines(lines1: seq<string>, lines2: seq<string>)
    requires |lines1| > 1 && |lines2| > 1
    requires lines1[0] == lines2[0] && lines1[2..] == lines2[2..]
    ensures lines1[..1] + lines1[2..] == lines2[..1] + lines2[2..]
  {
    assert lines1[..1] == lines2[..1];
  }

  lemma OrderIdRecordsAgree(a: string, b: string)
    ensures AgreeOff(map["order_id" := Str(a)], map["order_id" := Str(b)], "order_id")
  {
  }

  /** In marketplace mode, line 1 feeds the order id and nothing else: a
      text that parses gives a record that agrees on every other field with
      that of any text differing from it only in that line... */
  lemma MarketplaceLineOneIgnored(lines1: seq<string>, lines2: seq<string>)
    requires |lines1| > 1 && |lines2| > 1
    requires lines1[0] == lines2[0] && lines1[2..] == lines2[2..]
    requires ParseLines(true, lines1).Ok?
    ensures ParseLines(true, lines2).Ok?
    ensures AgreeOff(ParseLines(true, lines1).value, ParseLines(true, lines2).value, "order_id")
  {
    LineOneScans(lines1, lines2);
    var n1 := ParseLinesResult(true, lines1);
    var n2 := Scan(ParseState(InitialRecord(true, lines2), "", []), LoopLines(true, lines2)).value;
    ParseLinesOk(true, lines2, n2);
    WithDefaultsAgree(n1.data, n2.data);
  }

  /** ... and a text that fails makes every such text fail the same way. */
  lemma MarketplaceLineOneFails(lines1: seq<string>, lines2: seq<string>)
    requires |lines1| > 1 && |lines2| > 1
    requires lines1[0] == lines2[0] && lines1[2..] == lines2[2..]
    requires ParseLines(true, lines1).Err?
    ensures ParseLines(true, lines2) == ParseLines(true, lines1)
  {
    LineOneScans(lines1, lines2);
  }

  // ---------------------------------------------------------------------
  // Line-level properties
  // ---------------------------------------------------------------------

  /** `key: val` splits back into its stripped, lower-cased key and its
      stripped value. */
  lemma KeyLineParts(key: string, val: string)
    requires ':' !in key
    ensures ':' in key + ":" + val
    ensures KeyOf(key + ":" + val) == Lower(Strip(key))
    ensures ValOf(key + ":" + val) == Strip(val)
  {
    SplitFirstAt(key, ':', val);
  }

  /** `ekspedisi: name - payment` splits at the first dash: the name goes
      through the lookup and the rest, stripped, is the payment method. */
  lemma ShippingWithDash(name: string, rest: string)
    requires '-' !in name
    ensures Expedition(name + "-" + rest) == CanonicalExpedition(Strip(name))
    ensures Payment(name + "-" + rest) == Strip(rest)
  {
    SplitFirstAt(name, '-', rest);
  }

  /** Without a dash the whole value is the name and the payment is `-`. */
  lemma ShippingWithoutDash(val: string)
    requires '-' !in val
    ensures Expedition(val) == CanonicalExpedition(Strip(val))
    ensures Payment(val) == "-"
  {
  }

  /** No count starts at a character that is not a digit. */
  lemma CountAtNonDigit(s: string, i: nat, unit: string)
    requires i < |s| && !IsDigit(s[i])
    ensures CountAt(s, i, unit) == None
  {
    assert SkipDigits(s, i) == i;
  }

  /** Before the first digit of the text there is no count. */
  lemma {:induction false} FindCountSkips(s: string, i: nat, j: nat, unit: string)
    requires i <= j <= |s|
    requires forall k :: i <= k < j ==> !IsDigit(s[k])
    ensures FindCount(s, i, unit) == FindCount(s, j, unit)
    decreases j - i
  {
    if i < j {
      CountAtNonDigit(s, i, unit);
      FindCountSkips(s, i + 1, j, unit);
    }
  }

  lemma {:induction false} SkipDigitsExact(s: string, i: nat, j: nat)
    requires i <= j <= |s|
    requires forall k :: i <= k < j ==> IsDigit(s[k])
    requires j == |s| || !IsDigit(s[j])
    ensures SkipDigits(s, i) == j
    decreases j - i
  {
    if i < j {
      SkipDigitsExact(s, i + 1, j);
    }
  }

  /** The count at `i` when its digits run to `e` and the white space after
      them to `w`: the digits' value exactly when the unit is at `w`. */
  lemma CountAtOf(s: string, i: nat, e: nat, w: nat, unit: string)
    requires i < e < w <= |s|
    requires forall k :: i <= k < e ==> IsDigit(s[k])
    requires forall k :: e <= k < w ==> IsSpace(s[k])
    requires w == |s| || !IsSpace(s[w])
    ensures CountAt(s, i, unit) == if WordAt(s, w, unit) then Some(DigitsValue(s[i..e])) else None
  {
    assert !IsDigit(s[e]);
    SkipDigitsExact(s, i, e);
    SkipSpaceExact(s, e, w);
  }

  /** `re.search` passes over positions where no count starts. */
  lemma {:induction false} FindCountPast(s: string, i: nat, j: nat, unit: string)
    requires i <= j <= |s|
    requires forall k :: i <= k < j ==> CountAt(s, k, unit).None?
    ensures FindCount(s, i, unit) == FindCount(s, j, unit)
    decreases j - i
  {
    if i < j {
      FindCountPast(s, i + 1, j, unit);
    }
  }

  /** `(\d+)\s+unit`: the first run of digits counts when white space and
      the unit, in any case, follow it. */
  lemma QuantityOfCount(p: string, d: string, sp: string, u: string, q: string, unit: string)
    requires forall k :: 0 <= k < |p| ==> !IsDigit(p[k])
    requires d != [] && AllDigits(d)
    requires sp != [] && forall k :: 0 <= k < |sp| ==> IsSpace(sp[k])
    requires u != [] && !IsSpace(u[0]) && EqualsIgnoreCase(u, unit)
    ensures Quantity(p + d + sp + u + q, unit) == DigitsValue(d)
  {
    var s := p + d + sp + u + q;
    var i := |p|;
    var e := i + |d|;
    var w := e + |sp|;
    assert s[..i] == p && s[i..e] == d && s[e..w] == sp && s[w..w + |u|] == u by {
      assert s == p + d + sp + u + q;
    }
    forall k | 0 <= k < i ensures !IsDigit(s[k]) {
      assert s[k] == s[..i][k];
    }
    forall k | i <= k < e ensures IsDigit(s[k]) {
      assert s[k] == s[i..e][k - i];
    }
    forall k | e <= k < w ensures IsSpace(s[k]) {
      assert s[k] == s[e..w][k - e];
    }
    assert s[w] == u[0];
    assert |u| == |Lower(u)| == |Lower(unit)| == |unit|;
    WordAtSlice(s, w, unit);
    CountAtOf(s, i, e, w, unit);
    FindCountSkips(s, 0, i, unit);
  }

  /** The usual `doorasi` value `<b> Box <n> Sachet`: the box count is `b`,
      and the sachet count is `n`, past the box count that `re.search`
      tries first and rejects. */
  lemma BoxAndSachetCounts(b: string, n: string)
    requires b != [] && AllDigits(b) && n != [] && AllDigits(n)
    ensures Quantity(b + " Box " + n + " Sachet", "Box") == DigitsValue(b)
    ensures Quantity(b + " Box " + n + " Sachet", "Sachet") == DigitsValue(n)
  {
    var s := b + " Box " + n + " Sachet";
    BoxCountFirst(s, b, n);
    SachetPastBox(s, b, n);
  }

  lemma BoxCountFirst(s: string, b: string, n: string)
    requires b != [] && AllDigits(b)
    requires s == b + " Box " + n + " Sachet"
    ensures Quantity(s, "Box") == DigitsValue(b)
  {
    UnitWords();
    assert s == "" + b + " " + "Box" + (" " + n + " Sachet");
    QuantityOfCount("", b, " ", "Box", " " + n + " Sachet", "Box");
  }

  lemma UnitWords()
    ensures EqualsIgnoreCase("Box", "Box") && EqualsIgnoreCase("Sachet", "Sachet")
    ensures !IsSpace("Box"[0])
  {
  }

  lemma SachetPastBox(s: string, b: string, n: string)
    requires b != [] && AllDigits(b) && n != [] && AllDigits(n)
    requires s == b + " Box " + n + " Sachet"
    ensures Quantity(s, "Sachet") == DigitsValue(n)
  {
    var e := |b|;
    var i := e + 5;
    var g := i + |n|;
    assert s[..e] == b && s[e..i] == " Box " && s[i..g] == n && s[g..] == " Sachet" by {
      assert s == b + " Box " + n + " Sachet";
    }
    forall k | 0 <= k < e ensures IsDigit(s[k]) {
      assert s[k] == s[..e][k];
    }
    forall k | i <= k < g ensures IsDigit(s[k]) {
      assert s[k] == s[i..g][k - i];
    }
    NoSachetInBoxCount(s, e);
    FindCountPast(s, 0, i, "Sachet");
    SachetCountAt(s, i, g);
  }

  /** In `<digits> Box ` no sachet count starts. */
  lemma NoSachetInBoxCount(s: string, e: nat)
    requires e > 0 && e + 5 <= |s| && s[e..e + 5] == " Box "
    requires forall k :: 0 <= k < e ==> IsDigit(s[k])
    ensures forall k :: 0 <= k < e + 5 ==> CountAt(s, k, "Sachet").None?
  {
    var t := s[e..e + 5];
    assert t[0] == ' ' && t[1] == 'B' && t[2] == 'o' && t[3] == 'x' && t[4] == ' ';
    assert s[e] == t[0] && s[e + 1] == t[1] && s[e + 2] == t[2] && s[e + 3] == t[3] && s[e + 4] == t[4];
    assert !WordAt(s, e + 1, "Sachet") by {
      assert LowerChar(s[e + 1]) == 'b';
    }
    forall k | 0 <= k < e + 5 ensures CountAt(s, k, "Sachet").None? {
      if k < e {
        CountAtOf(s, k, e, e + 1, "Sachet");
      } else {
        CountAtNonDigit(s, k, "Sachet");
      }
    }
  }

  /** A run of digits closed by ` Sachet` at the end of the text is the
      sachet count, and `re.search` takes it there. */
  lemma SachetCountAt(s: string, i: nat, g: nat)
    requires i < g && g + 7 == |s| && s[g..] == " Sachet"
    requires forall k :: i <= k < g ==> IsDigit(s[k])
    ensures FindCount(s, i, "Sachet") == Some(DigitsValue(s[i..g]))
  {
    var t := s[g..];
    assert t[0] == ' ' && t[1..] == "Sachet";
    assert s[g] == t[0] && s[g + 1..] == t[1..];
    assert |Lower("Sachet")| == 6;
    WordAtSlice(s, g + 1, "Sachet");
    CountAtOf(s, i, g, g + 1, "Sachet");
  }

  /** From a position with no digit after it there is no count. */
  lemma {:induction false} FindCountNone(val: string, i: nat, unit: string)
    requires i <= |val|
    requires forall k :: i <= k < |val| ==> !IsDigit(val[k])
    ensures FindCount(val, i, unit) == None
    decreases |val| - i
  {
    if i < |val| {
      CountAtNonDigit(val, i, unit);
      FindCountNone(val, i + 1, unit);
    }
  }

  /** A value without digits has no count: the quantity is 0. */
  lemma QuantityWithoutDigits(val: string, unit: string)
    requires forall k :: 0 <= k < |val| ==> !IsDigit(val[k])
    ensures Quantity(val, unit) == 0
  {
    FindCountNone(val, 0, unit);
  }

  // ---------------------------------------------------------------------
  // Continuation lines
  // ---------------------------------------------------------------------

  /** The continuation keys whose field is stored under another name. */
  const RenamedKeys: set<string> := {"alamat jalan", "desa/kelurahan", "kab/kota"}

  /** No key line writes a renamed key under its own name. */
  lemma TargetsNeverRenamed(key: string, raw: string)
    requires raw in RenamedKeys
    ensures raw !in Targets(key)
  {
  }

  lemma RenamedKeysContinue(raw: string)
    requires raw in RenamedKeys
    ensures raw in ContinuationKeys && raw != "order_id"
  {
  }

  /** A renamed key never appears in the record the loop builds from a
      record without it. */
  lemma {:induction false} StepKeepsRenamedAbsent(st: ParseState, line: string, raw: string)
    requires raw in RenamedKeys && raw !in st.data
    requires Step(st, line).Ok?
    ensures raw !in Step(st, line).value.data
  {
    StepData(st, line);
    if IsKeyLine(line) {
      TargetsNeverRenamed(KeyOf(line), raw);
    }
  }

  /** The loop after its first line. */
  lemma ScanFirst(st: ParseState, lines: seq<string>)
    requires lines != []
    ensures Step(st, lines[0]).Err? ==> Scan(st, lines) == Err(Step(st, lines[0]).failure)
    ensures Step(st, lines[0]).Ok? ==> Scan(st, lines) == Scan(Step(st, lines[0]).value, lines[1..])
  {
  }

  lemma PrefixTail(lines: seq<string>, j: nat)
    requires 0 < j <= |lines|
    ensures lines[..j] != [] && lines[..j][0] == lines[0] && lines[..j][1..] == lines[1..][..j - 1]
  {
  }

  /** A renamed key's line never fails. */
  lemma RenamedKeyFieldsOk(raw: string, val: string)
    requires raw in RenamedKeys
    ensures Fields(raw, val).Ok?
  {
  }

  /** A key line makes its key the current key. */
  lemma KeyLineSetsCurrent(st: ParseState, line: string)
    requires IsKeyLine(line) && Step(st, line).Ok?
    ensures Step(st, line).value.currentKey == KeyOf(line)
  {
  }

  /** A continuation of a key missing from the record raises KeyError. */
  lemma ContinuationOfAbsent(st: ParseState, line: string)
    requires st.currentKey in ContinuationKeys && st.currentKey !in st.data
    requires !IsBlank(line) && ':' !in line
    ensures Step(st, line) == Err(KeyError(st.currentKey))
  {
  }

  /** A line that continues `alamat jalan`, `desa/kelurahan` or `kab/kota`
      raises KeyError: the field was stored under its new name, and the
      continuation looks up the key as written. The loop fails at that
      line unless it failed before. */
  lemma {:induction false} RenamedContinuationFails(st: ParseState, lines: seq<string>, j: nat, raw: string)
    requires raw in RenamedKeys && raw !in st.data
    requires j + 1 < |lines|
    requires IsKeyLine(lines[j]) && KeyOf(lines[j]) == raw
    requires !IsBlank(lines[j + 1]) && ':' !in lines[j + 1]
    ensures Scan(st, lines).Err?
    ensures Scan(st, lines[..j]).Ok? ==> Scan(st, lines).failure == KeyError(raw)
    decreases j
  {
    if j == 0 {
      RenamedContinuationNext(st, lines, raw);
    } else {
      ScanFirst(st, lines);
      PrefixTail(lines, j);
      ScanFirst(st, lines[..j]);
      if Step(st, lines[0]).Ok? {
        StepKeepsRenamedAbsent(st, lines[0], raw);
        RenamedContinuationFails(Step(st, lines[0]).value, lines[1..], j - 1, raw);
      }
    }
  }

  /** The renamed key's line followed at once by a continuation line. */
  lemma RenamedContinuationNext(st: ParseState, lines: seq<string>, raw: string)
    requires raw in RenamedKeys && raw !in st.data
    requires 1 < |lines|
    requires IsKeyLine(lines[0]) && KeyOf(lines[0]) == raw
    requires !IsBlank(lines[1]) && ':' !in lines[1]
    ensures Scan(st, lines) == Err(KeyError(raw))
  {
    RenamedKeysContinue(raw);
    ScanFirst(st, lines);
    RenamedKeyFieldsOk(raw, ValOf(lines[0]));
    var next := Step(st, lines[0]).value;
    StepKeepsRenamedAbsent(st, lines[0], raw);
    KeyLineSetsCurrent(st, lines[0]);
    ContinuationOfAbsent(next, lines[1]);
    ScanFirst(next, lines[1..]);
  }

  /** `parse_order` raises when such a line follows one of those keys. */
  lemma RenamedContinuationRaises(isMp: bool, lines: seq<string>, j: nat, raw: string)
    requires raw in RenamedKeys
    requires j + 1 < |LoopLines(isMp, lines)|
    requires IsKeyLine(LoopLines(isMp, lines)[j]) && KeyOf(LoopLines(isMp, lines)[j]) == raw
    requires !IsBlank(LoopLines(isMp, lines)[j + 1]) && ':' !in LoopLines(isMp, lines)[j + 1]
    ensures ParseLines(isMp, lines).Err?
  {
    RenamedNotInitial(isMp, lines, raw);
    var f := RenamedScanFails(InitialRecord(isMp, lines), LoopLines(isMp, lines), j, raw);
    ParseLinesErr(isMp, lines, f);
  }

  lemma RenamedNotInitial(isMp: bool, lines: seq<string>, raw: string)
    requires raw in RenamedKeys
    ensures raw !in InitialRecord(isMp, lines)
  {
    RenamedKeysContinue(raw);
  }

  lemma RenamedScanFails(init: Record, loop: seq<string>, j: nat, raw: string) returns (f: Failure)
    requires raw in RenamedKeys && raw !in init
    requires j + 1 < |loop|
    requires IsKeyLine(loop[j]) && KeyOf(loop[j]) == raw
    requires !IsBlank(loop[j + 1]) && ':' !in loop[j + 1]
    ensures Scan(ParseState(init, "", []), loop) == Err(f)
  {
    RenamedContinuationFails(ParseState(init, "", []), loop, j, raw);
    f := Scan(ParseState(init, "", []), loop).failure;
  }

  /** `kecamatan: v` stores `v` under its own name and makes `kecamatan`
      the current key. */
  lemma KecamatanStep(st: ParseState, keyLine: string)
    requires IsKeyLine(keyLine) && KeyOf(keyLine) == "kecamatan"
    ensures Step(st, keyLine) == Ok(ParseState(st.data["kecamatan" := Str(ValOf(keyLine))], "kecamatan", st.notes))
  {
    KecamatanFields(ValOf(keyLine));
    KeyLineStep(st, keyLine);
    MergeOne(st.data, "kecamatan", Str(ValOf(keyLine)));
  }

  lemma MergeOne(d: Record, k: string, v: Value)
    ensures d + map[k := v] == d[k := v]
  {
  }

  /** `kecamatan: v` stores `v` under its own name. */
  lemma KecamatanFields(val: string)
    ensures Fields("kecamatan", val) == Ok(map["kecamatan" := Str(val)])
  {
  }

  /** A key line that does not fail merges its fields and becomes the
      current key. */
  lemma KeyLineStep(st: ParseState, line: string)
    requires IsKeyLine(line) && Fields(KeyOf(line), ValOf(line)).Ok?
    ensures Step(st, line) == Ok(ParseState(st.data + Fields(KeyOf(line), ValOf(line)).value, KeyOf(line), st.notes))
  {
  }

  lemma KecamatanContinuationKey()
    ensures "kecamatan" in ContinuationKeys
  {
  }

  /** A continuation of a key that holds text appends the stripped line. */
  lemma ContinuationOfText(st: ParseState, line: string, v: string)
    requires st.currentKey in ContinuationKeys && st.currentKey in st.data && st.data[st.currentKey] == Str(v)
    requires !IsBlank(line) && ':' !in line
    ensures Step(st, line) == Ok(st.(data := st.data[st.currentKey := Str(v + "\n" + Strip(line))]))
  {
  }

  /** The same, as the loop over that one line. */
  lemma ContinuationScan(st: ParseState, line: string, v: string)
    requires st.currentKey in ContinuationKeys && st.currentKey in st.data && st.data[st.currentKey] == Str(v)
    requires !IsBlank(line) && ':' !in line
    ensures Scan(st, [line]) == Ok(st.(data := st.data[st.currentKey := Str(v + "\n" + Strip(line))]))
  {
    ContinuationOfText(st, line, v);
    ScanFirst(st, [line]);
    assert [line][1..] == [];
  }

  /** A line after `kecamatan: v`, which keeps its own name, is appended to
      the field on a new line. */
  lemma KecamatanContinues(st: ParseState, keyLine: string, line: string)
    requires IsKeyLine(keyLine) && KeyOf(keyLine) == "kecamatan"
    requires !IsBlank(line) && ':' !in line
    ensures Scan(st, [keyLine, line]).Ok?
    ensures "kecamatan" in Scan(st, [keyLine, line]).value.data
    ensures Scan(st, [keyLine, line]).value.data["kecamatan"] == Str(ValOf(keyLine) + "\n" + Strip(line))
  {
    KecamatanStep(st, keyLine);
    KecamatanContinuationKey();
    var v := ValOf(keyLine);
    var next := ParseState(st.data["kecamatan" := Str(v)], "kecamatan", st.notes);
    ContinuationScan(next, line, v);
    ScanFirst(st, [keyLine, line]);
    assert [keyLine, line][1..] == [line];
    assert Scan(st, [keyLine, line]) == Ok(next.(data := next.data["kecamatan" := Str(v + "\n" + Strip(line))]));
  }

  // ---------------------------------------------------------------------
  // The header
  // ---------------------------------------------------------------------

  /** The matched group is one of the alternatives, up to case. */
  lemma {:induction false} HeaderGroup(s: string, i: nat) returns (p: string)
    requires i <= |s| && FindHeader(s, i).Some?
    ensures p in Platforms && EqualsIgnoreCase(FindHeader(s, i).value, p)
    decreases |s| - i
  {
    if HeaderAt(s, i).None? {
      p := HeaderGroup(s, i + 1);
    } else {
      p := HeaderAtGroup(s, i);
    }
  }

  /** The group an alternative matched is that alternative, up to case. */
  lemma {:induction false} PlatformAlternativeGroup(s: string, i: nat, alts: seq<string>) returns (p: string)
    requires PlatformAlternative(s, i, alts).Some?
    ensures p in alts && EqualsIgnoreCase(PlatformAlternative(s, i, alts).value, p)
  {
    if WordAt(s, i, alts[0]) {
      WordAtSlice(s, i, alts[0]);
      p := alts[0];
    } else {
      p := PlatformAlternativeGroup(s, i, alts[1..]);
    }
  }

  lemma AfterNumberGroup(s: string, c: nat) returns (p: string)
    requires c <= |s| && AfterNumber(s, c).Some?
    ensures p in Platforms && EqualsIgnoreCase(AfterNumber(s, c).value, p)
  {
    p := PlatformAlternativeGroup(s, SkipSpace(s, SkipSpace(s, c) + 1), Platforms);
  }

  lemma AfterSalesGroup(s: string, a: nat) returns (p: string)
    requires a <= |s| && AfterSales(s, a).Some?
    ensures p in Platforms && EqualsIgnoreCase(AfterSales(s, a).value, p)
  {
    p := AfterNumberGroup(s, SkipDigits(s, SkipSpace(s, a)));
  }

  lemma HeaderAtGroup(s: string, i: nat) returns (p: string)
    requires i <= |s| && HeaderAt(s, i).Some?
    ensures p in Platforms && EqualsIgnoreCase(HeaderAt(s, i).value, p)
  {
    p := AfterSalesGroup(s, i + |SalesWord|);
  }

  /** Upper-casing forgets the case a text was written in. */
  lemma UpperOfFolded(g: string, p: string)
    requires EqualsIgnoreCase(g, p)
    ensures Upper(g) == Upper(p)
  {
    assert |g| == |Lower(g)| == |Lower(p)| == |p|;
    forall k | 0 <= k < |g|
      ensures Upper(g)[k] == Upper(p)[k]
    {
      assert LowerChar(g[k]) == Lower(g)[k] == Lower(p)[k] == LowerChar(p[k]);
    }
  }

  /** The alternatives are written in capitals. */
  lemma PlatformsUpper()
    ensures forall p :: p in Platforms ==> Upper(p) == p
  {
    assert Upper("SHOPEE") == "SHOPEE";
    assert Upper("LAZADA") == "LAZADA";
    assert Upper("TIKTOK") == "TIKTOK";
    assert Upper("TIK TOK") == "TIK TOK";
  }

  /** The platform of a marketplace order is one of SHOPEE, LAZADA, TIKTOK
      and TIK TOK, written in capitals whatever case the message used. */
  lemma PlatformIsKnown(text: string)
    ensures Platform(text).Some? <==> IsMarketplace(text)
    ensures Platform(text).Some? ==> Platform(text).value in Platforms
  {
    if FindHeader(text, 0).Some? {
      var p := HeaderGroup(text, 0);
      UpperOfFolded(FindHeader(text, 0).value, p);
      PlatformsUpper();
    }
  }

  /** `re.search` finds a header when there is one at or after `i`. */
  lemma {:induction false} FindHeaderReaches(s: string, i: nat, j: nat)
    requires i <= j <= |s| && HeaderAt(s, j).Some?
    ensures FindHeader(s, i).Some?
    decreases j - i
  {
    if i < j && HeaderAt(s, i).None? {
      FindHeaderReaches(s, i + 1, j);
    }
  }

  /** An alternative that occurs is found, if none before it does. */
  lemma {:induction false} PlatformAlternativeFinds(s: string, i: nat, alts: seq<string>, k: nat)
    requires k < |alts| && WordAt(s, i, alts[k])
    ensures PlatformAlternative(s, i, alts).Some?
    decreases k
  {
    if 0 < k && !WordAt(s, i, alts[0]) {
      PlatformAlternativeFinds(s, i, alts[1..], k - 1);
    }
  }

  lemma PlatformsStartWithLetter()
    ensures forall p :: p in Platforms ==> p != [] && !IsSpace(p[0])
  {
  }

  /** The header pattern at `i`, stage by stage. */
  lemma AfterNumberWhen(s: string, c: nat, d: nat, e: nat)
    requires c <= |s|
    requires d == SkipSpace(s, c) && d < |s| && s[d] == '-'
    requires e == SkipSpace(s, d + 1) && PlatformAlternative(s, e, Platforms).Some?
    ensures AfterNumber(s, c).Some?
  {
  }

  /** An alternative written at `e` is found there, and it does not start
      with white space. */
  lemma PlatformFound(s: string, e: nat, p: string)
    requires p in Platforms && e + |p| <= |s| && WordAt(s, e, p)
    ensures PlatformAlternative(s, e, Platforms).Some?
    ensures e < |s| && !IsSpace(s[e])
  {
    PlatformsStartWithLetter();
    assert LowerChar(s[e]) == LowerChar(p[0]);
    var k :| 0 <= k < |Platforms| && Platforms[k] == p;
    PlatformAlternativeFinds(s, e, Platforms, k);
  }

  /** ` - ` and then an alternative complete the header. */
  lemma DashThenPlatform(s: string, c: nat, p: string)
    requires p in Platforms && c + 3 + |p| <= |s|
    requires s[c] == ' ' && s[c + 1] == '-' && s[c + 2] == ' '
    requires WordAt(s, c + 3, p)
    ensures AfterNumber(s, c).Some?
  {
    PlatformFound(s, c + 3, p);
    assert SkipSpace(s, c) == c + 1;
    assert SkipSpace(s, c + 2) == c + 3;
    AfterNumberWhen(s, c, c + 1, c + 3);
  }

  lemma AfterSalesWhen(s: string, a: nat, b: nat, c: nat)
    requires a <= |s|
    requires b == SkipSpace(s, a) && b > a
    requires c == SkipDigits(s, b) && c > b
    requires AfterNumber(s, c).Some?
    ensures AfterSales(s, a).Some?
  {
  }

  /** One space and `n` digits, then the rest of the header. */
  lemma SpaceThenDigits(s: string, a: nat, n: nat)
    requires n > 0 && a + n + 2 <= |s|
    requires s[a] == ' ' && s[a + n + 1] == ' '
    requires forall k :: a < k <= a + n ==> IsDigit(s[k])
    requires AfterNumber(s, a + n + 1).Some?
    ensures AfterSales(s, a).Some?
  {
    assert SkipSpace(s, a) == a + 1;
    assert SkipDigits(s, a + 1) == a + n + 1;
    AfterSalesWhen(s, a, a + 1, a + n + 1);
  }

  lemma HeaderAtWhen(s: string, i: nat)
    requires WordAt(s, i, SalesWord) && AfterSales(s, i + |SalesWord|).Some?
    ensures HeaderAt(s, i).Some?
  {
  }

  /** The header at `i` as the characters it is made of: the word, one
      space, `n` digits, ` - ` and an alternative. */
  lemma HeaderAtParts(s: string, i: nat, n: nat, p: string)
    requires WordAt(s, i, SalesWord) && n > 0 && p in Platforms
    requires i + |SalesWord| + n + 4 + |p| <= |s|
    requires s[i + |SalesWord|] == ' '
    requires forall k :: i + |SalesWord| < k <= i + |SalesWord| + n ==> IsDigit(s[k])
    requires var c := i + |SalesWord| + n + 1; s[c] == ' ' && s[c + 1] == '-' && s[c + 2] == ' '
    requires WordAt(s, i + |SalesWord| + n + 4, p)
    ensures HeaderAt(s, i).Some?
  {
    var a := i + |SalesWord|;
    DashThenPlatform(s, a + n + 1, p);
    SpaceThenDigits(s, a, n);
    HeaderAtWhen(s, i);
  }

  /** `SALES 12 - Shopee` in any case, anywhere in the text, makes it a
      marketplace order: `w` spells the word and `p` one of the platforms,
      each in any case. */
  lemma MarketplaceHeaderDetected(pre: string, w: string, d: string, p: string, q: string, rest: string)
    requires EqualsIgnoreCase(w, SalesWord) && d != [] && AllDigits(d)
    requires q in Platforms && EqualsIgnoreCase(p, q)
    ensures IsMarketplace(pre + w + " " + d + " - " + p + rest)
  {
    var s := pre + w + " " + d + " - " + p + rest;
    assert |w| == |Lower(w)| == |Lower(SalesWord)| == |SalesWord|;
    assert |p| == |Lower(p)| == |Lower(q)| == |q|;
    var a := |pre| + |w|;
    var c := a + |d| + 1;
    assert s[|pre|..a] == w;
    WordAtSlice(s, |pre|, SalesWord);
    assert s[a] == ' ';
    assert forall k :: a < k <= a + |d| ==> s[k] == d[k - a - 1];
    assert s[c] == ' ' && s[c + 1] == '-' && s[c + 2] == ' ';
    assert s[c + 3..c + 3 + |p|] == p;
    WordAtSlice(s, c + 3, q);
    HeaderAtParts(s, |pre|, |d|, q);
    FindHeaderReaches(s, 0, |pre|);
  }


  /** `SALES 12 - Shopee` is a marketplace order. */
  lemma MarketplaceHeaderExample()
    ensures IsMarketplace("SALES 12 - Shopee")
  {
    HeaderExampleParts();
    MarketplaceHeaderDetected("", "SALES", "12", "Shopee", "SHOPEE", "");
  }

  lemma HeaderExampleParts()
    ensures EqualsIgnoreCase("SALES", SalesWord) && AllDigits("12") && "SHOPEE" in Platforms
    ensures EqualsIgnoreCase("Shopee", "SHOPEE")
    ensures "" + "SALES" + " " + "12" + " - " + "Shopee" + "" == "SALES 12 - Shopee"
  {
    assert Lower("Shopee") == "shopee";
    assert Lower("SHOPEE") == "shopee";
  }
}
