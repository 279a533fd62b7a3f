/** The normalisers of app.py: amount extraction (`get_num`), phone-number
    normalisation (`format_phone_number`) and expedition canonicalisation
    (`SHIP_LOOKUP`). */
module Normalize {
  import opened Outcomes
  import opened Text

  // ---------------------------------------------------------------------
  // get_num: the pattern  Rp?\s*([\d.,]+)\s*k?  (IGNORECASE), first match
  // ---------------------------------------------------------------------

  predicate IsAmountChar(c: char) { IsDigit(c) || c == '.' || c == ',' }

  /** The first index at or after `i` that is not whitespace (or `|s|`). */
  function SkipSpace(s: string, i: nat): (r: nat)
    requires i <= |s|
    ensures i <= r <= |s|
    ensures forall k :: i <= k < r ==> IsSpace(s[k])
    ensures r == |s| || !IsSpace(s[r])
    decreases |s| - i
  {
    if i < |s| && IsSpace(s[i]) then SkipSpace(s, i + 1) else i
  }

  /** The first index at or after `i` that is not a digit, `.` or `,`. */
  function SkipAmountChars(s: string, i: nat): (r: nat)
    requires i <= |s|
    ensures i <= r <= |s|
    ensures forall k :: i <= k < r ==> IsAmountChar(s[k])
    ensures r == |s| || !IsAmountChar(s[r])
    decreases |s| - i
  {
    if i < |s| && IsAmountChar(s[i]) then SkipAmountChars(s, i + 1) else i
  }

  /** Where a match of the amount pattern lies: group 1 is
      `s[groupStart..groupEnd]`; `hasK` says whether the trailing `k` matched. */
  datatype AmountMatch = AmountMatch(start: nat, groupStart: nat, groupEnd: nat, hasK: bool)

  /** The match of the amount pattern that starts at `i`, if any. The optional
      `p` is taken whenever it is present: without it, group 1 would have to
      start at the `p` itself. Every quantifier after group 1 may match empty,
      so group 1 is the whole run of digits, dots and commas. */
  function AmountMatchAt(s: string, i: nat): (m: Option<AmountMatch>)
    requires i < |s|
    ensures m.Some? ==> m.value.start == i && i < m.value.groupStart < m.value.groupEnd <= |s|
  {
    if s[i] != 'R' && s[i] != 'r' then None
    else
      var j := if i + 1 < |s| && (s[i + 1] == 'p' || s[i + 1] == 'P') then i + 2 else i + 1;
      var g := SkipSpace(s, j);
      if g < |s| && IsAmountChar(s[g]) then
        var e := SkipAmountChars(s, g);
        var w := SkipSpace(s, e);
        Some(AmountMatch(i, g, e, w < |s| && (s[w] == 'k' || s[w] == 'K')))
      else None
  }

  /** `re.search`: the leftmost match at or after `i`. */
  function FindAmount(s: string, i: nat): (m: Option<AmountMatch>)
    requires i <= |s|
    ensures m.Some? ==> i <= m.value.start < m.value.groupStart < m.value.groupEnd <= |s|
    decreases |s| - i
  {
    if i == |s| then None
    else
      match AmountMatchAt(s, i)
      case Some(m) => Some(m)
      case None => FindAmount(s, i + 1)
  }

  /** `.replace('.', '').replace(',', '')` */
  function DropSeparators(t: string): (r: string)
    ensures forall k :: 0 <= k < |r| ==> r[k] != '.' && r[k] != ','
  {
    if t == [] then []
    else (if t[0] == '.' || t[0] == ',' then [] else [t[0]]) + DropSeparators(t[1..])
  }

  /** `get_num(val_str)`. `float('')` raises when group 1 holds only
      separators; that is the `Err` outcome. */
  function GetNum(s: string): (r: Result<nat>)
    ensures r.Err? ==> r.failure == ValueError("could not convert string to float: ''")
  {
    if s == [] then Ok(0)
    else
      match FindAmount(s, 0)
      case None => Ok(0)
      case Some(m) =>
        var digits := DropSeparators(s[m.groupStart..m.groupEnd]);
        if digits == [] then Err(ValueError("could not convert string to float: ''"))
        else Ok(DigitsValue(digits) * (if m.hasK then 1000 else 1))
  }

  lemma {:induction false} FindAmountWithoutR(s: string, i: nat)
    requires i <= |s|
    requires forall k :: i <= k < |s| ==> s[k] != 'R' && s[k] != 'r'
    ensures FindAmount(s, i) == None
    decreases |s| - i
  {
    if i < |s| {
      FindAmountWithoutR(s, i + 1);
    }
  }

  /** The `R` is mandatory: text without one, such as a bare `150000`,
      yields 0. */
  lemma GetNumWithoutR(s: string)
    requires 'R' !in s && 'r' !in s
    ensures GetNum(s) == Ok(0)
  {
    if s != [] {
      FindAmountWithoutR(s, 0);
      assert FindAmount(s, 0) == None;
    }
  }

  /** An amount token from index `k` to `g`: an `R`, an optional `p`,
      white space, and a digit, `.` or `,` at `g`. */
  predicate TokenAt(s: string, k: nat, g: nat)
    requires k < g < |s|
  {
    && (s[k] == 'R' || s[k] == 'r')
    && (forall j :: k < j < g ==> IsSpace(s[j]) || (j == k + 1 && (s[j] == 'p' || s[j] == 'P')))
    && IsAmountChar(s[g])
  }

  /** Without a token the pattern matches nowhere. */
  lemma {:induction false} FindAmountWithoutToken(s: string, i: nat)
    requires i <= |s|
    requires forall k, g :: i <= k < g < |s| ==> !TokenAt(s, k, g)
    ensures FindAmount(s, i) == None
    decreases |s| - i
  {
    if i < |s| {
      NoMatchAt(s, i);
      FindAmountWithoutToken(s, i + 1);
    }
  }

  lemma NoMatchAt(s: string, i: nat)
    requires i < |s|
    requires forall g :: i < g < |s| ==> !TokenAt(s, i, g)
    ensures AmountMatchAt(s, i) == None
  {
    if s[i] == 'R' || s[i] == 'r' {
      var j := if i + 1 < |s| && (s[i + 1] == 'p' || s[i + 1] == 'P') then i + 2 else i + 1;
      var g := SkipSpace(s, j);
      if g < |s| && IsAmountChar(s[g]) {
        assert TokenAt(s, i, g);
      }
    }
  }

  /** An `R` alone is not enough: text in which no `R`/`r`, optional `p`
      and white space reach a digit, `.` or `,` (such as `"R abc"` or
      `"Rp -"`) yields 0. */
  lemma GetNumWithoutToken(s: string)
    requires forall k, g :: 0 <= k < g < |s| ==> !TokenAt(s, k, g)
    ensures GetNum(s) == Ok(0)
  {
    if s != [] {
      FindAmountWithoutToken(s, 0);
    }
  }

  lemma GetNumExampleNoAmount()
    ensures GetNum("Rp -") == Ok(0)
  {
    var s := "Rp -";
    assert s[0] == 'R' && s[1] == 'p' && s[2] == ' ' && s[3] == '-';
    GetNumWithoutToken(s);
  }

  lemma {:induction false} DropSeparatorsOfDigits(t: string)
    requires AllDigits(t)
    ensures DropSeparators(t) == t
  {
    if t != [] {
      DropSeparatorsOfDigits(t[1..]);
    }
  }

  lemma {:induction false} DropSeparatorsAppend(a: string, b: string)
    ensures DropSeparators(a + b) == DropSeparators(a) + DropSeparators(b)
  {
    if a == [] {
      assert a + b == b;
    } else {
      assert (a + b)[0] == a[0];
      assert (a + b)[1..] == a[1..] + b;
      DropSeparatorsAppend(a[1..], b);
    }
  }

  lemma {:induction false} SkipSpaceExact(s: string, i: nat, j: nat)
    requires i <= j <= |s|
    requires forall k :: i <= k < j ==> IsSpace(s[k])
    requires j == |s| || !IsSpace(s[j])
    ensures SkipSpace(s, i) == j
    decreases j - i
  {
    if i < j {
      SkipSpaceExact(s, i + 1, j);
    }
  }

  lemma {:induction false} SkipAmountCharsExact(s: string, i: nat, j: nat)
    requires i <= j <= |s|
    requires forall k :: i <= k < j ==> IsAmountChar(s[k])
    requires j == |s| || !IsAmountChar(s[j])
    ensures SkipAmountChars(s, i) == j
    decreases j - i
  {
    if i < j {
      SkipAmountCharsExact(s, i + 1, j);
    }
  }

  /** Matching `"Rp " + body + tail` at index 0, where `body` is a nonempty run
      of digits and separators and the tail does not continue it. */
  lemma MatchRpPrefix(body: string, tail: string)
    requires body != [] && forall k :: 0 <= k < |body| ==> IsAmountChar(body[k])
    requires tail == [] || !IsAmountChar(tail[0])
    ensures var s := "Rp " + body + tail;
      FindAmount(s, 0) == Some(AmountMatch(0, 3, 3 + |body|,
        var w := SkipSpace(s, 3 + |body|); w < |s| && (s[w] == 'k' || s[w] == 'K')))
  {
    var s := "Rp " + body + tail;
    assert s[0] == 'R' && s[1] == 'p' && IsSpace(s[2]);
    assert s[3] == body[0];
    SkipSpaceExact(s, 2, 3);
    forall k | 3 <= k < 3 + |body| ensures IsAmountChar(s[k]) {
      assert s[k] == body[k - 3];
    }
    if tail != [] {
      assert s[3 + |body|] == tail[0];
    }
    SkipAmountCharsExact(s, 3, 3 + |body|);
  }

  /** The spellings of the `Rp?` that opens a match, in any case. */
  predicate IsAmountPrefix(w: string)
  {
    w == "R" || w == "r" || w == "Rp" || w == "RP" || w == "rp" || w == "rP"
  }

  predicate AllSpace(t: string) { forall k :: 0 <= k < |t| ==> IsSpace(t[k]) }

  /** `re.search` passes over text without an `R`/`r`. */
  lemma {:induction false} FindAmountSkipsPlain(s: string, i: nat, j: nat)
    requires i <= j <= |s|
    requires forall k :: i <= k < j ==> s[k] != 'R' && s[k] != 'r'
    ensures FindAmount(s, i) == FindAmount(s, j)
    decreases j - i
  {
    if i < j {
      FindAmountSkipsPlain(s, i + 1, j);
    }
  }

  /** The match at `i`, given where each part of the token ends: the
      `R`/`Rp` ends at `j`, the white space at `g`, the amount run at `e` and
      the white space after it at `v`. */
  lemma AmountMatchAtExact(s: string, i: nat, j: nat, g: nat, e: nat, v: nat)
    requires i < j <= g < e <= v <= |s|
    requires s[i] == 'R' || s[i] == 'r'
    requires (j == i + 2 && (s[i + 1] == 'p' || s[i + 1] == 'P')) || (j == i + 1 && s[j] != 'p' && s[j] != 'P')
    requires forall k :: j <= k < g ==> IsSpace(s[k])
    requires forall k :: g <= k < e ==> IsAmountChar(s[k])
    requires forall k :: e <= k < v ==> IsSpace(s[k])
    requires v == |s| || (!IsSpace(s[v]) && !IsAmountChar(s[v]))
    ensures AmountMatchAt(s, i) == Some(AmountMatch(i, g, e, v < |s| && (s[v] == 'k' || s[v] == 'K')))
  {
    assert j == (if i + 1 < |s| && (s[i + 1] == 'p' || s[i + 1] == 'P') then i + 2 else i + 1);
    SkipSpaceExact(s, j, g);
    SkipAmountCharsExact(s, g, e);
    SkipSpaceExact(s, e, v);
  }

  lemma PrefixSplit(a: string, b: string)
    ensures (a + b)[..|a|] == a && (a + b)[|a|..] == b
  {
  }

  /** Where each part of `pre + w + sp1 + body + sp2 + tail` lies. */
  lemma TokenSlices(s: string, i: nat, j: nat, g: nat, e: nat, v: nat,
                    pre: string, w: string, sp1: string, body: string, sp2: string, tail: string)
    requires s == pre + w + sp1 + body + sp2 + tail
    requires i == |pre| && j == i + |w| && g == j + |sp1| && e == g + |body| && v == e + |sp2|
    ensures i <= j <= g <= e <= v <= |s|
    ensures s[..i] == pre && s[i..j] == w && s[j..g] == sp1 && s[g..e] == body && s[e..v] == sp2 && s[v..] == tail
  {
    var p2 := pre + w;
    var p3 := p2 + sp1;
    var p4 := p3 + body;
    var p5 := p4 + sp2;
    PrefixSplit(p5, tail);
    PrefixSplit(p4, sp2);
    PrefixSplit(p3, body);
    PrefixSplit(p2, sp1);
    PrefixSplit(pre, w);
    assert s[..|p5|] == p5;
    assert s[..|p4|] == p4;
    assert s[..|p3|] == p3;
    assert s[..|p2|] == p2;
  }

  /** The match at `i` when the token's parts lie at the given slices: group
      1 is the whole body, and the `k` is taken exactly when the tail opens
      with one. */
  lemma AmountMatchOfSlices(s: string, i: nat, j: nat, g: nat, e: nat, v: nat,
                            w: string, sp1: string, body: string, sp2: string, tail: string)
    requires i <= j <= g <= e <= v <= |s|
    requires s[i..j] == w && s[j..g] == sp1 && s[g..e] == body && s[e..v] == sp2 && s[v..] == tail
    requires IsAmountPrefix(w) && AllSpace(sp1) && AllSpace(sp2)
    requires body != [] && forall k :: 0 <= k < |body| ==> IsAmountChar(body[k])
    requires tail == [] || (!IsSpace(tail[0]) && !IsAmountChar(tail[0]))
    ensures AmountMatchAt(s, i) == Some(AmountMatch(i, g, e, tail != [] && (tail[0] == 'k' || tail[0] == 'K')))
  {
    assert s[i] == w[0];
    if |w| == 2 {
      assert s[i + 1] == w[1];
    } else if |sp1| > 0 {
      assert s[j] == sp1[0];
    } else {
      assert s[j] == body[0];
    }
    forall k | j <= k < g ensures IsSpace(s[k]) {
      assert s[k] == s[j..g][k - j];
    }
    forall k | g <= k < e ensures IsAmountChar(s[k]) {
      assert s[k] == s[g..e][k - g];
    }
    forall k | e <= k < v ensures IsSpace(s[k]) {
      assert s[k] == s[e..v][k - e];
    }
    if v < |s| {
      assert s[v] == tail[0];
    }
    AmountMatchAtExact(s, i, j, g, e, v);
  }

  /** `get_num` of a text whose first `R` opens an amount token: the text
      before it has no `R`, the token is `R`/`Rp` in any case, white space,
      the run of digits and separators, white space, and a tail that does
      not continue the run. The value is the run's digits with the
      separators deleted, times 1000 exactly when the tail opens with a
      `k`; a run of separators alone raises. */
  lemma GetNumOfToken(pre: string, w: string, sp1: string, body: string, sp2: string, tail: string)
    requires 'R' !in pre && 'r' !in pre
    requires IsAmountPrefix(w) && AllSpace(sp1) && AllSpace(sp2)
    requires body != [] && forall k :: 0 <= k < |body| ==> IsAmountChar(body[k])
    requires tail == [] || (!IsSpace(tail[0]) && !IsAmountChar(tail[0]))
    ensures GetNum(pre + w + sp1 + body + sp2 + tail)
      == if DropSeparators(body) == [] then Err(ValueError("could not convert string to float: ''"))
         else Ok(DigitsValue(DropSeparators(body)) * (if tail != [] && (tail[0] == 'k' || tail[0] == 'K') then 1000 else 1))
  {
    var s := pre + w + sp1 + body + sp2 + tail;
    var i, j, g, e, v := |pre|, |pre| + |w|, |pre| + |w| + |sp1|, |pre| + |w| + |sp1| + |body|, |pre| + |w| + |sp1| + |body| + |sp2|;
    TokenSlices(s, i, j, g, e, v, pre, w, sp1, body, sp2, tail);
    GetNumOfSlices(s, i, j, g, e, v, pre, w, sp1, body, sp2, tail);
  }

  lemma GetNumOfSlices(s: string, i: nat, j: nat, g: nat, e: nat, v: nat,
                       pre: string, w: string, sp1: string, body: string, sp2: string, tail: string)
    requires i <= j <= g <= e <= v <= |s|
    requires s[..i] == pre && s[i..j] == w && s[j..g] == sp1 && s[g..e] == body && s[e..v] == sp2 && s[v..] == tail
    requires 'R' !in pre && 'r' !in pre
    requires IsAmountPrefix(w) && AllSpace(sp1) && AllSpace(sp2)
    requires body != [] && forall k :: 0 <= k < |body| ==> IsAmountChar(body[k])
    requires tail == [] || (!IsSpace(tail[0]) && !IsAmountChar(tail[0]))
    ensures GetNum(s)
      == if DropSeparators(body) == [] then Err(ValueError("could not convert string to float: ''"))
         else Ok(DigitsValue(DropSeparators(body)) * (if tail != [] && (tail[0] == 'k' || tail[0] == 'K') then 1000 else 1))
  {
    forall k | 0 <= k < i ensures s[k] != 'R' && s[k] != 'r' {
      assert s[k] == pre[k];
    }
    FindAmountSkipsPlain(s, 0, i);
    AmountMatchOfSlices(s, i, j, g, e, v, w, sp1, body, sp2, tail);
    GetNumOfMatch(s, AmountMatch(i, g, e, tail != [] && (tail[0] == 'k' || tail[0] == 'K')), DropSeparators(body));
  }

  /** An amount inside a sentence: `get_num("Total Rp150.000 COD") == 150000`. */
  lemma GetNumExampleInText()
    ensures GetNum("Total Rp150.000 COD") == Ok(150000)
  {
    var body := "150" + "." + "000";
    InTextParts();
    GroupedChars("150", "000");
    GroupedDrop("150", "000");
    InTextPrefix("Total ", "COD");
    GetNumOfToken("Total ", "Rp", "", body, " ", "COD");
  }

  lemma InTextParts()
    ensures AllDigits("150") && AllDigits("000") && DigitsValue("150" + "000") == 150000
    ensures "Total " + "Rp" + "" + ("150" + "." + "000") + " " + "COD" == "Total Rp150.000 COD"
  {
    DigitsValueAppend("150", "000");
    var h: string := "150";
    assert h[..2] == "15" && h[..2][..1] == "1";
    assert DigitsValue("1") == 1;
    assert DigitsValue("15") == 15;
    assert DigitsValue(h) == 150;
    var z: string := "000";
    assert z[..2] == "00" && z[..2][..1] == "0";
    assert DigitsValue("0") == 0;
    assert DigitsValue("00") == 0;
    assert DigitsValue(z) == 0;
    assert Pow10(3) == 1000;
  }

  lemma InTextPrefix(pre: string, tail: string)
    requires pre == "Total " && tail == "COD"
    ensures 'R' !in pre && 'r' !in pre && IsAmountPrefix("Rp") && AllSpace("") && AllSpace(" ")
    ensures !IsSpace(tail[0]) && !IsAmountChar(tail[0]) && tail[0] != 'k' && tail[0] != 'K'
  {
    assert pre == ['T', 'o', 't', 'a', 'l', ' '];
  }

  /** Proof step, not a property of its own: unfolds `GetNum` once the
      first match is known, so that the lemmas above and below it can name
      the match instead of the search. */
  lemma GetNumOfMatch(s: string, m: AmountMatch, digits: string)
    requires s != [] && FindAmount(s, 0) == Some(m)
    requires m.groupStart <= m.groupEnd <= |s| && digits == DropSeparators(s[m.groupStart..m.groupEnd])
    ensures digits == [] ==> GetNum(s).Err?
    ensures digits != [] ==> GetNum(s) == Ok(DigitsValue(digits) * (if m.hasK then 1000 else 1))
  {
  }

  /** `get_num("Rp " + body)` for a run of digits and separators ending the
      text: the value of its digits. */
  lemma AmountOfRpBody(body: string, v: nat)
    requires body != [] && forall k :: 0 <= k < |body| ==> IsAmountChar(body[k])
    requires DropSeparators(body) != [] && DigitsValue(DropSeparators(body)) == v
    ensures GetNum("Rp " + body) == Ok(v)
  {
    var s := "Rp " + body;
    RpBodyMatch(body);
    GetNumOfMatch(s, AmountMatch(0, 3, 3 + |body|, false), DropSeparators(body));
  }

  /** The match in `"Rp " + body`: the whole body, with no `k`. */
  lemma RpBodyMatch(body: string)
    requires body != [] && forall k :: 0 <= k < |body| ==> IsAmountChar(body[k])
    ensures var s := "Rp " + body;
      FindAmount(s, 0) == Some(AmountMatch(0, 3, 3 + |body|, false)) && s[3..3 + |body|] == body
  {
    var s := "Rp " + body;
    assert s == "Rp " + body + "";
    MatchRpPrefix(body, "");
    SkipSpaceExact(s, 3 + |body|, |s|);
    assert s[3..3 + |body|] == body;
  }

  /** `"Rp " + digits` reads as the digits' value. */
  lemma GetNumOfDigits(d: string)
    requires d != [] && AllDigits(d)
    ensures GetNum("Rp " + d) == Ok(DigitsValue(d))
  {
    DropSeparatorsOfDigits(d);
    AmountOfRpBody(d, DigitsValue(d));
  }

  /** `"Rp " + digits + "k"` reads as a thousand times the digits' value. */
  lemma GetNumOfDigitsK(d: string)
    requires d != [] && AllDigits(d)
    ensures GetNum("Rp " + d + "k") == Ok(1000 * DigitsValue(d))
  {
    RpDigitsKMatch(d);
    DropSeparatorsOfDigits(d);
    GetNumOfMatch("Rp " + d + "k", AmountMatch(0, 3, 3 + |d|, true), d);
  }

  /** The match in `"Rp " + digits + "k"`: the digits, with the `k`. */
  lemma RpDigitsKMatch(d: string)
    requires d != [] && AllDigits(d)
    ensures var s := "Rp " + d + "k";
      FindAmount(s, 0) == Some(AmountMatch(0, 3, 3 + |d|, true)) && s[3..3 + |d|] == d
  {
    var s := "Rp " + d + "k";
    MatchRpPrefix(d, "k");
    assert s[3 + |d|] == 'k';
    SkipSpaceExact(s, 3 + |d|, 3 + |d|);
    assert s[3..3 + |d|] == d;
  }

  /** `get_num("Rp " + str(n)) == n`: the value survives a round trip
      through its own decimal rendering. */
  lemma GetNumOfRendering(n: nat)
    ensures GetNum("Rp " + NatToString(n)) == Ok(n)
  {
    GetNumOfDigits(NatToString(n));
    NatToStringValue(n);
  }

  /** A trailing `k` multiplies by 1000: `get_num("Rp " + str(n) + "k")`. */
  lemma GetNumThousands(n: nat)
    ensures GetNum("Rp " + NatToString(n) + "k") == Ok(1000 * n)
  {
    GetNumOfDigitsK(NatToString(n));
    NatToStringValue(n);
  }

  lemma GroupedChars(da: string, db: string)
    requires AllDigits(da) && AllDigits(db)
    ensures var body := da + "." + db; forall k :: 0 <= k < |body| ==> IsAmountChar(body[k])
  {
    var body := da + "." + db;
    forall k | 0 <= k < |body| ensures IsAmountChar(body[k]) {
      if k < |da| { assert body[k] == da[k]; }
      else if k > |da| { assert body[k] == db[k - |da| - 1]; }
    }
  }

  lemma GroupedDrop(da: string, db: string)
    requires AllDigits(da) && AllDigits(db)
    ensures DropSeparators(da + "." + db) == da + db
  {
    var dot: string := ".";
    assert DropSeparators(dot) == [] by {
      assert dot[1..] == [];
    }
    calc {
      DropSeparators(da + dot + db);
    == { assert da + dot + db == da + (dot + db); DropSeparatorsAppend(da, dot + db); }
      DropSeparators(da) + DropSeparators(dot + db);
    == { DropSeparatorsAppend(dot, db); }
      DropSeparators(da) + (DropSeparators(dot) + DropSeparators(db));
    == { DropSeparatorsOfDigits(da); DropSeparatorsOfDigits(db); }
      da + ([] + db);
    }
    assert [] + db == db;
  }

  /** Thousands separators are deleted: `"Rp " + da + "." + db` reads as
      the digits of `da` followed by those of `db`. */
  lemma GetNumOfGroupedDigits(da: string, db: string)
    requires da != [] && AllDigits(da) && AllDigits(db)
    ensures GetNum("Rp " + da + "." + db) == Ok(DigitsValue(da + db))
  {
    GroupedChars(da, db);
    GroupedDrop(da, db);
    AmountOfRpBody(da + "." + db, DigitsValue(da + db));
    assert "Rp " + da + "." + db == "Rp " + (da + "." + db);
  }

  /** In particular `"Rp " + str(a) + "." + three digits of b` reads as
      `1000 * a + b`. */
  lemma GetNumGrouped(a: nat, b: nat)
    requires b < 1000
    ensures GetNum("Rp " + NatToString(a) + "." + PadNat(b, 3)) == Ok(1000 * a + b)
  {
    NatToStringBound(b, 3);
    GetNumOfGroupedDigits(NatToString(a), PadNat(b, 3));
    GroupedValue(a, b);
  }

  lemma GroupedValue(a: nat, b: nat)
    requires b < 1000
    ensures DigitsValue(NatToString(a) + PadNat(b, 3)) == 1000 * a + b
  {
    var da, db := NatToString(a), PadNat(b, 3);
    NatToStringBound(b, 3);
    DigitsValueAppend(da, db);
    assert Pow10(|db|) == 1000;
    NatToStringValue(a);
    PadNatValue(b, 3);
  }

  /** Group 1 made only of separators, as in `"Rp ."`, is where `float('')`
      raises. */
  lemma GetNumOnlySeparators(body: string)
    requires body != [] && forall k :: 0 <= k < |body| ==> body[k] == '.' || body[k] == ','
    ensures GetNum("Rp " + body).Err?
  {
    var s := "Rp " + body;
    assert s == "Rp " + body + "";
    MatchRpPrefix(body, "");
    assert s[3..3 + |body|] == body;
    DropSeparatorsEmpty(body);
  }

  lemma {:induction false} DropSeparatorsEmpty(t: string)
    requires forall k :: 0 <= k < |t| ==> t[k] == '.' || t[k] == ','
    ensures DropSeparators(t) == []
  {
    if t != [] {
      DropSeparatorsEmpty(t[1..]);
    }
  }

  lemma GetNumExampleThousands()
    ensures GetNum("Rp 50k") == Ok(50000)
  {
    FiftyParts();
    GetNumOfDigitsK("50");
  }

  lemma FiftyParts()
    ensures AllDigits("50") && DigitsValue("50") == 50 && "Rp " + "50" + "k" == "Rp 50k"
  {
    assert DigitsValue("5") == 5;
  }

  lemma GetNumExampleGrouped()
    ensures GetNum("Rp 12.500") == Ok(12500)
  {
    TwelveFiveHundredParts();
    GetNumOfGroupedDigits("12", "500");
  }

  lemma TwelveFiveHundredParts()
    ensures AllDigits("12") && AllDigits("500") && "Rp " + "12" + "." + "500" == "Rp 12.500"
    ensures DigitsValue("12" + "500") == 12500
  {
    DigitsValueAppend("12", "500");
    assert DigitsValue("12") == 12;
    assert DigitsValue("500") == 500;
    assert Pow10(3) == 1000;
  }

  lemma GetNumExampleBareNumber()
    ensures GetNum("150000") == Ok(0)
  {
    GetNumWithoutR("150000");
  }

  lemma GetNumExampleSeparatorOnly()
    ensures GetNum("Rp .").Err?
  {
    GetNumOnlySeparators(".");
    assert "Rp " + "." == "Rp .";
  }

  // ---------------------------------------------------------------------
  // format_phone_number
  // ---------------------------------------------------------------------

  /** `re.sub(r'\D', '', s)` */
  function DigitsOnly(s: string): (r: string)
    ensures AllDigits(r)
  {
    if s == [] then [] else (if IsDigit(s[0]) then [s[0]] else []) + DigitsOnly(s[1..])
  }

  /** `format_phone_number(phone)`: empty stays empty; otherwise the digits,
      with a leading `0` replaced by `62` and `62` put in front of any other
      number that does not already start with it. */
  function FormatPhone(phone: string): (r: string)
    ensures phone == [] <==> r == []
    ensures phone != [] ==> AllDigits(r) && StartsWith(r, "62")
  {
    if phone == [] then []
    else
      var c := DigitsOnly(phone);
      if StartsWith(c, "0") then "62" + c[1..]
      else if !StartsWith(c, "62") then "62" + c
      else c
  }

  lemma {:induction false} DigitsOnlyOfDigits(s: string)
    requires AllDigits(s)
    ensures DigitsOnly(s) == s
  {
    if s != [] {
      DigitsOnlyOfDigits(s[1..]);
    }
  }

  /** Normalising twice is normalising once. */
  lemma FormatPhoneIdempotent(phone: string)
    ensures FormatPhone(FormatPhone(phone)) == FormatPhone(phone)
  {
    var r := FormatPhone(phone);
    if r != [] {
      DigitsOnlyOfDigits(r);
      assert r[0] == '6';
    }
  }

  /** The local form `0…` and the international form `62…` of one number
      normalise to the same string. */
  lemma FormatPhoneLocalEqualsInternational(national: string)
    requires AllDigits(national)
    ensures FormatPhone("0" + national) == FormatPhone("62" + national) == "62" + national
  {
    DigitsOnlyOfDigits("0" + national);
    DigitsOnlyOfDigits("62" + national);
    assert ("0" + national)[1..] == national;
  }

  /** Any other number keeps all its digits behind a new `62`. */
  lemma FormatPhonePrepends(n: string)
    requires n != [] && AllDigits(n) && !StartsWith(n, "0") && !StartsWith(n, "62")
    ensures FormatPhone(n) == "62" + n
  {
    DigitsOnlyOfDigits(n);
  }

  /** Only the digits of the input matter. */
  lemma FormatPhoneIgnoresPunctuation(a: string, b: string)
    requires a != [] && b != [] && DigitsOnly(a) == DigitsOnly(b)
    ensures FormatPhone(a) == FormatPhone(b)
  {
  }

  // ---------------------------------------------------------------------
  // SHIP_LOOKUP
  // ---------------------------------------------------------------------

  const ShipLookup: map<string, string> := map[
    "id" := "ID Express", "idx" := "ID Express", "id express" := "ID Express",
    "sap" := "SAP Logistic", "ninja" := "Ninja Xpress", "jne" := "JNE",
    "jnt" := "J&T Express", "j&t" := "J&T Express", "spx" := "SPX"]

  /** `SHIP_LOOKUP.get(name.lower(), name)` */
  function CanonicalExpedition(name: string): (r: string)
    ensures r == name || r in ShipLookup.Values
  {
    var key := Lower(name);
    if key in ShipLookup then ShipLookup[key] else name
  }

  /** The lookup ignores case: names that differ only in case agree, and a
      known synonym in any casing gives its table entry. */
  lemma CanonicalExpeditionIgnoresCase(a: string, b: string)
    requires Lower(a) == Lower(b) && Lower(a) in ShipLookup
    ensures CanonicalExpedition(a) == CanonicalExpedition(b) == ShipLookup[Lower(a)]
  {
  }

  /** Unknown names pass through unchanged, in their original case. */
  lemma CanonicalExpeditionUnknown(name: string)
    requires Lower(name) !in ShipLookup
    ensures CanonicalExpedition(name) == name
  {
  }

  /** Every canonical name is its own canonical name, so canonicalising twice
      is canonicalising once. */
  lemma CanonicalExpeditionIdempotent(name: string)
    ensures CanonicalExpedition(CanonicalExpedition(name)) == CanonicalExpedition(name)
  {
    var key := Lower(name);
    if key in ShipLookup {
      var v := ShipLookup[key];
      assert v in {"ID Express", "SAP Logistic", "Ninja Xpress", "JNE", "J&T Express", "SPX"};
      if v == "ID Express" {
        assert Lower(v) == "id express";
      } else if v == "SAP Logistic" {
        assert Lower(v)[3] == ' ';
        assert Lower(v) !in ShipLookup;
      } else if v == "Ninja Xpress" {
        assert Lower(v)[5] == ' ';
        assert Lower(v) !in ShipLookup;
      } else if v == "JNE" {
        assert Lower(v) == "jne";
      } else if v == "J&T Express" {
        assert Lower(v)[3] == ' ';
        assert Lower(v) != "id express";
        assert Lower(v) !in ShipLookup;
      } else {
        assert Lower(v) == "spx";
      }
    }
  }
}
