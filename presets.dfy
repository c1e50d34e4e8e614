/** The static preset table and the text of the preset drop-down: the items
    "<kHz/100>.<kHz%100, two digits>" joined by ';', as build writes them. */
module PresetTable {
  import opened Numbers

  /** PRESETS, in 10 kHz units (8810 is 88.10 MHz). */
  const Presets: seq<uint16> := [8810, 9050, 9240, 9450, 9630, 9870, 10010, 10230, 10470, 10790]

  /** PRESETS_N, the number of entries of PRESETS (see PresetTableFacts). */
  const PresetCount: nat := 10

  /** Size of the buffer each item is printed into. */
  const ItemBufferSize: nat := 8

  /** A table build's loop can walk: its counter is a uint8_t. */
  predicate LoopableTable(table: seq<uint16>) { |table| < 0x100 }

  lemma PresetTableFacts()
    ensures |Presets| == PresetCount && LoopableTable(Presets)
    ensures forall i :: 0 <= i < PresetCount ==> 8810 <= Presets[i] <= 10790
    ensures forall i, j :: 0 <= i < j < PresetCount ==> Presets[i] < Presets[j]
  {
  }

  // ---------- one item ----------

  /** printf's zero flag with a field width: left-pad with '0' up to width. */
  function ZeroPad(s: string, width: nat): (r: string)
    ensures |r| == if |s| >= width then |s| else width
    ensures r[|r| - |s|..] == s
    ensures forall i :: 0 <= i < |r| - |s| ==> r[i] == '0'
  {
    if |s| >= width then s else Zeros(width - |s|) + s
  }

  /** n zero characters. */
  function Zeros(n: nat): (z: string)
    ensures |z| == n && forall i :: 0 <= i < n ==> z[i] == '0'
  {
    seq(n, _ => '0')
  }

  /** "%u.%02u" of kHz / 100 and kHz % 100. */
  function Label(khz: uint16): string
  {
    Decimal(khz / 100) + "." + ZeroPad(Decimal(khz % 100), 2)
  }

  /** snprintf into a buffer of size bytes keeps at most size - 1 characters
      (the last byte holds the terminating NUL). */
  function Snprintf(s: string, size: nat): (r: string)
    requires size >= 1
    ensures |r| < size && r <= s
    ensures |s| < size ==> r == s
    ensures |s| >= size ==> |r| == size - 1
  {
    if |s| < size then s else s[..size - 1]
  }

  /** The text one loop iteration appends for khz. */
  function Item(khz: uint16): string
  {
    Snprintf(Label(khz), ItemBufferSize)
  }

  /** The two-digit fraction field. */
  lemma FractionField(m: nat)
    requires m < 100
    ensures var f := ZeroPad(Decimal(m), 2); |f| == 2 && AllDigits(f) && DigitsValue(f) == m
  {
    DecimalLength(m, 2);
    DecimalValue(m);
    if m < 10 {
      assert ZeroPad(Decimal(m), 2) == ['0'] + Decimal(m);
    }
  }

  /** Every uint16_t renders in at most 6 characters ("655.35"), so the
      8-byte buffer never truncates an item. */
  lemma {:induction false} LabelFits(khz: uint16)
    ensures |Label(khz)| <= 6 < ItemBufferSize
    ensures Item(khz) == Label(khz)
  {
    DecimalLength(khz / 100, 3);
    FractionField(khz % 100);
  }

  /** Reads an item back into 10 kHz units; None for text of another shape. */
  function ParseLabel(s: string): (r: Option<nat>)
    ensures r.Some? ==> |s| >= 4 && s[|s| - 3] == '.'
  {
    if |s| >= 4 && s[|s| - 3] == '.' && AllDigits(s[..|s| - 3]) && AllDigits(s[|s| - 2..])
    then Some(100 * DigitsValue(s[..|s| - 3]) + DigitsValue(s[|s| - 2..]))
    else None
  }

  datatype Option<T> = None | Some(value: T)

  lemma ParseJoined(whole: string, frac: string)
    requires AllDigits(whole) && |whole| >= 1 && |frac| == 2 && AllDigits(frac)
    ensures ParseLabel(whole + "." + frac) == Some(100 * DigitsValue(whole) + DigitsValue(frac))
  {
    LabelSlices(whole, frac);
  }

  /** Where the whole part, the dot and the fraction sit in a label. */
  lemma LabelSlices(whole: string, frac: string)
    requires |frac| == 2
    ensures var s := whole + "." + frac;
      |s| >= 3 && s[|s| - 3] == '.' && s[..|s| - 3] == whole && s[|s| - 2..] == frac
  {
    var s := whole + "." + frac;
    assert s[..|s| - 3] == whole;
    assert s[|s| - 2..] == frac;
  }

  lemma ParseLabelParts(khz: uint16, whole: string, frac: string)
    requires whole == Decimal(khz / 100) && frac == ZeroPad(Decimal(khz % 100), 2)
    ensures ParseLabel(whole + "." + frac) == Some(khz as nat)
  {
    DecimalValue(khz / 100);
    FractionField(khz % 100);
    ParseJoined(whole, frac);
  }

  /** Items denote their frequency exactly: reading one back gives kHz. */
  lemma ParseLabelRoundTrip(khz: uint16)
    ensures ParseLabel(Label(khz)) == Some(khz as nat)
  {
    LabelParts(khz);
    ParseLabelParts(khz, Decimal(khz / 100), ZeroPad(Decimal(khz % 100), 2));
  }

  // ---------- the whole list ----------

  /** The texts the loop appends, one per table entry. */
  function Items(table: seq<uint16>): (r: seq<string>)
    ensures |r| == |table|
  {
    seq(|table|, i requires 0 <= i < |table| => Item(table[i]))
  }

  /** The list string after the first n iterations of build's loop over the
      item texts: iteration i appends ';' unless i == 0, then items[i]. */
  function Joined(items: seq<string>, n: nat): string
    requires n <= |items|
  {
    if n == 0 then ""
    else Joined(items, n - 1) + (if n - 1 != 0 then ";" else "") + items[n - 1]
  }

  /** The drop-down text for a table: the result of the whole loop. */
  function PresetList(table: seq<uint16>): string
  {
    Joined(Items(table), |table|)
  }

  /** build's loop, as written: a uint8_t counter, a ';' before every item
      but the first, each item printed into an 8-byte buffer. */
  method BuildPresetList(table: seq<uint16>) returns (list: string)
    requires LoopableTable(table)
    ensures list == PresetList(table)
  {
    list := "";
    var i: uint8 := 0;
    while i < |table|
      invariant i <= |table|
      invariant list == Joined(Items(table), i)
    {
      if i != 0 {
        list := list + ";";
      }
      var khz := table[i];
      var buf := Snprintf(Label(khz), ItemBufferSize);
      list := list + buf;
      i := i + 1;
    }
  }

  // ---------- splitting the list at ';' ----------

  /** The fields of s between ';' separators (a split that keeps empty fields). */
  function Split(s: string): (r: seq<string>)
    ensures |r| >= 1
  {
    if s == [] then [""]
    else if s[|s| - 1] == ';' then Split(s[..|s| - 1]) + [""]
    else
      var r0 := Split(s[..|s| - 1]);
      r0[..|r0| - 1] + [r0[|r0| - 1] + [s[|s| - 1]]]
  }

  /** Number of occurrences of c in s. */
  function Count(s: string, c: char): (n: nat)
    ensures n <= |s|
  {
    if s == [] then 0 else Count(s[..|s| - 1], c) + (if s[|s| - 1] == c then 1 else 0)
  }

  predicate NoSeparator(s: string) { forall i :: 0 <= i < |s| ==> s[i] != ';' }

  lemma {:induction false} SplitField(s: string)
    requires NoSeparator(s)
    ensures Split(s) == [s]
  {
    if s != [] {
      SplitField(s[..|s| - 1]);
      assert s[..|s| - 1] + [s[|s| - 1]] == s;
    }
  }

  lemma {:induction false} SplitAppend(a: string, b: string)
    requires NoSeparator(b)
    ensures Split(a + ";" + b) == Split(a) + [b]
  {
    var s := a + ";" + b;
    if b == [] {
      assert s[..|s| - 1] == a;
    } else {
      var b' := b[..|b| - 1];
      assert s[..|s| - 1] == a + ";" + b';
      SplitAppend(a, b');
      assert b' + [b[|b| - 1]] == b;
    }
  }

  lemma {:induction false} CountAppend(a: string, b: string, c: char)
    ensures Count(a + b, c) == Count(a, c) + Count(b, c)
  {
    if b == [] {
      assert a + b == a;
    } else {
      assert (a + b)[..|a + b| - 1] == a + b[..|b| - 1];
      assert (a + b)[|a + b| - 1] == b[|b| - 1];
      CountAppend(a, b[..|b| - 1], c);
    }
  }

  lemma {:induction false} CountAbsent(s: string)
    requires NoSeparator(s)
    ensures Count(s, ';') == 0
  {
    if s != [] {
      CountAbsent(s[..|s| - 1]);
    }
  }

  /** Joining n separator-free texts gives a string that splits back into
      exactly those n texts. */
  lemma {:induction false} JoinedSplit(items: seq<string>, n: nat)
    requires 1 <= n <= |items|
    requires forall i :: 0 <= i < |items| ==> NoSeparator(items[i])
    ensures Split(Joined(items, n)) == items[..n]
  {
    var last := items[n - 1];
    if n == 1 {
      assert Joined(items, 1) == last;
      SplitField(last);
    } else {
      var prev := Joined(items, n - 1);
      JoinedSplit(items, n - 1);
      assert Joined(items, n) == prev + ";" + last;
      SplitAppend(prev, last);
      assert items[..n - 1] + [last] == items[..n];
    }
  }

  /** ... and holds n - 1 semicolons. */
  lemma {:induction false} JoinedCount(items: seq<string>, n: nat)
    requires 1 <= n <= |items|
    requires forall i :: 0 <= i < |items| ==> NoSeparator(items[i])
    ensures Count(Joined(items, n), ';') == n - 1
  {
    var last := items[n - 1];
    CountAbsent(last);
    if n == 1 {
      assert Joined(items, 1) == last;
    } else {
      var prev := Joined(items, n - 1);
      JoinedCount(items, n - 1);
      assert Joined(items, n) == prev + ";" + last;
      CountAppend(prev + ";", last, ';');
      CountAppend(prev, ";", ';');
    }
  }

  lemma JoinedHasNoSeparator(whole: string, frac: string)
    requires AllDigits(whole) && AllDigits(frac)
    ensures NoSeparator(whole + "." + frac)
  {
    var s := whole + "." + frac;
    forall i | 0 <= i < |s| ensures s[i] != ';' {
      if i < |whole| { assert s[i] == whole[i]; }
      else if i > |whole| { assert s[i] == frac[i - |whole| - 1]; }
    }
  }

  lemma ItemHasNoSeparator(khz: uint16)
    ensures NoSeparator(Item(khz))
  {
    var whole := Decimal(khz / 100);
    var frac := ZeroPad(Decimal(khz % 100), 2);
    FractionField(khz % 100);
    JoinedHasNoSeparator(whole, frac);
    LabelFits(khz);
    assert Label(khz) == whole + "." + frac;
  }

  /** The drop-down text holds exactly one item per preset, in table order,
      each the untruncated label, with one ';' between neighbours and none
      elsewhere. */
  lemma PresetListFields(table: seq<uint16>)
    requires |table| >= 1
    ensures |Split(PresetList(table))| == |table|
    ensures forall i :: 0 <= i < |table| ==> Split(PresetList(table))[i] == Label(table[i])
    ensures Count(PresetList(table), ';') == |table| - 1
  {
    var items := Items(table);
    forall i | 0 <= i < |items| ensures NoSeparator(items[i]) && items[i] == Label(table[i]) {
      ItemHasNoSeparator(table[i]);
      LabelFits(table[i]);
    }
    JoinedSplit(items, |table|);
    JoinedCount(items, |table|);
    assert items[..|table|] == items;
  }

  /** A solver hint: Label's definition as an equation, for lemmas that
      must not unfold Label themselves. */
  lemma LabelParts(khz: uint16)
    ensures Label(khz) == Decimal(khz / 100) + "." + ZeroPad(Decimal(khz % 100), 2)
  {
  }

  /** The first and last presets of the firmware's table as they appear in
      the list: 8810 is "88.10", 10790 is "107.90". */
  lemma FirstAndLastLabels()
    ensures Label(8810) == "88.10" && Label(10790) == "107.90"
  {
    assert Decimal(88) == Decimal(8) + [DigitChar(8)] == "88";
    assert Decimal(10) == Decimal(1) + [DigitChar(0)] == "10";
    assert Decimal(107) == Decimal(10) + [DigitChar(7)] == "107";
    assert Decimal(90) == Decimal(9) + [DigitChar(0)] == "90";
    var ten, ninety := ZeroPad("10", 2), ZeroPad("90", 2);
    assert ten == "10" && ninety == "90";
    assert "88" + "." + ten == "88.10";
    assert "107" + "." + ninety == "107.90";
    LabelParts(8810);
    LabelParts(10790);
  }
}
