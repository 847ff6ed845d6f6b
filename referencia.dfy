/**
 The reference-period resolver: from an optional (month, year) pair, today's
 date and the provider's reference table (newest entry first) to the numeric
 code of the matching table, or one of the resolver's errors.
 */
module Referencia {
  import opened Wrappers
  import opened PyText
  import opened Fipe
  import opened Seqs

  /** The month-name table `meses_do_ano`, months 1..12. */
  predicate ValidMonths(months: seq<string>)
  {
    |months| == 12
  }

  /** Month names as the provider writes them: non-empty, not starting with
      whitespace, free of `/`, and pairwise distinct. */
  predicate WellFormedMonths(months: seq<string>)
  {
    && ValidMonths(months)
    && (forall i :: 0 <= i < 12 ==> |months[i]| > 0 && !IsSpace(months[i][0]) && '/' !in months[i])
    && (forall i, j :: 0 <= i < j < 12 ==> months[i] != months[j])
  }

  function MonthName(months: seq<string>, m: int): string
    requires ValidMonths(months) && 1 <= m <= 12
  {
    months[m - 1]
  }

  /** The label looked for in the table: `f'{meses_do_ano[mes]}/{ano}'`. */
  function SearchLabel(months: seq<string>, m: int, y: int): string
    requires ValidMonths(months) && 1 <= m <= 12
  {
    MonthName(months, m) + "/" + ShowInt(y)
  }

  /** `item['Mes'].strip() == search`. */
  function LabelIs(search: string): RefEntry -> bool
  {
    (e: RefEntry) => Strip(e.mes) == search
  }

  /** The value the scan leaves in `codigo_tabela_referencia`: the code of the
      first entry whose trimmed label is `search`, or 0. */
  function FirstCode(table: seq<RefEntry>, search: string): int
  {
    match FirstIndex(table, LabelIs(search))
    case None => 0
    case Some(i) => table[i].codigo
  }

  /** `int(tabela[-1]['Mes'].split("/")[1])`, the first year of the series;
      `None` where Python raises. */
  function OldestYear(table: seq<RefEntry>): Option<int>
  {
    if |table| == 0 then None
    else
      var parts := Split(table[|table| - 1].mes, '/');
      if |parts| < 2 then None else ParseInt(parts[1])
  }

  /** The check of `_pega_cache_tabela`: the newest entry is today's month. */
  predicate IsFresh(months: seq<string>, table: seq<RefEntry>, today: Date)
    requires ValidMonths(months) && ValidDate(today)
  {
    && |table| > 0
    && var parts := Split(table[0].mes, '/');
       && MonthName(months, today.month) == parts[0]
       && |parts| >= 2
       && ParseInt(parts[1]) == Some(today.year)
  }

  /** A month or year argument that is neither `None` nor below 1. */
  predicate Given(o: Option<int>)
  {
    o.Some? && o.value >= 1
  }

  function EffectiveMonth(mes: Option<int>, today: Date): int
  {
    if Given(mes) then mes.value else today.month
  }

  function EffectiveYear(ano: Option<int>, today: Date): int
  {
    if Given(ano) then ano.value else today.year
  }

  /** The scan and its final check: the first matching entry's code, or
      `ValueNotFound` when no entry matches or the matching code is 0. */
  function Scan(table: seq<RefEntry>, search: string): Result<Option<int>>
  {
    var code := FirstCode(table, search);
    if code == 0 then Err(ValueNotFound) else Ok(Some(code))
  }

  /** The scan of `_pega_codigo_referencia`: the code of the first entry whose
      trimmed label is `search`, or 0. */
  method BuscaCodigo(table: seq<RefEntry>, search: string) returns (codigo: int)
    ensures codigo == FirstCode(table, search)
  {
    codigo := 0;
    var i := 0;
    while i < |table|
      invariant 0 <= i <= |table|
      invariant forall j :: 0 <= j < i ==> !LabelIs(search)(table[j])
    {
      var name := Strip(table[i].mes);
      if name == search {
        ScanHit(table, search, i);
        codigo := table[i].codigo;
        return;
      }
      ScanMiss(table, search, i);
      i := i + 1;
    }
    ScanExhausted(table, search);
  }

  /** The scan's hit: the first entry whose trimmed label is `search`. */
  lemma ScanHit(table: seq<RefEntry>, search: string, i: nat)
    requires i < |table| && Strip(table[i].mes) == search
    requires forall j :: 0 <= j < i ==> !LabelIs(search)(table[j])
    ensures FirstCode(table, search) == table[i].codigo
  {
    FirstIndexUnique(table, LabelIs(search), i);
  }

  /** The scan's miss: the entries passed so far all carry other labels. */
  lemma ScanMiss(table: seq<RefEntry>, search: string, i: nat)
    requires i < |table| && Strip(table[i].mes) != search
    requires forall j :: 0 <= j < i ==> !LabelIs(search)(table[j])
    ensures forall j :: 0 <= j < i + 1 ==> !LabelIs(search)(table[j])
  {
  }

  /** The scan's end: no entry carries the label, so the code stays 0. */
  lemma ScanExhausted(table: seq<RefEntry>, search: string)
    requires forall j :: 0 <= j < |table| ==> !LabelIs(search)(table[j])
    ensures FirstCode(table, search) == 0
  {
  }

  /** `_pega_codigo_referencia`. `Ok(None)` is its `return False`, taken when
      an explicit year is given and the oldest entry's year cannot be read. */
  function ResolveReference(months: seq<string>, table: seq<RefEntry>, mes: Option<int>, ano: Option<int>,
                            today: Date): Result<Option<int>>
    requires ValidMonths(months) && ValidDate(today)
  {
    if Given(mes) && mes.value > 12 then Err(IncorrectValue)
    else if Given(ano) && ano.value > today.year then Err(IncorrectValue)
    else if Given(ano) && OldestYear(table).None? then Ok(None)
    else if Given(ano) && ano.value < OldestYear(table).value then Err(IncorrectValue)
    else Scan(table, SearchLabel(months, EffectiveMonth(mes, today), EffectiveYear(ano, today)))
  }

  // ---------------------------------------------------------------- lemmas

  /** Defaulting: a missing month, or one below 1, means the current month. */
  lemma MissingMonthDefaults(months: seq<string>, table: seq<RefEntry>, mes: Option<int>, ano: Option<int>,
                             today: Date)
    requires ValidMonths(months) && ValidDate(today)
    requires !Given(mes)
    ensures ResolveReference(months, table, mes, ano, today)
         == ResolveReference(months, table, Some(today.month), ano, today)
  {
  }

  /** Bounds: a month above 12 or a future year is an `IncorrectValue`, and so
      is a year before the first year of the series. */
  lemma OutOfBoundsRejected(months: seq<string>, table: seq<RefEntry>, mes: Option<int>, ano: Option<int>,
                            today: Date)
    requires ValidMonths(months) && ValidDate(today)
    ensures Given(mes) && mes.value > 12 ==> ResolveReference(months, table, mes, ano, today) == Err(IncorrectValue)
    ensures Given(ano) && ano.value > today.year
            ==> ResolveReference(months, table, mes, ano, today) == Err(IncorrectValue)
    ensures Given(ano) && OldestYear(table).Some? && ano.value < OldestYear(table).value
            ==> ResolveReference(months, table, mes, ano, today) == Err(IncorrectValue)
  {
  }

  /** Within bounds the result is the scan for the effective month and year.
      The first year of the series is consulted only for an explicit year: a
      defaulted year is never checked against it. */
  lemma InBoundsIsScan(months: seq<string>, table: seq<RefEntry>, mes: Option<int>, ano: Option<int>, today: Date)
    requires ValidMonths(months) && ValidDate(today)
    requires !(Given(mes) && mes.value > 12)
    requires Given(ano) ==> ano.value <= today.year && OldestYear(table).Some? && OldestYear(table).value <= ano.value
    ensures 1 <= EffectiveMonth(mes, today) <= 12
    ensures ResolveReference(months, table, mes, ano, today)
         == Scan(table, SearchLabel(months, EffectiveMonth(mes, today), EffectiveYear(ano, today)))
  {
    assert !(Given(ano) && ano.value > today.year);
    assert !(Given(ano) && OldestYear(table).None?);
  }

  /** An explicit year with an unreadable oldest entry yields the source's
      `False` (here `Ok(None)`) instead of an error. */
  lemma UnreadableOldestYear(months: seq<string>, table: seq<RefEntry>, mes: Option<int>, ano: Option<int>,
                             today: Date)
    requires ValidMonths(months) && ValidDate(today)
    requires !(Given(mes) && mes.value > 12)
    requires Given(ano) && ano.value <= today.year && OldestYear(table).None?
    ensures ResolveReference(months, table, mes, ano, today) == Ok(None)
  {
  }

  /** A resolved code is the code of the first table entry whose trimmed label
      is "<MonthName>/<year>" for the effective month and year, and is not 0. */
  lemma ResolvedIsFirstMatch(months: seq<string>, table: seq<RefEntry>, mes: Option<int>, ano: Option<int>,
                             today: Date, c: int)
    requires ValidMonths(months) && ValidDate(today)
    requires ResolveReference(months, table, mes, ano, today) == Ok(Some(c))
    ensures 1 <= EffectiveMonth(mes, today) <= 12
    ensures var search := SearchLabel(months, EffectiveMonth(mes, today), EffectiveYear(ano, today));
            exists i :: 0 <= i < |table| && Strip(table[i].mes) == search && table[i].codigo == c && c != 0
                        && forall j :: 0 <= j < i ==> Strip(table[j].mes) != search
  {
    var search := SearchLabel(months, EffectiveMonth(mes, today), EffectiveYear(ano, today));
    assert Scan(table, search) == Ok(Some(c));
    var i := FirstIndex(table, LabelIs(search)).value;
    assert LabelIs(search)(table[i]);
    forall j | 0 <= j < i ensures Strip(table[j].mes) != search {
      assert !LabelIs(search)(table[j]);
    }
  }

  /** The scan fails with `ValueNotFound` when no entry carries the label. */
  lemma ScanNoMatch(table: seq<RefEntry>, search: string)
    requires forall j :: 0 <= j < |table| ==> Strip(table[j].mes) != search
    ensures Scan(table, search) == Err(ValueNotFound)
  {
    assert forall j :: 0 <= j < |table| ==> !LabelIs(search)(table[j]);
  }

  /** The first entry carrying the label decides the scan, even when its code
      is 0 and a later entry carries the label too. */
  lemma ScanFirstMatch(table: seq<RefEntry>, search: string, i: nat)
    requires i < |table| && Strip(table[i].mes) == search
    requires forall j :: 0 <= j < i ==> Strip(table[j].mes) != search
    ensures Scan(table, search) == if table[i].codigo == 0 then Err(ValueNotFound) else Ok(Some(table[i].codigo))
  {
    var p := LabelIs(search);
    assert p(table[i]);
    assert forall j :: 0 <= j < i ==> !p(table[j]);
    FirstIndexUnique(table, p, i);
  }

  /** With well-formed month names, the searched label names one period:
      different (month, year) pairs are looked up under different labels. */
  lemma SearchLabelInjective(months: seq<string>, m1: int, y1: int, m2: int, y2: int)
    requires WellFormedMonths(months) && 1 <= m1 <= 12 && 1 <= m2 <= 12
    requires SearchLabel(months, m1, y1) == SearchLabel(months, m2, y2)
    ensures m1 == m2 && y1 == y2
  {
    var l := SearchLabel(months, m1, y1);
    assert l == months[m1 - 1] + ['/'] + ShowInt(y1);
    assert l == months[m2 - 1] + ['/'] + ShowInt(y2);
    ShowNoSlash(y1);
    ShowNoSlash(y2);
    SplitAtFirst(months[m1 - 1], '/', ShowInt(y1));
    SplitAtFirst(months[m2 - 1], '/', ShowInt(y2));
    SplitNoSeparator(ShowInt(y1), '/');
    SplitNoSeparator(ShowInt(y2), '/');
    var parts := Split(l, '/');
    assert parts == [months[m1 - 1], ShowInt(y1)];
    assert parts == [months[m2 - 1], ShowInt(y2)];
    assert months[m1 - 1] == months[m2 - 1];
    ShowIntInjective(y1, y2);
  }

  lemma ShowNoSlash(y: int)
    ensures '/' !in ShowInt(y)
  {
    var s := ShowInt(y);
    if y >= 0 {
      assert forall i :: 0 <= i < |s| ==> IsDigit(s[i]);
    } else {
      assert s == "-" + ShowNat(-y);
      assert forall i :: 1 <= i < |s| ==> IsDigit(s[i]);
    }
  }

  /** A provider label "MonthName/YYYY" followed by whitespace splits into the
      month name and the year text, and the year text reads back as the year. */
  lemma WireLabelSplit(months: seq<string>, m: int, y: int, pad: string)
    requires WellFormedMonths(months) && 1 <= m <= 12 && AllSpace(pad)
    ensures var parts := Split(SearchLabel(months, m, y) + pad, '/');
            |parts| == 2 && parts[0] == MonthName(months, m) && ParseInt(parts[1]) == Some(y)
  {
    var name := months[m - 1];
    var tail := ShowInt(y) + pad;
    LabelShape(months, m, y, pad);
    SplitAtFirst(name, '/', tail);
    TailNoSlash(y, pad);
    SplitNoSeparator(tail, '/');
    ParseShowPadded(y, pad);
  }

  lemma LabelShape(months: seq<string>, m: int, y: int, pad: string)
    requires ValidMonths(months) && 1 <= m <= 12
    ensures SearchLabel(months, m, y) + pad == months[m - 1] + ['/'] + (ShowInt(y) + pad)
  {
    assert SearchLabel(months, m, y) == months[m - 1] + ['/'] + ShowInt(y);
  }

  lemma TailNoSlash(y: int, pad: string)
    requires AllSpace(pad)
    ensures '/' !in ShowInt(y) + pad
  {
    ShowNoSlash(y);
    assert forall i :: 0 <= i < |pad| ==> IsSpace(pad[i]);
    var tail := ShowInt(y) + pad;
    assert forall i :: 0 <= i < |tail| ==> tail[i] == if i < |ShowInt(y)| then ShowInt(y)[i] else pad[i - |ShowInt(y)|];
  }

  lemma LastDigit(y: int)
    ensures IsDigit(ShowInt(y)[|ShowInt(y)| - 1])
  {
    var s := ShowInt(y);
    if y < 0 {
      var t := ShowNat(-y);
      assert s == "-" + t;
      assert s[|s| - 1] == t[|t| - 1];
    }
  }

  /** Trimming a provider label recovers the label the scan looks for. */
  lemma WireLabelStrip(months: seq<string>, m: int, y: int, pad: string)
    requires WellFormedMonths(months) && 1 <= m <= 12 && AllSpace(pad)
    ensures Strip(SearchLabel(months, m, y) + pad) == SearchLabel(months, m, y)
  {
    var l := SearchLabel(months, m, y);
    var s := ShowInt(y);
    LastDigit(y);
    assert l[0] == months[m - 1][0];
    assert l[|l| - 1] == s[|s| - 1];
    StripPadded(l, pad);
  }

  /** A table whose newest entry is today's month, written the provider's way,
      passes the freshness check of the cached table. */
  lemma WireNewestIsFresh(months: seq<string>, table: seq<RefEntry>, today: Date, pad: string)
    requires WellFormedMonths(months) && ValidDate(today) && AllSpace(pad)
    requires |table| > 0 && table[0].mes == SearchLabel(months, today.month, today.year) + pad
    ensures IsFresh(months, table, today)
  {
    WireLabelSplit(months, today.month, today.year, pad);
  }

  /** The first year of a table whose oldest entry is written the provider's
      way is read back as that entry's year. */
  lemma WireOldestYear(months: seq<string>, table: seq<RefEntry>, m: int, y: int, pad: string)
    requires WellFormedMonths(months) && 1 <= m <= 12 && AllSpace(pad)
    requires |table| > 0 && table[|table| - 1].mes == SearchLabel(months, m, y) + pad
    ensures OldestYear(table) == Some(y)
  {
    WireLabelSplit(months, m, y, pad);
  }
}
