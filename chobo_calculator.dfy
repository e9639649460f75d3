/** ChoboCalculator (src/main.ts): builds the general ledger (総勘定元帳)
    from the journal, the trial balance (試算表) from the ledger, and selects
    the trial-balance rows of one financial statement. The sheets the
    calculator reads are passed in as the rows their getRecords() returns. */
module ChoboCalculator {
  import opened Wrappers
  import opened CommonUtils
  import opened ChoboModel

  // ---------------------------------------------------------------------
  // Sort keys
  // ---------------------------------------------------------------------

  function ShiwakeDate(e: Shiwake): int
  {
    e.date
  }

  function SoukanjoKamokuOrder(r: Soukanjo): int
  {
    r.kamokuOrder
  }

  function SoukanjoKamoku(r: Soukanjo): string
  {
    r.kamoku
  }

  function SoukanjoDate(r: Soukanjo): int
  {
    r.date
  }

  function ShisanOrder(s: Shisan): int
  {
    s.order
  }

  /** Journal entries: by date, ascending. */
  const ShiwakeSort: seq<SortOption<Shiwake>> := [SortOption(IntKey(ShiwakeDate), Asc)]

  /** Ledger rows: by display order, account name, then date, all ascending. */
  const SoukanjoSort: seq<SortOption<Soukanjo>> :=
    [SortOption(IntKey(SoukanjoKamokuOrder), Asc), SortOption(StrKey(SoukanjoKamoku), Asc), SortOption(IntKey(SoukanjoDate), Asc)]

  /** Trial-balance rows: by order, ascending. */
  const ShisanSort: seq<SortOption<Shisan>> := [SortOption(IntKey(ShisanOrder), Asc)]

  /** `x` may precede `y` in the ledger's presentation order. */
  predicate LedgerLe(x: Soukanjo, y: Soukanjo)
  {
    || x.kamokuOrder < y.kamokuOrder
    || (x.kamokuOrder == y.kamokuOrder && StrLess(x.kamoku, y.kamoku))
    || (x.kamokuOrder == y.kamokuOrder && x.kamoku == y.kamoku && x.date <= y.date)
  }

  lemma SoukanjoSortMeaning(x: Soukanjo, y: Soukanjo)
    ensures Compare(x, y, SoukanjoSort) <= 0 <==> LedgerLe(x, y)
  {
    StrTrichotomy(x.kamoku, y.kamoku);
    var last := [SortOption(IntKey(SoukanjoDate), Asc)];
    var rest := [SortOption(StrKey(SoukanjoKamoku), Asc)] + last;
    assert SoukanjoSort[0] == SortOption(IntKey(SoukanjoKamokuOrder), Asc) && SoukanjoSort[1..] == rest;
    assert rest[0] == SortOption(StrKey(SoukanjoKamoku), Asc) && rest[1..] == last;
    assert last[0] == SortOption(IntKey(SoukanjoDate), Asc) && last[1..] == [];
    assert Compare(x, y, last) <= 0 <==> x.date <= y.date;
    assert Compare(x, y, rest) <= 0 <==> StrLess(x.kamoku, y.kamoku) || (x.kamoku == y.kamoku && x.date <= y.date);
  }

  lemma SingleIntKeyMeaning<T>(f: T -> int, x: T, y: T)
    ensures Compare(x, y, [SortOption(IntKey(f), Asc)]) <= 0 <==> f(x) <= f(y)
  {
    assert [SortOption(IntKey(f), Asc)][1..] == [];
  }

  /** The state of the ledger loop after the postings `ps`: every account
      posted to is known, `rows` are the ledger rows of `ps`, and `zandaka`
      holds every account's running balance. */
  ghost predicate Posted(ps: seq<Posting>, master: map<string, Kamoku>, zandaka: map<string, int>, rows: seq<Soukanjo>)
  {
    && Known(ps, master)
    && rows == LedgerRows(ps, master)
    && zandaka.Keys == master.Keys
    && forall n :: n in zandaka ==> zandaka[n] == Balance(ps, master, n)
  }

  /** One posting as the ledger loop performs it: the running balance of
      the account posted to moves by the signed amount, every other balance
      stays, and the ledger gains this posting's row carrying the new
      balance. */
  lemma PostStep(ps: seq<Posting>, p: Posting, master: map<string, Kamoku>,
                 zandaka: map<string, int>, rows: seq<Soukanjo>, zandaka': map<string, int>, rows': seq<Soukanjo>)
    requires Posted(ps, master, zandaka, rows) && p.Account() in master
    requires zandaka' == zandaka[p.Account() := zandaka[p.Account()] + p.Amount() * PlusMinus(master[p.Account()].kashikariType, p.side)]
    requires rows' == rows + [LedgerRow(p, master[p.Account()], zandaka'[p.Account()])]
    ensures Posted(ps + [p], master, zandaka', rows')
  {
    forall n | n in zandaka
      ensures Balance(ps + [p], master, n) == Balance(ps, master, n) + Signed(master, n)(p)
    {
      BalanceStep(ps, p, master, n);
    }
    LedgerStep(ps, p, master);
  }

  // ---------------------------------------------------------------------
  // calcSoukanjomotocho
  // ---------------------------------------------------------------------

  /** The opening balance table of calcSoukanjomotocho: every account of the
      chart starts at zero. */
  method OpeningBalances(kamokuRecords: seq<Kamoku>) returns (zandaka: map<string, int>)
    ensures zandaka.Keys == KamokuMap(kamokuRecords).Keys
    ensures forall n :: n in zandaka ==> zandaka[n] == 0
  {
    zandaka := map[];
    for i := 0 to |kamokuRecords|
      invariant zandaka.Keys == KamokuMap(kamokuRecords[..i]).Keys
      invariant forall n :: n in zandaka ==> zandaka[n] == 0
    {
      assert kamokuRecords[..i + 1][..i] == kamokuRecords[..i];
      zandaka := zandaka[kamokuRecords[i].name := 0];
    }
    assert kamokuRecords[..|kamokuRecords|] == kamokuRecords;
  }

  /** One pass of the posting loop of calcSoukanjomotocho: the entry's
      debit side is posted, then its credit side; a side naming an account
      missing from the chart raises that side's error. Posting a side moves
      its account's balance by the signed amount and appends the side's
      ledger row carrying the new balance. */
  method PostEntry(shiwake: Shiwake, kamokuMap: map<string, Kamoku>, zandaka: map<string, int>,
                   soukanjoRecords: seq<Soukanjo>, ghost ps: seq<Posting>)
    returns (result: Result<(map<string, int>, seq<Soukanjo>), ChoboError>)
    requires Posted(ps, kamokuMap, zandaka, soukanjoRecords)
    ensures result.Err? <==> EntryCheck(shiwake, kamokuMap).Some?
    ensures result.Err? ==> Some(result.error) == EntryCheck(shiwake, kamokuMap)
    ensures result.Ok? ==>
              Posted(ps + [Posting(KariSide, shiwake), Posting(KashiSide, shiwake)], kamokuMap, result.value.0, result.value.1)
  {
    ghost var debit, credit := Posting(KariSide, shiwake), Posting(KashiSide, shiwake);
    var zandaka, soukanjoRecords := zandaka, soukanjoRecords;

    if shiwake.kariKamoku !in kamokuMap {
      return Err(UnknownKariKamoku(shiwake.kariKamoku));
    }
    var kariKamoku := kamokuMap[shiwake.kariKamoku];
    var plusMinusKari := if kariKamoku.kashikariType == Karikata then 1 else -1;
    ghost var zandaka0, rows0 := zandaka, soukanjoRecords;
    zandaka := zandaka[shiwake.kariKamoku := zandaka[shiwake.kariKamoku] + shiwake.kariPrice * plusMinusKari];
    soukanjoRecords := soukanjoRecords + [Soukanjo(
      shiwakeId := shiwake.id,
      kamokuOrder := kariKamoku.outputOrder,
      date := shiwake.date,
      kamoku := shiwake.kariKamoku,
      aiteKamoku := shiwake.kashiKamoku,
      summary := shiwake.summary,
      kariPrice := shiwake.kariPrice,
      kashiPrice := 0,
      zandaka := zandaka[shiwake.kariKamoku])];
    PostStep(ps, debit, kamokuMap, zandaka0, rows0, zandaka, soukanjoRecords);

    if shiwake.kashiKamoku !in kamokuMap {
      return Err(UnknownKashiKamoku(shiwake.kashiKamoku));
    }
    var kashiKamoku := kamokuMap[shiwake.kashiKamoku];
    var plusMinusKashi := if kashiKamoku.kashikariType == Kashikata then 1 else -1;
    ghost var zandaka1, rows1 := zandaka, soukanjoRecords;
    zandaka := zandaka[shiwake.kashiKamoku := zandaka[shiwake.kashiKamoku] + shiwake.kashiPrice * plusMinusKashi];
    soukanjoRecords := soukanjoRecords + [Soukanjo(
      shiwakeId := shiwake.id,
      kamokuOrder := kashiKamoku.outputOrder,
      date := shiwake.date,
      kamoku := shiwake.kashiKamoku,
      aiteKamoku := shiwake.kariKamoku,
      summary := shiwake.summary,
      kariPrice := 0,
      kashiPrice := shiwake.kashiPrice,
      zandaka := zandaka[shiwake.kashiKamoku])];
    PostStep(ps + [debit], credit, kamokuMap, zandaka1, rows1, zandaka, soukanjoRecords);
    assert ps + [debit] + [credit] == ps + [debit, credit];
    return Ok((zandaka, soukanjoRecords));
  }

  /** Extending the processed prefix of the journal by entry `i` adds its
      two postings and checks its accounts only if no error was raised
      before. */
  lemma JournalPrefixStep(entries: seq<Shiwake>, master: map<string, Kamoku>, i: nat)
    requires i < |entries|
    ensures Postings(entries[..i + 1]) == Postings(entries[..i]) + [Posting(KariSide, entries[i]), Posting(KashiSide, entries[i])]
    ensures FirstUnknown(entries[..i + 1], master)
            == if FirstUnknown(entries[..i], master).Some? then FirstUnknown(entries[..i], master) else EntryCheck(entries[i], master)
  {
    assert entries[..i + 1] == entries[..i] + [entries[i]];
    PostingsStep(entries[..i], entries[i]);
    FirstUnknownStep(entries[..i], entries[i], master);
  }

  /** The posting loop of calcSoukanjomotocho over the date-sorted journal:
      the first entry naming an account missing from the chart stops the
      loop with its error. On success the rows are exactly the ledger rows
      of the postings, each carrying its account's running balance. */
  method PostEntries(entries: seq<Shiwake>, kamokuMap: map<string, Kamoku>, opening: map<string, int>)
    returns (result: Result<seq<Soukanjo>, ChoboError>)
    requires opening.Keys == kamokuMap.Keys
    requires forall n :: n in opening ==> opening[n] == 0
    ensures result.Err? <==> FirstUnknown(entries, kamokuMap).Some?
    ensures result.Err? ==> Some(result.error) == FirstUnknown(entries, kamokuMap)
    ensures result.Ok? ==>
              && Known(Postings(entries), kamokuMap)
              && result.value == LedgerRows(Postings(entries), kamokuMap)
  {
    var zandaka := opening;
    var soukanjoRecords: seq<Soukanjo> := [];
    ghost var ps: seq<Posting> := [];
    for i := 0 to |entries|
      invariant FirstUnknown(entries[..i], kamokuMap).None?
      invariant ps == Postings(entries[..i])
      invariant Posted(ps, kamokuMap, zandaka, soukanjoRecords)
    {
      var posted := PostEntry(entries[i], kamokuMap, zandaka, soukanjoRecords, ps);
      JournalPrefixStep(entries, kamokuMap, i);
      if posted.Err? {
        FirstUnknownPrefix(entries, kamokuMap, i + 1);
        return Err(posted.error);
      }
      zandaka, soukanjoRecords := posted.value.0, posted.value.1;
      ps := ps + [Posting(KariSide, entries[i]), Posting(KashiSide, entries[i])];
    }
    assert entries[..|entries|] == entries;
    result := Ok(soukanjoRecords);
  }

  /** calcSoukanjomotocho: sorts the journal by date, posts each entry's
      debit side and then its credit side while keeping a running balance per
      account, and returns the rows ordered for presentation.

      `processed` is the date order the entries were actually posted in
      (entries with equal dates may come in any order). The ledger rows are
      exactly the rows of those postings with their running balances, and
      the first entry, in that order, naming an unknown account decides the
      error. */
  method CalcSoukanjomotocho(shiwakeRecords: seq<Shiwake>, kamokuRecords: seq<Kamoku>)
    returns (result: Result<seq<Soukanjo>, ChoboError>, ghost processed: seq<Shiwake>)
    ensures multiset(processed) == multiset(shiwakeRecords)
    ensures forall i, j :: 0 <= i < j < |processed| ==> processed[i].date <= processed[j].date
    ensures result.Err? <==> FirstUnknown(processed, KamokuMap(kamokuRecords)).Some?
    ensures result.Err? ==> Some(result.error) == FirstUnknown(processed, KamokuMap(kamokuRecords))
    ensures result.Ok? ==> |result.value| == 2 * |shiwakeRecords|
    ensures result.Ok? ==>
              && Known(Postings(processed), KamokuMap(kamokuRecords))
              && multiset(result.value) == multiset(LedgerRows(Postings(processed), KamokuMap(kamokuRecords)))
    ensures result.Ok? ==> forall i, j :: 0 <= i < j < |result.value| ==> LedgerLe(result.value[i], result.value[j])
  {
    var shiwakeArray := new Shiwake[|shiwakeRecords|](i requires 0 <= i < |shiwakeRecords| => shiwakeRecords[i]);
    assert shiwakeArray[..] == shiwakeRecords;
    shiwakeArray := SortArray(shiwakeArray, ShiwakeSort);
    processed := shiwakeArray[..];
    DateOrder(processed);

    var kamokuMap := ArrayToMap(kamokuRecords, KamokuName);
    var zandaka := OpeningBalances(kamokuRecords);
    var posted := PostEntries(shiwakeArray[..], kamokuMap, zandaka);
    if posted.Err? {
      result := Err(posted.error);
      return;
    }
    var soukanjoRecords := posted.value;

    var soukanjoArray := new Soukanjo[|soukanjoRecords|](i requires 0 <= i < |soukanjoRecords| => soukanjoRecords[i]);
    assert soukanjoArray[..] == soukanjoRecords;
    soukanjoArray := SortArray(soukanjoArray, SoukanjoSort);
    if soukanjoArray.Length != shiwakeArray.Length * 2 {
      result := Err(RowCountMismatch);
      return;
    }
    PresentationOrder(soukanjoArray[..]);
    result := Ok(soukanjoArray[..]);
  }

  /** Sorting by ShiwakeSort leaves the journal in date order. */
  lemma DateOrder(s: seq<Shiwake>)
    requires Sorted(s, ShiwakeSort)
    ensures forall i, j :: 0 <= i < j < |s| ==> s[i].date <= s[j].date
  {
    SortedPairwise(s, ShiwakeSort);
    forall i, j | 0 <= i < j < |s|
      ensures s[i].date <= s[j].date
    {
      SingleIntKeyMeaning(ShiwakeDate, s[i], s[j]);
    }
  }

  /** Sorting by SoukanjoSort leaves the ledger in presentation order. */
  lemma PresentationOrder(s: seq<Soukanjo>)
    requires Sorted(s, SoukanjoSort)
    ensures forall i, j :: 0 <= i < j < |s| ==> LedgerLe(s[i], s[j])
  {
    SortedPairwise(s, SoukanjoSort);
    forall i, j | 0 <= i < j < |s|
      ensures LedgerLe(s[i], s[j])
    {
      SoukanjoSortMeaning(s[i], s[j]);
    }
  }

  // ---------------------------------------------------------------------
  // calcShisan
  // ---------------------------------------------------------------------

  /** The trial-balance table calcShisan starts from: one row per account
      of the chart, with all four amounts at zero. */
  method OpeningShisan(kamokuRecords: seq<Kamoku>) returns (shisanMap: map<string, Shisan>)
    ensures Accumulated(shisanMap, KamokuMap(kamokuRecords), [])
  {
    shisanMap := map[];
    for i := 0 to |kamokuRecords|
      invariant shisanMap.Keys == KamokuMap(kamokuRecords[..i]).Keys
      invariant forall n :: n in shisanMap ==> shisanMap[n] == TrialBalanceRow(KamokuMap(kamokuRecords[..i])[n], [])
    {
      var kamoku := kamokuRecords[i];
      assert kamokuRecords[..i + 1][..i] == kamokuRecords[..i];
      shisanMap := shisanMap[kamoku.name := Shisan(
        order := kamoku.outputOrder,
        kamokuName := kamoku.name,
        kariZandaka := 0,
        kashiZandaka := 0,
        totalKariPrice := 0,
        totalKashiPrice := 0)];
    }
    assert kamokuRecords[..|kamokuRecords|] == kamokuRecords;
  }

  /** The state of calcShisan's table after the ledger rows `rows`: every
      row's account is in the chart, and the table has one entry per account
      of the chart, holding that account's trial balance over `rows`. */
  ghost predicate Accumulated(shisanMap: map<string, Shisan>, kamokuMap: map<string, Kamoku>, rows: seq<Soukanjo>)
  {
    && (forall j :: 0 <= j < |rows| ==> rows[j].kamoku in kamokuMap)
    && shisanMap.Keys == kamokuMap.Keys
    && forall n :: n in shisanMap ==> shisanMap[n] == TrialBalanceRow(kamokuMap[n], rows)
  }

  /** Adding one ledger row as calcShisan does -- its amounts to its
      account's totals, its natural-side net to the account's net balance --
      keeps the table equal to the trial balance. */
  lemma AccumulateStep(shisanMap: map<string, Shisan>, kamokuMap: map<string, Kamoku>, rows: seq<Soukanjo>, i: nat,
                       kariPrice: int, kashiPrice: int, kariZandaka: int, kashiZandaka: int,
                       shisanMap': map<string, Shisan>)
    requires NamedByKey(kamokuMap)
    requires i < |rows| && rows[i].kamoku in kamokuMap
    requires Accumulated(shisanMap, kamokuMap, rows[..i])
    requires kariPrice == rows[i].kariPrice && kashiPrice == rows[i].kashiPrice
    requires kariZandaka == if kamokuMap[rows[i].kamoku].kashikariType == Karikata then rows[i].kariPrice - rows[i].kashiPrice else 0
    requires kashiZandaka == if kamokuMap[rows[i].kamoku].kashikariType == Kashikata then rows[i].kashiPrice - rows[i].kariPrice else 0
    requires var t := shisanMap[rows[i].kamoku];
             shisanMap' == shisanMap[rows[i].kamoku := t.(
               totalKariPrice := t.totalKariPrice + kariPrice,
               totalKashiPrice := t.totalKashiPrice + kashiPrice,
               kariZandaka := t.kariZandaka + kariZandaka,
               kashiZandaka := t.kashiZandaka + kashiZandaka)]
    ensures Accumulated(shisanMap', kamokuMap, rows[..i + 1])
  {
    var done, next := rows[..i + 1], rows[..i] + [rows[i]];
    assert done == next;
    forall j | 0 <= j < |done|
      ensures done[j].kamoku in kamokuMap
    {
      if j < i {
        assert done[j] == rows[..i][j];
      }
    }
    forall n | n in shisanMap'
      ensures shisanMap'[n] == TrialBalanceRow(kamokuMap[n], next)
    {
      TrialBalanceStep(kamokuMap[n], rows[..i], rows[i]);
    }
  }

  /** The accumulation loop of calcShisan: each ledger row adds its amounts
      to its account's row; a row whose account is missing from the chart
      raises UnknownKamoku. On success every account's row is its trial
      balance over all the ledger rows. */
  method Accumulate(soukanjoRecords: seq<Soukanjo>, kamokuMap: map<string, Kamoku>, opening: map<string, Shisan>)
    returns (result: Result<map<string, Shisan>, ChoboError>)
    requires NamedByKey(kamokuMap)
    requires Accumulated(opening, kamokuMap, [])
    ensures result.Err? <==> exists i :: 0 <= i < |soukanjoRecords| && soukanjoRecords[i].kamoku !in kamokuMap
    ensures result.Err? ==> result.error == UnknownKamoku
    ensures result.Ok? ==> Accumulated(result.value, kamokuMap, soukanjoRecords)
  {
    var shisanMap := opening;
    for i := 0 to |soukanjoRecords|
      invariant Accumulated(shisanMap, kamokuMap, soukanjoRecords[..i])
    {
      var soukanjo := soukanjoRecords[i];
      if soukanjo.kamoku !in kamokuMap {
        return Err(UnknownKamoku);
      }
      var kamoku := kamokuMap[soukanjo.kamoku];
      var shisan := shisanMap[soukanjo.kamoku];
      var totalKariPrice := soukanjo.kariPrice;
      var totalKashiPrice := soukanjo.kashiPrice;
      var kariZandaka := if kamoku.kashikariType == Karikata then soukanjo.kariPrice - soukanjo.kashiPrice else 0;
      var kashiZandaka := if kamoku.kashikariType == Kashikata then soukanjo.kashiPrice - soukanjo.kariPrice else 0;
      ghost var before := shisanMap;
      shisanMap := shisanMap[soukanjo.kamoku := shisan.(
        totalKariPrice := shisan.totalKariPrice + totalKariPrice,
        totalKashiPrice := shisan.totalKashiPrice + totalKashiPrice,
        kariZandaka := shisan.kariZandaka + kariZandaka,
        kashiZandaka := shisan.kashiZandaka + kashiZandaka)];
      AccumulateStep(before, kamokuMap, soukanjoRecords, i, totalKariPrice, totalKashiPrice, kariZandaka, kashiZandaka, shisanMap);
    }
    assert soukanjoRecords[..|soukanjoRecords|] == soukanjoRecords;
    return Ok(shisanMap);
  }

  /** calcShisan: one trial-balance row per account of the chart, holding
      the account's gross debit and credit totals over the ledger rows and
      its net balance on its natural side, ordered by display order. A
      ledger row naming an account missing from the chart is an error. */
  method CalcShisan(soukanjoRecords: seq<Soukanjo>, kamokuRecords: seq<Kamoku>)
    returns (result: Result<seq<Shisan>, ChoboError>)
    ensures result.Err? <==> exists i :: 0 <= i < |soukanjoRecords| && soukanjoRecords[i].kamoku !in KamokuMap(kamokuRecords)
    ensures result.Err? ==> result.error == UnknownKamoku
    ensures result.Ok? ==> |result.value| == |KamokuMap(kamokuRecords)|
    ensures result.Ok? ==> forall n :: n in KamokuMap(kamokuRecords) ==>
              TrialBalanceRow(KamokuMap(kamokuRecords)[n], soukanjoRecords) in result.value
    ensures result.Ok? ==> forall i :: 0 <= i < |result.value| ==>
              && result.value[i].kamokuName in KamokuMap(kamokuRecords)
              && result.value[i] == TrialBalanceRow(KamokuMap(kamokuRecords)[result.value[i].kamokuName], soukanjoRecords)
    ensures result.Ok? ==> forall i, j :: 0 <= i < j < |result.value| ==> result.value[i].kamokuName != result.value[j].kamokuName
    ensures result.Ok? ==> forall i, j :: 0 <= i < j < |result.value| ==> result.value[i].order <= result.value[j].order
  {
    var kamokuMap := ArrayToMap(kamokuRecords, KamokuName);
    KamokuMapNamed(kamokuRecords);
    var opening := OpeningShisan(kamokuRecords);
    var accumulated := Accumulate(soukanjoRecords, kamokuMap, opening);
    if accumulated.Err? {
      return Err(accumulated.error);
    }
    var shisanMap := accumulated.value;
    var shisanRecords, names := ListByOrder(shisanMap);
    TrialBalanceRows(kamokuMap, soukanjoRecords, shisanMap, names, shisanRecords);
    return Ok(shisanRecords);
  }

  /** The last step of calcShisan: the table's rows, listed with mapToArray
      in the key order `names` and then sorted by display order. */
  method ListByOrder(shisanMap: map<string, Shisan>) returns (shisanRecords: seq<Shisan>, names: seq<string>)
    ensures IsKeyOrder(names, shisanMap)
    ensures multiset(shisanRecords) == multiset(MapToArray(shisanMap, names))
    ensures Sorted(shisanRecords, ShisanSort)
  {
    names := ObjectKeys(shisanMap);
    var rows := MapToArray(shisanMap, names);
    var shisanArray := new Shisan[|rows|](i requires 0 <= i < |rows| => rows[i]);
    assert shisanArray[..] == rows;
    shisanArray := SortArray(shisanArray, ShisanSort);
    shisanRecords := shisanArray[..];
  }

  function ShisanName(s: Shisan): string
  {
    s.kamokuName
  }

  /** What calcShisan's rows are, whatever their order: one per account of
      the chart, each the trial balance of its own account, no name twice. */
  ghost predicate TrialBalanceListing(s: seq<Shisan>, kamokuMap: map<string, Kamoku>, rows: seq<Soukanjo>)
  {
    && |s| == |kamokuMap|
    && (forall n :: n in kamokuMap ==> TrialBalanceRow(kamokuMap[n], rows) in s)
    && (forall i :: 0 <= i < |s| ==>
          && s[i].kamokuName in kamokuMap
          && s[i] == TrialBalanceRow(kamokuMap[s[i].kamokuName], rows))
    && (forall i, j :: 0 <= i < j < |s| ==> s[i].kamokuName != s[j].kamokuName)
  }

  /** mapToArray over the finished table lists each account's trial
      balance once. */
  lemma ListedRows(kamokuMap: map<string, Kamoku>, soukanjoRecords: seq<Soukanjo>, shisanMap: map<string, Shisan>, names: seq<string>)
    requires NamedByKey(kamokuMap)
    requires Accumulated(shisanMap, kamokuMap, soukanjoRecords)
    requires IsKeyOrder(names, shisanMap)
    ensures TrialBalanceListing(MapToArray(shisanMap, names), kamokuMap, soukanjoRecords)
  {
    var rows := MapToArray(shisanMap, names);
    assert |shisanMap| == |shisanMap.Keys| == |kamokuMap.Keys| == |kamokuMap|;
    forall i | 0 <= i < |rows|
      ensures rows[i].kamokuName == names[i] && names[i] in kamokuMap
      ensures rows[i] == TrialBalanceRow(kamokuMap[rows[i].kamokuName], soukanjoRecords)
    {
      assert rows[i] == shisanMap[names[i]] == TrialBalanceRow(kamokuMap[names[i]], soukanjoRecords);
    }
    forall n | n in kamokuMap
      ensures TrialBalanceRow(kamokuMap[n], soukanjoRecords) in rows
    {
      MapToArrayValues(shisanMap, names);
      assert shisanMap[n] in rows;
    }
  }

  /** Reordering the rows keeps what they are. */
  lemma PermutedRows(kamokuMap: map<string, Kamoku>, soukanjoRecords: seq<Soukanjo>, rows: seq<Shisan>, sorted: seq<Shisan>)
    requires TrialBalanceListing(rows, kamokuMap, soukanjoRecords)
    requires multiset(sorted) == multiset(rows)
    ensures TrialBalanceListing(sorted, kamokuMap, soukanjoRecords)
  {
    assert |sorted| == |rows| by {
      assert |multiset(sorted)| == |multiset(rows)|;
    }
    PermutationKeepsDistinct(sorted, rows, ShisanName);
    forall i | 0 <= i < |sorted|
      ensures sorted[i].kamokuName in kamokuMap
      ensures sorted[i] == TrialBalanceRow(kamokuMap[sorted[i].kamokuName], soukanjoRecords)
    {
      assert sorted[i] in multiset(rows);
    }
    forall n | n in kamokuMap
      ensures TrialBalanceRow(kamokuMap[n], soukanjoRecords) in sorted
    {
      assert TrialBalanceRow(kamokuMap[n], soukanjoRecords) in multiset(rows);
    }
  }

  /** The rows calcShisan returns, once listed and sorted: each is the
      trial balance of its own account, every account has one, no two share
      a name, and they come in display order. */
  lemma TrialBalanceRows(kamokuMap: map<string, Kamoku>, soukanjoRecords: seq<Soukanjo>, shisanMap: map<string, Shisan>,
                         names: seq<string>, sorted: seq<Shisan>)
    requires NamedByKey(kamokuMap)
    requires Accumulated(shisanMap, kamokuMap, soukanjoRecords)
    requires IsKeyOrder(names, shisanMap)
    requires multiset(sorted) == multiset(MapToArray(shisanMap, names))
    requires Sorted(sorted, ShisanSort)
    ensures |sorted| == |kamokuMap|
    ensures forall n :: n in kamokuMap ==> TrialBalanceRow(kamokuMap[n], soukanjoRecords) in sorted
    ensures forall i :: 0 <= i < |sorted| ==>
              && sorted[i].kamokuName in kamokuMap
              && sorted[i] == TrialBalanceRow(kamokuMap[sorted[i].kamokuName], soukanjoRecords)
    ensures forall i, j :: 0 <= i < j < |sorted| ==> sorted[i].kamokuName != sorted[j].kamokuName
    ensures forall i, j :: 0 <= i < j < |sorted| ==> sorted[i].order <= sorted[j].order
  {
    ListedRows(kamokuMap, soukanjoRecords, shisanMap, names);
    PermutedRows(kamokuMap, soukanjoRecords, MapToArray(shisanMap, names), sorted);
    TrialBalanceOrder(sorted);
  }

  /** Sorting by ShisanSort leaves the trial balance in display order. */
  lemma TrialBalanceOrder(s: seq<Shisan>)
    requires Sorted(s, ShisanSort)
    ensures forall i, j :: 0 <= i < j < |s| ==> s[i].order <= s[j].order
  {
    SortedPairwise(s, ShisanSort);
    forall i, j | 0 <= i < j < |s|
      ensures s[i].order <= s[j].order
    {
      SingleIntKeyMeaning(ShisanOrder, s[i], s[j]);
    }
  }

  // ---------------------------------------------------------------------
  // calcKessan
  // ---------------------------------------------------------------------

  /** The two financial statements calcKessan can select for. */
  datatype Kessansho = TaishakuTaishohyo | SonekiKeisansho

  /** The `seisanType` value naming each statement in the chart of accounts. */
  function SeisanLabel(t: Kessansho): string
  {
    match t
    case TaishakuTaishohyo => "貸借対照表"
    case SonekiKeisansho => "損益計算書"
  }

  /** Whether trial-balance row `x` belongs to statement `t`. */
  predicate InStatement(x: Shisan, master: map<string, Kamoku>, t: Kessansho)
  {
    x.kamokuName in master && master[x.kamokuName].seisanType == SeisanLabel(t)
  }

  /** `a` is `b` with some elements dropped, the rest kept in order. */
  ghost predicate IsSubsequence<T>(a: seq<T>, b: seq<T>)
  {
    if a == [] then true
    else if b == [] then false
    else (a[|a| - 1] == b[|b| - 1] && IsSubsequence(a[..|a| - 1], b[..|b| - 1])) || IsSubsequence(a, b[..|b| - 1])
  }

  /** calcKessan: the trial-balance rows whose account belongs to statement
      `t`, in their input order; every other row is dropped. Looking up an
      account missing from the chart fails in the source, so every row's
      account must be in the chart. */
  function CalcKessan(shisanRecords: seq<Shisan>, kamokuRecords: seq<Kamoku>, t: Kessansho): (r: seq<Shisan>)
    requires forall i :: 0 <= i < |shisanRecords| ==> shisanRecords[i].kamokuName in KamokuMap(kamokuRecords)
    ensures IsSubsequence(r, shisanRecords)
    ensures forall x :: multiset(r)[x] == if InStatement(x, KamokuMap(kamokuRecords), t) then multiset(shisanRecords)[x] else 0
  {
    if shisanRecords == [] then []
    else
      var init, last := shisanRecords[..|shisanRecords| - 1], shisanRecords[|shisanRecords| - 1];
      assert shisanRecords == init + [last];
      var kept := CalcKessan(init, kamokuRecords, t);
      if KamokuMap(kamokuRecords)[last.kamokuName].seisanType == SeisanLabel(t) then
        assert (kept + [last])[..|kept|] == kept;
        kept + [last]
      else
        kept
  }

  /** When every account of the chart is on one of the two statements, the
      balance sheet and the income statement split the trial balance
      between them: each row lands in exactly one. */
  lemma KessanPartition(shisanRecords: seq<Shisan>, kamokuRecords: seq<Kamoku>)
    requires forall i :: 0 <= i < |shisanRecords| ==> shisanRecords[i].kamokuName in KamokuMap(kamokuRecords)
    requires forall k :: 0 <= k < |kamokuRecords| ==>
               kamokuRecords[k].seisanType == SeisanLabel(TaishakuTaishohyo) || kamokuRecords[k].seisanType == SeisanLabel(SonekiKeisansho)
    ensures multiset(CalcKessan(shisanRecords, kamokuRecords, TaishakuTaishohyo))
            + multiset(CalcKessan(shisanRecords, kamokuRecords, SonekiKeisansho))
            == multiset(shisanRecords)
  {
    var master := KamokuMap(kamokuRecords);
    var bs := CalcKessan(shisanRecords, kamokuRecords, TaishakuTaishohyo);
    var pl := CalcKessan(shisanRecords, kamokuRecords, SonekiKeisansho);
    assert SeisanLabel(TaishakuTaishohyo) != SeisanLabel(SonekiKeisansho);
    KeyedByMeaning(kamokuRecords, KamokuName);
    forall x
      ensures (multiset(bs) + multiset(pl))[x] == multiset(shisanRecords)[x]
    {
      if x in shisanRecords {
        assert x.kamokuName in master;
        var k :| 0 <= k < |kamokuRecords| && kamokuRecords[k] == master[x.kamokuName];
      }
    }
  }
}
