/** The records the calculator reads and writes -- journal entries (仕訳),
    the account master (科目), general-ledger rows (総勘定元帳) and
    trial-balance rows (試算表) -- and the reference definitions that the
    calculator's results are proved against. */
module ChoboModel {
  import opened Wrappers
  import opened CommonUtils

  /** An account's natural side as stored in the master: "借方" (debit),
      "貸方" (credit), or any other text, which the calculator treats as
      neither. Values are read from the sheet's text by KashikariTypeOf, so
      `OtherType` never holds "借方" or "貸方". */
  datatype KashikariType = Karikata | Kashikata | OtherType(text: string)

  /** The master sheet's 貸借区分 text as a KashikariType: exactly "借方" is
      the debit side, exactly "貸方" the credit side, any other text is kept
      as it is. */
  function KashikariTypeOf(s: string): (t: KashikariType)
    ensures t == Karikata <==> s == "借方"
    ensures t == Kashikata <==> s == "貸方"
    ensures t.OtherType? ==> t.text == s
  {
    if s == "借方" then Karikata
    else if s == "貸方" then Kashikata
    else OtherType(s)
  }

  /** One row of the account master. */
  datatype Kamoku = Kamoku(name: string, kashikariType: KashikariType, seisanType: string, outputOrder: int)

  /** One journal entry: a debit account and a credit account, each with its
      amount. Dates are numbers (the instant a `Date` compares by). */
  datatype Shiwake = Shiwake(
    id: int, date: int,
    kariKamoku: string, kashiKamoku: string,
    kariPrice: int, kashiPrice: int,
    summary: string)

  /** One general-ledger row: one side of one journal entry, seen from the
      account it posts to, with that account's running balance. */
  datatype Soukanjo = Soukanjo(
    shiwakeId: int, kamokuOrder: int, date: int,
    kamoku: string, aiteKamoku: string, summary: string,
    kariPrice: int, kashiPrice: int, zandaka: int)

  /** One trial-balance row. */
  datatype Shisan = Shisan(
    order: int, kamokuName: string,
    kariZandaka: int, kashiZandaka: int,
    totalKariPrice: int, totalKashiPrice: int)

  /** The errors the calculator throws. */
  datatype ChoboError =
    | UnknownKariKamoku(name: string)   // debit account missing from the master
    | UnknownKashiKamoku(name: string)  // credit account missing from the master
    | UnknownKamoku                     // ledger row's account missing (its message names no account)
    | RowCountMismatch                  // ledger row count is not twice the entry count

  function KamokuName(k: Kamoku): string
  {
    k.name
  }

  /** kamokuMap: the master keyed by account name, a later row with the same
      name replacing an earlier one. */
  function KamokuMap(kamokuRecords: seq<Kamoku>): map<string, Kamoku>
  {
    KeyedBy(kamokuRecords, KamokuName)
  }

  /** Every account of a chart is found under its own name. */
  predicate NamedByKey(master: map<string, Kamoku>)
  {
    forall n :: n in master ==> master[n].name == n
  }

  lemma KamokuMapNamed(kamokuRecords: seq<Kamoku>)
    ensures NamedByKey(KamokuMap(kamokuRecords))
  {
    KeyedByMeaning(kamokuRecords, KamokuName);
  }


  // ---------------------------------------------------------------------
  // Sums over sequences
  // ---------------------------------------------------------------------

  function Sum<T>(s: seq<T>, f: T -> int): int
  {
    if s == [] then 0 else Sum(s[..|s| - 1], f) + f(s[|s| - 1])
  }

  lemma {:induction false} SumConcat<T>(s: seq<T>, t: seq<T>, f: T -> int)
    ensures Sum(s + t, f) == Sum(s, f) + Sum(t, f)
    decreases |t|
  {
    if t != [] {
      var init := t[..|t| - 1];
      assert (s + t)[..|s + t| - 1] == s + init;
      SumConcat(s, init, f);
    } else {
      assert s + t == s;
    }
  }

  /** Appending one element adds its value. */
  lemma SumSnoc<T>(s: seq<T>, x: T, f: T -> int)
    ensures Sum(s + [x], f) == Sum(s, f) + f(x)
  {
    assert (s + [x])[..|s|] == s;
  }

  lemma SumRemove<T>(t: seq<T>, j: nat, f: T -> int)
    requires j < |t|
    ensures Sum(t, f) == Sum(t[..j] + t[j + 1..], f) + f(t[j])
  {
    var a, x, b := t[..j], t[j], t[j + 1..];
    assert t == a + ([x] + b);
    assert Sum([x], f) == f(x) by {
      assert [x][..0] == [];
    }
    calc {
      Sum(t, f);
      { SumConcat(a, [x] + b, f); }
      Sum(a, f) + Sum([x] + b, f);
      { SumConcat([x], b, f); }
      Sum(a, f) + f(x) + Sum(b, f);
      { SumConcat(a, b, f); }
      Sum(a + b, f) + f(x);
    }
  }

  lemma MultisetRemove<T>(t: seq<T>, j: nat)
    requires j < |t|
    ensures multiset(t[..j] + t[j + 1..]) == multiset(t) - multiset{t[j]}
  {
    assert t == t[..j] + [t[j]] + t[j + 1..];
  }

  /** A sum does not depend on the order of its terms. */
  lemma {:induction false} SumPermutation<T>(s: seq<T>, t: seq<T>, f: T -> int)
    requires multiset(s) == multiset(t)
    ensures Sum(s, f) == Sum(t, f)
    decreases |s|
  {
    if s == [] {
      assert |multiset(t)| == 0;
    } else {
      var init, x := s[..|s| - 1], s[|s| - 1];
      assert s == init + [x];
      assert x in multiset(t);
      var j :| 0 <= j < |t| && t[j] == x;
      MultisetRemove(t, j);
      assert multiset(init) == multiset(s) - multiset{x};
      SumPermutation(init, t[..j] + t[j + 1..], f);
      SumRemove(t, j, f);
    }
  }

  // ---------------------------------------------------------------------
  // Postings and running balances
  // ---------------------------------------------------------------------

  /** The two sides of a journal entry. */
  datatype Side = KariSide | KashiSide

  /** One side of one journal entry: the unit a ledger row records. */
  datatype Posting = Posting(side: Side, entry: Shiwake)
  {
    /** The account posted to. */
    function Account(): string
    {
      if side == KariSide then entry.kariKamoku else entry.kashiKamoku
    }

    /** The account on the other side. */
    function Counterpart(): string
    {
      if side == KariSide then entry.kashiKamoku else entry.kariKamoku
    }

    function Amount(): int
    {
      if side == KariSide then entry.kariPrice else entry.kashiPrice
    }
  }

  /** The postings of the entries in processing order: each entry's debit
      side, then its credit side. */
  function Postings(entries: seq<Shiwake>): (ps: seq<Posting>)
    ensures |ps| == 2 * |entries|
  {
    if entries == [] then []
    else
      var e := entries[|entries| - 1];
      Postings(entries[..|entries| - 1]) + [Posting(KariSide, e), Posting(KashiSide, e)]
  }

  /** Entry `i` gives postings `2i` (its debit side) and `2i + 1` (its credit
      side). */
  lemma {:induction false} PostingsAt(entries: seq<Shiwake>, i: nat)
    requires i < |entries|
    ensures Postings(entries)[2 * i] == Posting(KariSide, entries[i])
    ensures Postings(entries)[2 * i + 1] == Posting(KashiSide, entries[i])
  {
    if i < |entries| - 1 {
      var init := entries[..|entries| - 1];
      PostingsAt(init, i);
    }
  }

  lemma PostingsStep(entries: seq<Shiwake>, e: Shiwake)
    ensures Postings(entries + [e]) == Postings(entries) + [Posting(KariSide, e), Posting(KashiSide, e)]
  {
    assert (entries + [e])[..|entries|] == entries;
  }

  /** +1 when a posting lands on the account's natural side, -1 otherwise:
      a debit counts +1 only for a "借方" account, a credit only for a "貸方"
      account. */
  function PlusMinus(t: KashikariType, side: Side): int
  {
    match side
    case KariSide => if t == Karikata then 1 else -1
    case KashiSide => if t == Kashikata then 1 else -1
  }

  /** Read from the sheet's text, the sign is +1 for a debit exactly when the
      text is "借方" and for a credit exactly when it is "貸方"; -1 otherwise. */
  lemma PlusMinusOfText(s: string, side: Side)
    ensures PlusMinus(KashikariTypeOf(s), side) == 1 <==>
              (side == KariSide && s == "借方") || (side == KashiSide && s == "貸方")
    ensures PlusMinus(KashikariTypeOf(s), side) == -1 <==>
              !((side == KariSide && s == "借方") || (side == KashiSide && s == "貸方"))
  {
  }

  /** What a posting adds to the balance of account `name`. */
  function Signed(master: map<string, Kamoku>, name: string): Posting -> int
  {
    (p: Posting) => if p.Account() == name && name in master
         then PlusMinus(master[name].kashikariType, p.side) * p.Amount()
         else 0
  }

  /** The balance of account `name` after the postings `ps`, starting from 0. */
  function Balance(ps: seq<Posting>, master: map<string, Kamoku>, name: string): int
  {
    Sum(ps, Signed(master, name))
  }

  lemma BalanceStep(ps: seq<Posting>, p: Posting, master: map<string, Kamoku>, name: string)
    ensures Balance(ps + [p], master, name) == Balance(ps, master, name) + Signed(master, name)(p)
  {
    assert (ps + [p])[..|ps|] == ps;
  }

  /** Every posting's account is in the master. */
  predicate Known(ps: seq<Posting>, master: map<string, Kamoku>)
  {
    forall i :: 0 <= i < |ps| ==> ps[i].Account() in master
  }

  /** The ledger row for posting `p` to account `k`, carrying balance `zandaka`. */
  function LedgerRow(p: Posting, k: Kamoku, zandaka: int): Soukanjo
  {
    Soukanjo(
      shiwakeId := p.entry.id,
      kamokuOrder := k.outputOrder,
      date := p.entry.date,
      kamoku := p.Account(),
      aiteKamoku := p.Counterpart(),
      summary := p.entry.summary,
      kariPrice := if p.side == KariSide then p.entry.kariPrice else 0,
      kashiPrice := if p.side == KashiSide then p.entry.kashiPrice else 0,
      zandaka := zandaka)
  }

  /** The ledger rows in posting order, each carrying the balance of its
      account after that posting. */
  function LedgerRows(ps: seq<Posting>, master: map<string, Kamoku>): (rows: seq<Soukanjo>)
    requires Known(ps, master)
    ensures |rows| == |ps|
  {
    if ps == [] then []
    else
      var p := ps[|ps| - 1];
      LedgerRows(ps[..|ps| - 1], master) + [LedgerRow(p, master[p.Account()], Balance(ps, master, p.Account()))]
  }

  lemma LedgerStep(ps: seq<Posting>, p: Posting, master: map<string, Kamoku>)
    requires Known(ps, master) && p.Account() in master
    ensures Known(ps + [p], master)
    ensures LedgerRows(ps + [p], master)
            == LedgerRows(ps, master) + [LedgerRow(p, master[p.Account()], Balance(ps + [p], master, p.Account()))]
  {
    assert (ps + [p])[..|ps|] == ps;
  }

  /** Row `k` of the ledger records posting `k`, and its balance is the
      signed sum of every posting to that account up to and including this
      one. */
  lemma {:induction false} LedgerRowAt(ps: seq<Posting>, master: map<string, Kamoku>, k: nat)
    requires Known(ps, master) && k < |ps|
    ensures LedgerRows(ps, master)[k]
            == LedgerRow(ps[k], master[ps[k].Account()], Balance(ps[..k + 1], master, ps[k].Account()))
  {
    if k < |ps| - 1 {
      var init := ps[..|ps| - 1];
      LedgerRowAt(init, master, k);
      assert init[..k + 1] == ps[..k + 1];
    } else {
      assert ps[..k + 1] == ps;
    }
  }

  /** The two ledger rows of entry `i`: row `2i` is its debit side, seen
      from the debit account, and row `2i + 1` its credit side, seen from
      the credit account; both carry the entry's id, date and summary. */
  lemma EntryRows(entries: seq<Shiwake>, master: map<string, Kamoku>, i: nat)
    requires Known(Postings(entries), master) && i < |entries|
    ensures var rows, e := LedgerRows(Postings(entries), master), entries[i];
            var debit, credit := rows[2 * i], rows[2 * i + 1];
            && e.kariKamoku in master && e.kashiKamoku in master
            && debit.kamoku == e.kariKamoku && debit.aiteKamoku == e.kashiKamoku
            && debit.kariPrice == e.kariPrice && debit.kashiPrice == 0
            && debit.kamokuOrder == master[e.kariKamoku].outputOrder
            && credit.kamoku == e.kashiKamoku && credit.aiteKamoku == e.kariKamoku
            && credit.kariPrice == 0 && credit.kashiPrice == e.kashiPrice
            && credit.kamokuOrder == master[e.kashiKamoku].outputOrder
            && debit.shiwakeId == credit.shiwakeId == e.id
            && debit.date == credit.date == e.date
            && debit.summary == credit.summary == e.summary
  {
    PostingsAt(entries, i);
    LedgerRowAt(Postings(entries), master, 2 * i);
    LedgerRowAt(Postings(entries), master, 2 * i + 1);
  }

  // ---------------------------------------------------------------------
  // Unknown accounts
  // ---------------------------------------------------------------------

  /** The error an entry raises: its debit account is checked first. */
  function EntryCheck(e: Shiwake, master: map<string, Kamoku>): Option<ChoboError>
  {
    if e.kariKamoku !in master then Some(UnknownKariKamoku(e.kariKamoku))
    else if e.kashiKamoku !in master then Some(UnknownKashiKamoku(e.kashiKamoku))
    else None
  }

  /** The error of the first entry that raises one, if any. */
  function FirstUnknown(entries: seq<Shiwake>, master: map<string, Kamoku>): Option<ChoboError>
  {
    if entries == [] then None
    else
      var earlier := FirstUnknown(entries[..|entries| - 1], master);
      if earlier.Some? then earlier else EntryCheck(entries[|entries| - 1], master)
  }

  lemma FirstUnknownStep(entries: seq<Shiwake>, e: Shiwake, master: map<string, Kamoku>)
    ensures FirstUnknown(entries + [e], master)
            == if FirstUnknown(entries, master).Some? then FirstUnknown(entries, master) else EntryCheck(e, master)
  {
    assert (entries + [e])[..|entries|] == entries;
  }

  /** Once an entry has raised an error, later entries do not change it. */
  lemma {:induction false} FirstUnknownPrefix(entries: seq<Shiwake>, master: map<string, Kamoku>, k: nat)
    requires k <= |entries| && FirstUnknown(entries[..k], master).Some?
    ensures FirstUnknown(entries, master) == FirstUnknown(entries[..k], master)
    decreases |entries| - k
  {
    if k < |entries| {
      FirstUnknownStep(entries[..k], entries[k], master);
      assert entries[..k] + [entries[k]] == entries[..k + 1];
      FirstUnknownPrefix(entries, master, k + 1);
    } else {
      assert entries[..k] == entries;
    }
  }

  /** No error exactly when every entry passes; otherwise the error is that
      of an entry all of whose predecessors pass. */
  lemma {:induction false} FirstUnknownMeaning(entries: seq<Shiwake>, master: map<string, Kamoku>)
    ensures var r := FirstUnknown(entries, master);
            && (r.None? <==> forall i :: 0 <= i < |entries| ==> EntryCheck(entries[i], master).None?)
            && (r.Some? ==> exists i :: 0 <= i < |entries| && r == EntryCheck(entries[i], master)
                                         && forall j :: 0 <= j < i ==> EntryCheck(entries[j], master).None?)
  {
    if entries != [] {
      var init := entries[..|entries| - 1];
      FirstUnknownMeaning(init, master);
      assert forall i :: 0 <= i < |init| ==> init[i] == entries[i];
    }
  }

  /** The first entry that raises an error decides it. */
  lemma FirstUnknownAt(entries: seq<Shiwake>, master: map<string, Kamoku>, i: nat)
    requires i < |entries| && EntryCheck(entries[i], master).Some?
    requires forall j :: 0 <= j < i ==> EntryCheck(entries[j], master).None?
    ensures FirstUnknown(entries, master) == EntryCheck(entries[i], master)
  {
    FirstUnknownMeaning(entries[..i], master);
    FirstUnknownStep(entries[..i], entries[i], master);
    assert entries[..i] + [entries[i]] == entries[..i + 1];
    FirstUnknownPrefix(entries, master, i + 1);
  }

  /** With no unknown account, every posting's account is in the master. */
  lemma KnownPostings(entries: seq<Shiwake>, master: map<string, Kamoku>)
    requires FirstUnknown(entries, master).None?
    ensures Known(Postings(entries), master)
  {
    var ps := Postings(entries);
    FirstUnknownMeaning(entries, master);
    forall k | 0 <= k < |ps|
      ensures ps[k].Account() in master
    {
      var i := k / 2;
      assert k == 2 * i || k == 2 * i + 1;
      PostingsAt(entries, i);
      assert EntryCheck(entries[i], master).None?;
    }
  }

  // ---------------------------------------------------------------------
  // Trial balance
  // ---------------------------------------------------------------------

  /** What a ledger row contributes to account `name`'s total on `side`. */
  function RowPrice(name: string, side: Side): Soukanjo -> int
  {
    (row: Soukanjo) => if row.kamoku != name then 0
           else if side == KariSide then row.kariPrice
           else row.kashiPrice
  }

  /** The gross debit or credit total of account `name` over ledger rows. */
  function Total(rows: seq<Soukanjo>, name: string, side: Side): int
  {
    Sum(rows, RowPrice(name, side))
  }

  /** The trial-balance row of account `k`: its gross totals, and its net
      balance on its natural side (0 on the other side). */
  function TrialBalanceRow(k: Kamoku, rows: seq<Soukanjo>): Shisan
  {
    var kari := Total(rows, k.name, KariSide);
    var kashi := Total(rows, k.name, KashiSide);
    Shisan(
      order := k.outputOrder,
      kamokuName := k.name,
      kariZandaka := if k.kashikariType == Karikata then kari - kashi else 0,
      kashiZandaka := if k.kashikariType == Kashikata then kashi - kari else 0,
      totalKariPrice := kari,
      totalKashiPrice := kashi)
  }

  /** The trial balance depends only on which ledger rows there are, not on
      their order. */
  lemma TrialBalanceRowPermutation(k: Kamoku, rows: seq<Soukanjo>, rows': seq<Soukanjo>)
    requires multiset(rows) == multiset(rows')
    ensures TrialBalanceRow(k, rows) == TrialBalanceRow(k, rows')
  {
    SumPermutation(rows, rows', RowPrice(k.name, KariSide));
    SumPermutation(rows, rows', RowPrice(k.name, KashiSide));
  }

  /** Adding one ledger row to the trial balance of account `k`: a row of
      another account changes nothing; a row of `k` adds its amounts to the
      gross totals and its natural-side net to the net balance. */
  lemma TrialBalanceStep(k: Kamoku, rows: seq<Soukanjo>, row: Soukanjo)
    ensures row.kamoku != k.name ==> TrialBalanceRow(k, rows + [row]) == TrialBalanceRow(k, rows)
    ensures row.kamoku == k.name ==>
              var t, t' := TrialBalanceRow(k, rows), TrialBalanceRow(k, rows + [row]);
              && t'.totalKariPrice == t.totalKariPrice + row.kariPrice
              && t'.totalKashiPrice == t.totalKashiPrice + row.kashiPrice
              && t'.kariZandaka == t.kariZandaka + (if k.kashikariType == Karikata then row.kariPrice - row.kashiPrice else 0)
              && t'.kashiZandaka == t.kashiZandaka + (if k.kashikariType == Kashikata then row.kashiPrice - row.kariPrice else 0)
              && t'.order == t.order && t'.kamokuName == t.kamokuName
  {
    assert (rows + [row])[..|rows|] == rows;
  }

  /** An account with no ledger rows has all four amounts at zero. */
  lemma TrialBalanceRowIdle(k: Kamoku, rows: seq<Soukanjo>)
    requires forall i :: 0 <= i < |rows| ==> rows[i].kamoku != k.name
    ensures TrialBalanceRow(k, rows) == Shisan(k.outputOrder, k.name, 0, 0, 0, 0)
  {
    IdleTotal(rows, k.name, KariSide);
    IdleTotal(rows, k.name, KashiSide);
  }

  lemma {:induction false} IdleTotal(rows: seq<Soukanjo>, name: string, side: Side)
    requires forall i :: 0 <= i < |rows| ==> rows[i].kamoku != name
    ensures Total(rows, name, side) == 0
  {
    if rows != [] {
      IdleTotal(rows[..|rows| - 1], name, side);
    }
  }

  // ---------------------------------------------------------------------
  // From journal entries to totals
  // ---------------------------------------------------------------------

  /** What a journal entry contributes to account `name` on `side`. */
  function EntryPrice(name: string, side: Side): Shiwake -> int
  {
    (e: Shiwake) => if side == KariSide
         then (if e.kariKamoku == name then e.kariPrice else 0)
         else (if e.kashiKamoku == name then e.kashiPrice else 0)
  }

  /** One more posting adds its amount to its own account's total on its
      own side, and nothing to any other total. */
  lemma TotalStep(ps: seq<Posting>, p: Posting, master: map<string, Kamoku>, name: string, side: Side)
    requires Known(ps, master) && p.Account() in master
    ensures Known(ps + [p], master)
    ensures Total(LedgerRows(ps + [p], master), name, side)
            == Total(LedgerRows(ps, master), name, side) + (if p.Account() == name && p.side == side then p.Amount() else 0)
  {
    LedgerStep(ps, p, master);
    SumSnoc(LedgerRows(ps, master), LedgerRow(p, master[p.Account()], Balance(ps + [p], master, p.Account())), RowPrice(name, side));
  }

  /** An account's ledger totals are the amounts of the entries that name it
      on that side. */
  lemma {:induction false} LedgerTotals(entries: seq<Shiwake>, master: map<string, Kamoku>, name: string, side: Side)
    requires Known(Postings(entries), master)
    ensures Total(LedgerRows(Postings(entries), master), name, side) == Sum(entries, EntryPrice(name, side))
  {
    if entries != [] {
      var init, e := entries[..|entries| - 1], entries[|entries| - 1];
      assert entries == init + [e];
      var ps := Postings(init);
      var d, c := Posting(KariSide, e), Posting(KashiSide, e);
      PostingsStep(init, e);
      assert Postings(entries) == (ps + [d]) + [c];
      assert forall i :: 0 <= i < |ps| ==> ps[i] == Postings(entries)[i];
      assert d == Postings(entries)[|ps|] && c == Postings(entries)[|ps| + 1];
      TotalStep(ps, d, master, name, side);
      TotalStep(ps + [d], c, master, name, side);
      LedgerTotals(init, master, name, side);
      SumSnoc(init, e, EntryPrice(name, side));
    }
  }

  /** An account's final balance, by its natural side: debit total minus
      credit total for "借方", credit minus debit for "貸方", and minus both
      for any other type. */
  lemma {:induction false} ClosingBalance(entries: seq<Shiwake>, master: map<string, Kamoku>, name: string)
    requires name in master
    ensures var kari, kashi := Sum(entries, EntryPrice(name, KariSide)), Sum(entries, EntryPrice(name, KashiSide));
            var b := Balance(Postings(entries), master, name);
            && (master[name].kashikariType == Karikata ==> b == kari - kashi)
            && (master[name].kashikariType == Kashikata ==> b == kashi - kari)
            && (master[name].kashikariType.OtherType? ==> b == -(kari + kashi))
  {
    if entries != [] {
      var init, e := entries[..|entries| - 1], entries[|entries| - 1];
      assert entries == init + [e];
      var ps := Postings(init);
      var d, c := Posting(KariSide, e), Posting(KashiSide, e);
      PostingsStep(init, e);
      assert ps + [d, c] == (ps + [d]) + [c];
      BalanceStep(ps + [d], c, master, name);
      BalanceStep(ps, d, master, name);
      ClosingBalance(init, master, name);
    }
  }

  /** The trial balance of a ledger built from `entries`, in any order:
      its gross totals are the amounts the entries post to the account on
      each side, and its natural-side net is the account's closing running
      balance. */
  lemma TrialBalanceOfLedger(entries: seq<Shiwake>, master: map<string, Kamoku>, rows: seq<Soukanjo>, name: string)
    requires Known(Postings(entries), master)
    requires multiset(rows) == multiset(LedgerRows(Postings(entries), master))
    requires name in master && master[name].name == name
    ensures var t := TrialBalanceRow(master[name], rows);
            && t.totalKariPrice == Sum(entries, EntryPrice(name, KariSide))
            && t.totalKashiPrice == Sum(entries, EntryPrice(name, KashiSide))
            && (master[name].kashikariType == Karikata ==> t.kariZandaka == Balance(Postings(entries), master, name))
            && (master[name].kashikariType == Kashikata ==> t.kashiZandaka == Balance(Postings(entries), master, name))
  {
    TrialBalanceRowPermutation(master[name], rows, LedgerRows(Postings(entries), master));
    LedgerTotals(entries, master, name, KariSide);
    LedgerTotals(entries, master, name, KashiSide);
    ClosingBalance(entries, master, name);
  }
}
