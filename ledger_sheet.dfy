/**
 * The ledger spreadsheets as the bot reads and writes them (bots/telegrambot.js):
 * the four-row block `setupLedgerStructure` leaves above the data (title,
 * creation info, an empty row, the column headers), and `addEntryToSheet`,
 * which reads the balance cell of the last data row, adds credit and subtracts
 * debit, and appends exactly one eight-column row. A sheet is the sequence of
 * rows `values.get` returns for `Ledger!A:H`, each row a sequence of cell texts.
 */
module LedgerSheet {
  import opened Wrappers
  import opened Text
  import opened LedgerService
  import opened EntryParser

  type Row = seq<string>
  type Sheet = seq<Row>

  /** Data starts after this many rows (`frozenRowCount: 4`, `rows.slice(4)`). */
  const HeaderRows: nat := 4
  /** Column G, "Balance". */
  const BalanceColumn: nat := 6
  const RowWidth: nat := 8

  const Headers: Row := ["Date", "VCh Name", "VCh Number", "Description", "Debit", "Credit", "Balance", "Party Name / Remarks"]

  /**
   * The rows of a freshly set-up sheet: the title in A1, "Created by: <username> |
   * Created on: <createdOn>" in A2, an empty third row and the headers in row 4.
   * `createdOn` is the clock reading `new Date().toLocaleString()` gives.
   */
  function HeaderBlock(title: string, username: string, createdOn: string): (rows: Sheet)
    ensures |rows| == HeaderRows && rows[HeaderRows - 1] == Headers && |Headers| == RowWidth
  {
    [[title], ["Created by: " + username + " | Created on: " + createdOn], [], Headers]
  }

  /** `rows.slice(4)`. */
  function DataRows(rows: Sheet): (data: Sheet)
    ensures |data| == if |rows| <= HeaderRows then 0 else |rows| - HeaderRows
    ensures forall i :: 0 <= i < |data| ==> data[i] == rows[HeaderRows + i]
  {
    if |rows| <= HeaderRows then [] else rows[HeaderRows..]
  }

  /** `parseFloat(row[col]) || 0`: a missing or unparseable cell counts as 0. */
  function CellNumber(row: Row, col: nat): int
  {
    if col < |row| then ParseNumber(row[col]).GetOr(0) else 0
  }

  /** The balance `addEntryToSheet` starts from: the last data row's balance cell, or 0 without data rows. */
  function CurrentBalance(rows: Sheet): (b: int)
    ensures |rows| <= HeaderRows ==> b == 0
    ensures |rows| > HeaderRows ==> b == CellNumber(rows[|rows| - 1], BalanceColumn)
  {
    var data := DataRows(rows);
    if |data| > 0 then CellNumber(data[|data| - 1], BalanceColumn) else 0
  }

  /** `currentBalance + entryData.credit - entryData.debit`. */
  function NewBalance(balance: int, e: ParsedEntry): int
  {
    balance + e.credit - e.debit
  }

  /** `amount || ""`: a zero amount leaves the cell empty. */
  function AmountCell(amount: int): (cell: string)
    ensures cell == "" <==> amount == 0
  {
    if amount == 0 then "" else IntToString(amount)
  }

  /** `entryData.vchNumber || nanoid()`: a missing or empty voucher number is replaced by the fresh token. */
  function VoucherCell(vchNumber: Option<string>, token: string): string
  {
    if vchNumber.Some? && vchNumber.value != "" then vchNumber.value else token
  }

  /** `newRow` of `addEntryToSheet`, for the balance it started from. */
  function NewRow(e: ParsedEntry, balance: int, token: string): (row: Row)
    ensures |row| == RowWidth
    ensures row[BalanceColumn] == IntToString(balance + e.credit - e.debit)
  {
    [e.date, e.vchName, VoucherCell(e.vchNumber, token), e.description,
     AmountCell(e.debit), AmountCell(e.credit), IntToString(NewBalance(balance, e)), e.partyName]
  }

  /** The sheet after one successful append. */
  function AppendEntry(rows: Sheet, e: ParsedEntry, token: string): (r: Sheet)
    ensures |r| == |rows| + 1 && r[..|rows|] == rows
    ensures r[|rows|] == NewRow(e, CurrentBalance(rows), token)
  {
    rows + [NewRow(e, CurrentBalance(rows), token)]
  }

  /** An amount cell reads back as the amount, an empty one as 0. */
  lemma AmountCellRoundTrip(amount: int)
    ensures ParseNumber(AmountCell(amount)).GetOr(0) == amount
  {
    if amount != 0 {
      NumberRoundTrip(amount);
    }
  }

  /** The appended row has the eight columns in order, and its amount and balance cells read back as numbers. */
  lemma NewRowReadsBack(e: ParsedEntry, balance: int, token: string)
    ensures var row := NewRow(e, balance, token);
      && |row| == RowWidth
      && row[0] == e.date && row[1] == e.vchName && row[3] == e.description && row[7] == e.partyName
      && row[2] == (if e.vchNumber.Some? && e.vchNumber.value != "" then e.vchNumber.value else token)
      && CellNumber(row, 4) == e.debit
      && CellNumber(row, 5) == e.credit
      && CellNumber(row, BalanceColumn) == balance + e.credit - e.debit
  {
    AmountCellRoundTrip(e.debit);
    AmountCellRoundTrip(e.credit);
    NumberRoundTrip(NewBalance(balance, e));
  }

  /**
   * One append below the header block keeps every earlier row, adds exactly one
   * eight-column row, and moves the balance by credit minus debit.
   */
  lemma AppendEntryEffect(rows: Sheet, e: ParsedEntry, token: string)
    requires |rows| >= HeaderRows
    ensures var r := AppendEntry(rows, e, token);
      && |r| == |rows| + 1
      && r[..|rows|] == rows
      && |r[|rows|]| == RowWidth
      && CurrentBalance(r) == CurrentBalance(rows) + e.credit - e.debit
  {
    var r := AppendEntry(rows, e, token);
    assert r[..|rows|] == rows;
    NewRowReadsBack(e, CurrentBalance(rows), token);
    var data := DataRows(r);
    assert data[|data| - 1] == r[|r| - 1];
  }

  /** Successive appends of `entries`; `tokens[i]` is the fresh token drawn for entry i. */
  function AppendAll(rows: Sheet, entries: seq<ParsedEntry>, tokens: seq<string>): Sheet
    requires |tokens| == |entries|
    decreases |entries|
  {
    if entries == [] then rows
    else
      var k := |entries| - 1;
      AppendEntry(AppendAll(rows, entries[..k], tokens[..k]), entries[k], tokens[k])
  }

  function SumCredit(entries: seq<ParsedEntry>): int
    decreases |entries|
  {
    if entries == [] then 0 else SumCredit(entries[..|entries| - 1]) + entries[|entries| - 1].credit
  }

  function SumDebit(entries: seq<ParsedEntry>): int
    decreases |entries|
  {
    if entries == [] then 0 else SumDebit(entries[..|entries| - 1]) + entries[|entries| - 1].debit
  }

  /** After k appends the earlier rows are intact, k rows were added, and the balance moved by the credits minus the debits. */
  lemma {:induction false} AppendAllEffect(rows: Sheet, entries: seq<ParsedEntry>, tokens: seq<string>)
    requires |rows| >= HeaderRows && |tokens| == |entries|
    ensures var r := AppendAll(rows, entries, tokens);
      && |r| == |rows| + |entries|
      && r[..|rows|] == rows
      && CurrentBalance(r) == CurrentBalance(rows) + SumCredit(entries) - SumDebit(entries)
    decreases |entries|
  {
    if entries != [] {
      var k := |entries| - 1;
      AppendAllEffect(rows, entries[..k], tokens[..k]);
      var before := AppendAll(rows, entries[..k], tokens[..k]);
      AppendEntryEffect(before, entries[k], tokens[k]);
      var r := AppendEntry(before, entries[k], tokens[k]);
      assert r[..|rows|] == r[..|before|][..|rows|];
      assert SumCredit(entries) == SumCredit(entries[..k]) + entries[k].credit;
      assert SumDebit(entries) == SumDebit(entries[..k]) + entries[k].debit;
    }
  }

  /** From a sheet holding only the header block, the balance after k appends is the credits minus the debits. */
  lemma BalanceFromFreshSheet(title: string, username: string, createdOn: string,
                              entries: seq<ParsedEntry>, tokens: seq<string>)
    requires |tokens| == |entries|
    ensures CurrentBalance(AppendAll(HeaderBlock(title, username, createdOn), entries, tokens))
         == SumCredit(entries) - SumDebit(entries)
  {
    AppendAllEffect(HeaderBlock(title, username, createdOn), entries, tokens);
  }

  /** Why an append failed: the ledger has no sheet id, or the Google API call failed. */
  datatype AppendError = NoSheet | SheetUnavailable

  /** `{ isSuccess: true, data: { newBalance } }` or `{ isSuccess: false }`. */
  datatype AppendResult = Appended(newBalance: int) | AppendFailed(error: AppendError)

  /** `ledger.sheetId`, where `!spreadsheetId` treats the empty string like a missing id. */
  function SheetOf(ledger: Ledger): (r: Option<SheetId>)
    ensures r.Some? ==> r.value != "" && ledger.sheetId == r
  {
    if ledger.sheetId.Some? && ledger.sheetId.value != "" then ledger.sheetId else None
  }

  /**
   * What `addEntryToSheet` reports. `apiOk` stands for all of its Google calls
   * succeeding. The client set-up call comes before the sheet id check, so its
   * failure wins over a missing sheet id; the `values.get` and `values.append`
   * calls come after it, and a sheet id the API does not know fails `values.get`.
   */
  function AppendResultFor(sheets: map<SheetId, Sheet>, ledger: Ledger, e: ParsedEntry, apiOk: bool): (r: AppendResult)
    ensures r.Appended? <==> apiOk && SheetOf(ledger).Some? && SheetOf(ledger).value in sheets
    ensures r == AppendFailed(NoSheet) <==> apiOk && SheetOf(ledger).None?
    ensures r.Appended? ==> r.newBalance == NewBalance(CurrentBalance(sheets[SheetOf(ledger).value]), e)
  {
    if !apiOk then AppendFailed(SheetUnavailable)
    else match SheetOf(ledger)
      case None => AppendFailed(NoSheet)
      case Some(sid) =>
        if sid in sheets then Appended(NewBalance(CurrentBalance(sheets[sid]), e)) else AppendFailed(SheetUnavailable)
  }

  /** Every sheet still holds its header block. */
  ghost predicate SheetsValid(sheets: map<SheetId, Sheet>)
  {
    forall sid :: sid in sheets ==> |sheets[sid]| >= HeaderRows
  }

  /** The spreadsheets, by spreadsheet id. */
  class SheetStore {
    var sheets: map<SheetId, Sheet>

    ghost predicate Valid()
      reads this
    {
      SheetsValid(sheets)
    }

    constructor ()
      ensures Valid() && sheets == map[]
    {
      sheets := map[];
    }

    /** `createLedgerSheet` when it succeeds: a new spreadsheet `sid` holding the header block. */
    method CreateSheet(sid: SheetId, title: string, username: string, createdOn: string)
      requires Valid() && sid !in sheets
      modifies this
      ensures Valid()
      ensures sheets == old(sheets)[sid := HeaderBlock(title, username, createdOn)]
    {
      sheets := sheets[sid := HeaderBlock(title, username, createdOn)];
    }

    /**
     * `addEntryToSheet(ledger, entryData)`; `token` is the `nanoid()` used when the
     * entry has no voucher number. Only a successful call changes a sheet, and it
     * changes only the ledger's own sheet.
     */
    method AddEntryToSheet(ledger: Ledger, e: ParsedEntry, token: string, apiOk: bool) returns (r: AppendResult)
      requires Valid()
      modifies this
      ensures Valid()
      ensures r == AppendResultFor(old(sheets), ledger, e, apiOk)
      ensures r.Appended? ==> sheets == old(sheets)[SheetOf(ledger).value := AppendEntry(old(sheets)[SheetOf(ledger).value], e, token)]
      ensures r.AppendFailed? ==> sheets == old(sheets)
    {
      if !apiOk {
        return AppendFailed(SheetUnavailable);
      }
      var spreadsheetId := SheetOf(ledger);
      if spreadsheetId.None? {
        return AppendFailed(NoSheet);
      }
      var sid := spreadsheetId.value;
      if sid !in sheets {
        return AppendFailed(SheetUnavailable);
      }
      var rows := sheets[sid];
      var balance := CurrentBalance(rows);
      var newRow := NewRow(e, balance, token);
      sheets := sheets[sid := rows + [newRow]];
      r := Appended(NewBalance(balance, e));
    }
  }

  /**
   * As the bot is written the attach step never stores a sheet id (see
   * `LedgerService.AttachSheetIdAsWritten`), so every ledger it created keeps
   * `sheetId` unset and every append, even with the API up, fails as "no sheet".
   */
  lemma AppendFailsAsWritten(ledgers: seq<Ledger>, i: nat, sid: SheetId,
                             sheets: map<SheetId, Sheet>, e: ParsedEntry)
    requires UniqueIds(ledgers) && i < |ledgers| && ledgers[i].sheetId.None?
    ensures var found := FindLedger(AttachSheetIdAsWritten(ledgers, ledgers[i].id, sid), ledgers[i].id);
      found.Some? && AppendResultFor(sheets, found.value, e, true) == AppendFailed(NoSheet)
  {
    AttachLostAsWritten(ledgers, i, sid);
  }

  /** With the sheet id stored as intended, an append to that ledger succeeds whenever the API is up. */
  lemma AppendSucceedsAfterAttach(ledgers: seq<Ledger>, i: nat, sid: SheetId,
                                  sheets: map<SheetId, Sheet>, e: ParsedEntry)
    requires UniqueIds(ledgers) && i < |ledgers| && sid != "" && sid in sheets
    ensures var found := FindLedger(AttachSheetId(ledgers, ledgers[i].id, sid), ledgers[i].id);
      found.Some? && AppendResultFor(sheets, found.value, e, true) == Appended(NewBalance(CurrentBalance(sheets[sid]), e))
  {
    AttachThenFind(ledgers, i, sid);
  }
}
