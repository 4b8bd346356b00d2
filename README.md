# FinSage ledger bot — a Dafny model of its core

FinSage is a Telegram bot that keeps cash ledgers in Google Sheets. A user
creates a ledger with `/new_l`: the bot asks for a name, asks for
confirmation, stores the ledger in MongoDB and creates a spreadsheet for it.
A user adds an entry with `/new_e`: the bot lists the user's ledgers five to a
page, the user picks one and types a free-text entry, an AI model turns it into
a structured entry, and after a confirmation the bot appends one row with a
running balance to the ledger's spreadsheet.

The model covers:

- the per-user conversation state (`userStates`) and every handler that changes it (`Dialog.Bot`);
- the page slicing and the `ledger_page:` / `select_ledger:` button tokens (`Pagination`);
- the clean-up of the AI reply and the confidence gate (`EntryParser`);
- the balance rule and the appended row (`LedgerSheet`);
- `createLedgerByUser` over an in-memory ledger and user store (`LedgerService`).

`Text` has the decimal printing and parsing, `split(":")[1]` and the
unanchored command match that these modules share. `Wrappers` has the Option type.

Each event is one atomic step. What the outside world answers comes in as
event parameters:

- the AI reply;
- the ledger id the database assigns;
- the spreadsheet id Google returns, or None when sheet creation failed;
- the `nanoid()` token and the clock text;
- whether the Google calls succeed.

The code registers two `callback_query` handlers, and both run on every press. They are modelled as one dispatch (`Dialog.Classify`).

The creation saga is modelled with the attach and delete the code evidently
intends. The code as written does neither; see "## Findings". With the intended
behaviour, `Dialog.Bot.Valid` states that every stored ledger has a spreadsheet
that exists. Every handler keeps that invariant. The invariant is what lets the
append saga guarantee that an entry for an existing ledger fails only when the
Google API does.

In three places the code does less than one would expect, and the model follows the code.

- **The gate does not check debit and credit.** The prompt asks the AI for exactly one non-zero amount, but the gate only checks `isValid` and `confidence >= 0.6` (`EntryParser.GateAdmitsBothAmounts`).
- **`/cancel` typed while naming.** The text handler first stores it as the ledger name, and then the command handler removes the record.
- **Callbacks mostly ignore the step.** `select_ledger:`, `confirm_entry_no` and `edit_entry` act whatever the step. `confirm_ledger_no` removes the record whatever the step.

## Model

| member | source | states |
|---|---|---|
| `Text.NatToString` | bots/telegrambot.js:880-891 | the printed page number is a non-empty run of digits with no leading zero |
| `Text.DigitsRoundTrip` | bots/telegrambot.js:941-942 | the digits printed for n have the value n |
| `Text.LeadingDigits` | bots/telegrambot.js:942 | the length of the leading run of digits, which `parseInt` reads |
| `Text.ParseNat` | bots/telegrambot.js:942 | `parseInt` gives a number exactly when the text starts with a digit, NaN otherwise |
| `Text.NatRoundTrip` | bots/telegrambot.js:941-942 | parsing a printed page number gives the number back |
| `Text.IntToString` | bots/telegrambot.js:1252 | a written balance is never an empty cell |
| `Text.ParseNumber` | bots/telegrambot.js:1238 | `parseFloat` gives a number exactly when a digit starts the text, optionally after one sign |
| `Text.NumberRoundTrip` | bots/telegrambot.js:1238 | reading back a written balance gives the same integer, negative ones included |
| `Text.UpToColon` | bots/telegrambot.js:942 | the field has no ':' and is a prefix; it stops at the first ':' |
| `Text.AfterColon` | bots/telegrambot.js:942 | what follows the first ':' is shorter than the token |
| `Text.SecondField` | bots/telegrambot.js:942 | `split(":")[1]` never contains a ':' |
| `Text.UpToColonWhole` | bots/telegrambot.js:965 | a text without ':' is its own first field |
| `Text.SecondFieldAfterPrefix` | bots/telegrambot.js:965 | after a `prefix:` the second field is the text up to the next ':' |
| `Text.Contains` | bots/telegrambot.js:285 | an unanchored pattern matches exactly when it occurs somewhere in the text |
| `Pagination.NoColonInDigits` | bots/telegrambot.js:942 | a printed page number contains no ':' |
| `Pagination.PageTokenRoundTrip` | bots/telegrambot.js:941-942 | a Prev/Next token carries the page prefix and parses back to its target page |
| `Pagination.SelectTokenRoundTrip` | bots/telegrambot.js:964-965 | a ledger token is not a page token and gives back the ledger id, for an id without ':' |
| `Pagination.CallbackData` | bots/telegrambot.js:873-889 | a ledger button carries `select_ledger:` followed by exactly its id; a Prev/Next button carries `ledger_page:` followed by digits only |
| `Pagination.PageFromToken` | bots/telegrambot.js:942 | the page is a number exactly when the second field starts with a digit, and NaN otherwise |
| `Pagination.LedgerIdFromToken` | bots/telegrambot.js:965 | the ledger id taken from a token never contains a ':' |
| `Pagination.TotalPages` | bots/telegrambot.js:866 | `ceil(n/5)`: the pages hold all n ledgers, and without the last page they would not |
| `Pagination.Slice` | bots/telegrambot.js:868 | `slice(start, end)` clamps to the length and keeps the elements in order |
| `Pagination.LedgerRows` | bots/telegrambot.js:870-875 | one row with one select button per ledger on the page, in order |
| `Pagination.RenderPage` | bots/telegrambot.js:862-904 | the buttons of a page, then a nav row only when it is non-empty: Prev to p-1 iff p > 0, Next to p+1 iff p < totalPages-1, and nothing else |
| `Pagination.NavRow` | bots/telegrambot.js:878-894 | at most two buttons: Prev only to the page before, Next only to the page after and only when that page exists |
| `Pagination.PageShowsRange` | bots/telegrambot.js:863-868 | page p shows exactly the ledgers with indices in [5p, min(5p+5, n)) |
| `Pagination.LedgerOnItsPage` | bots/telegrambot.js:863-870 | ledger i appears on page i div 5 at position i mod 5, and that page exists |
| `Pagination.PagesCoverAll` | bots/telegrambot.js:863-868 | pages 0 .. totalPages-1 together list every ledger once, in order |
| `Pagination.NavStaysInRange` | bots/telegrambot.js:879-891 | from an existing page, Prev and Next lead only to pages that exist |
| `Pagination.TwelveLedgers` | bots/telegrambot.js:862-896 | with 12 ledgers there are 3 pages; page 0 has ledgers 1-5 and only Next, page 2 has ledgers 11-12 and only Prev |
| `EntryParser.GateAdmitsBothAmounts` | bots/telegrambot.js:141 | for every entry and every pair of amounts, changing the amounts never changes whether the gate passes; an entry with both a debit and a credit passes |

| `EntryParser.TrimStart` | bots/telegrambot.js:1178 | strips exactly the leading JavaScript white space |
| `EntryParser.TrimEnd` | bots/telegrambot.js:1178 | strips exactly the trailing JavaScript white space |
| `EntryParser.Trim` | bots/telegrambot.js:1178 | the trimmed text is no longer than the input and has no white space at either end |
| `EntryParser.TrimIsInfix` | bots/telegrambot.js:1178 | `trim` returns a contiguous part of its input |
| `EntryParser.TrimKeeps` | bots/telegrambot.js:1184 | a text without white space at either end is unchanged by `trim` |
| `EntryParser.TrimIdempotent` | bots/telegrambot.js:1184 | trimming twice is trimming once |
| `EntryParser.TrimStartAppend` | bots/telegrambot.js:1184 | appending a character changes the left trim only at its end |
| `EntryParser.TrimDropsTrailingSpace` | bots/telegrambot.js:1184 | trailing white space does not change the trim |
| `EntryParser.TrimKeepsNoBacktick` | bots/telegrambot.js:1184 | trimming does not introduce a backtick |
| `EntryParser.RemoveBackticks` | bots/telegrambot.js:1187 | the result has no backtick and keeps every other character of the input |
| `EntryParser.RemoveBackticksKeeps` | bots/telegrambot.js:1187 | a text without backticks is unchanged |
| `EntryParser.Clean` | bots/telegrambot.js:1178-1187 | the text handed to `JSON.parse` contains no backtick |
| `EntryParser.StripFence` | bots/telegrambot.js:1182-1183 | removing a fence never makes the text longer; what it removes and keeps is stated by the lemmas below |
| `EntryParser.StripFencePlainPrefix` | bots/telegrambot.js:1182-1183 | text before the first backtick passes through a fence removal unchanged |
| `EntryParser.StripFenceShort` | bots/telegrambot.js:1182 | a text shorter than the fence is unchanged |
| `EntryParser.StripFenceNoBacktick` | bots/telegrambot.js:1182-1183 | a text without backticks is unchanged by either fence removal |
| `EntryParser.CleanPlain` | bots/telegrambot.js:1178-1187 | on a reply without backticks the clean-up is just `trim` |
| `EntryParser.StripFenceAtTag` | bots/telegrambot.js:1182-1183 | a fence and the newline after it are removed together |
| `EntryParser.StripJsonFenceOfFenced` | bots/telegrambot.js:1182 | the first pass turns "```json\n" + body + "\n```" into body + "\n```" |
| `EntryParser.StripClosingFence` | bots/telegrambot.js:1183 | the second pass removes the closing fence |
| `EntryParser.CleanJsonFenced` | bots/telegrambot.js:1178-1187 | a reply fenced as ```json, where the body has no backtick, cleans to the trimmed body |
| `LedgerService.FindUser` | services/ledger.js:26 | finds a user with that handle, or none exactly when no user has it |
| `LedgerService.CheckCreate` | services/ledger.js:9-44 | each failure exactly when its check is the first to fail, in source order: empty title, empty username, unknown account, title used by any ledger; otherwise accepted with the found user |
| `LedgerService.TitleCountZero` | services/ledger.js:38-44 | no ledger carries the title exactly when the count is 0 |
| `LedgerService.SecondCreateConflicts` | services/ledger.js:38-51 | after a successful create, a second create of the same title fails with "Name already used" whoever asks, and exactly one ledger has that title |
| `LedgerService.FindLedger` | bots/telegrambot.js:994 | `findById` returns a ledger with that id, or none exactly when no ledger has it |
| `LedgerService.FindLedgerUnique` | bots/telegrambot.js:994 | with unique ids, `findById` returns that very ledger |
| `LedgerService.AttachSheetId` | bots/telegrambot.js:406-410 | intended attach: only the ledger with that id gets the sheet id, and the order is kept |
| `LedgerService.AttachSheetIdAsWritten` | bots/telegrambot.js:406-410 | the attach as it runs: no ledger's sheet id changes |
| `LedgerService.AttachThenFind` | bots/telegrambot.js:406-410 | after the intended attach, looking the ledger up gives it with the sheet attached |
| `LedgerService.AttachLostAsWritten` | bots/telegrambot.js:406-410 | as written, a ledger without a sheet id still has none after the attach |
| `LedgerService.RemoveLedger` | bots/telegrambot.js:422 | intended delete: the ledgers left are exactly those with another id |
| `LedgerService.RemoveLedgerAsWritten` | bots/telegrambot.js:422 | the delete as it runs: every ledger is still there |
| `LedgerService.RemoveLostAsWritten` | bots/telegrambot.js:422 | as written, the ledger the compensation should remove is still found |
| `LedgerService.RemoveLast` | bots/telegrambot.js:422 | deleting the just-created ledger restores the store exactly |
| `LedgerService.AttachLast` | bots/telegrambot.js:406-410 | attaching to the just-created ledger changes only that ledger |
| `LedgerService.OwnedBy` | bots/telegrambot.js:841 | `find({ createdBy })` keeps exactly the owner's ledgers |
| `LedgerService.OwnedByInStoreOrder` | bots/telegrambot.js:841 | `find` lists the owner's ledgers in the order they sit in the store |
| `LedgerService.Reverse` | bots/telegrambot.js:841-843 | reverses the order and keeps the length |
| `LedgerService.NewestFirst` | bots/telegrambot.js:841-843 | exactly the owner's ledgers, and for any two of them the one listed first sits later in the store, i.e. newest first |
| `LedgerService.NewestFirstAfterCreate` | bots/telegrambot.js:841-843 | a ledger just created by a user heads that user's listing, above all the earlier ones |

| `LedgerService.RemovePreservesUnique` | models/ledger.js:10 | deleting keeps ids and titles unique |
| `LedgerService.LedgerStore.FindById` | bots/telegrambot.js:994 | finds a ledger with that id, or none exactly when no ledger has it |
| `LedgerService.LedgerStore.CreateLedgerByUser` | services/ledger.js:4-65 | a failure leaves the store unchanged; success appends exactly one ledger (new id, title, description or "", creator = the user's id), echoes id, title and description, and keeps titles unique |
| `LedgerService.LedgerStore.AttachSheet` | bots/telegrambot.js:406-410 | the store becomes the intended attach of its old contents |
| `LedgerService.LedgerStore.Delete` | bots/telegrambot.js:422 | the store becomes its old contents without that ledger |
| `LedgerSheet.HeaderBlock` | bots/telegrambot.js:540-700 | a new sheet has four rows above the data, the eight column headers last |
| `LedgerSheet.DataRows` | bots/telegrambot.js:1232 | `rows.slice(4)`: the rows after the header block, in order |
| `LedgerSheet.CurrentBalance` | bots/telegrambot.js:1235-1239 | 0 while the sheet has only its header block; otherwise the number in the balance cell of the last row |
| `LedgerSheet.NewRow` | bots/telegrambot.js:1242-1254 | the new row has eight cells, and its balance cell holds the old balance plus credit minus debit |
| `LedgerSheet.AppendEntry` | bots/telegrambot.js:1257-1264 | an append keeps every earlier row and adds exactly one row, built from the balance before the append |
| `LedgerSheet.AmountCell` | bots/telegrambot.js:1250-1251 | an amount cell is empty exactly when the amount is 0 |
| `LedgerSheet.AmountCellRoundTrip` | bots/telegrambot.js:1250-1251 | an amount cell reads back as the amount |
| `LedgerSheet.NewRowReadsBack` | bots/telegrambot.js:1245-1254 | the row has 8 columns in source order, the voucher number or the fresh token, and a balance cell equal to balance + credit - debit |
| `LedgerSheet.AppendEntryEffect` | bots/telegrambot.js:1231-1264 | one append keeps every earlier row, adds exactly one 8-column row, and moves the balance by credit - debit |
| `LedgerSheet.AppendAllEffect` | bots/telegrambot.js:1236-1242 | after k appends the earlier rows are intact, k rows were added, and the balance moved by the credits minus the debits |
| `LedgerSheet.BalanceFromFreshSheet` | bots/telegrambot.js:1236-1242 | from a header-only sheet, the balance after k appends is Σcredit - Σdebit of those entries |
| `LedgerSheet.SheetOf` | bots/telegrambot.js:1219-1223 | a missing or empty sheet id counts as no sheet |
| `LedgerSheet.AppendResultFor` | bots/telegrambot.js:1216-1280 | the append succeeds exactly when the API is up and the ledger's sheet exists; "no sheet" exactly when the API is up and the ledger has no sheet id; the new balance is the current one + credit - debit |
| `LedgerSheet.SheetStore.CreateSheet` | bots/telegrambot.js:462-529 | adds the new spreadsheet with its header block and changes no other sheet |
| `LedgerSheet.SheetStore.AddEntryToSheet` | bots/telegrambot.js:1216-1280 | a success appends the row to the ledger's own sheet only; a failure changes nothing |
| `LedgerSheet.AppendFailsAsWritten` | bots/telegrambot.js:1219-1223 | as written, a ledger the bot created fails every append with "no sheet", even with the API up |
| `LedgerSheet.AppendSucceedsAfterAttach` | bots/telegrambot.js:1219-1264 | after the intended attach, an append to that ledger succeeds whenever the API is up |
| `Dialog.Lookup` | bots/telegrambot.js:88 | `userStates.get` gives the record exactly when the user has one |
| `Dialog.SelectingState` | bots/telegrambot.js:853-857 | `/new_e` stores the selection step, the ledger list and page 0, and the record is well formed exactly when the list is non-empty |
| `Dialog.SetRecord` | bots/telegrambot.js:1113 | after `set` or `delete` for one user, that user's record is the new one (or none), and every other user's record is as before |
| `Dialog.TextStep` | bots/telegrambot.js:80-222 | a text never creates or removes a record and keeps it well formed; it changes the record only in the naming step (the text becomes the name, then confirmation) and in the entry-text step with a parsed entry that passes the gate (the entry is stored, then confirmation) |
| `Dialog.EntryCommandStep` | bots/telegrambot.js:830-860 | "no account" exactly when the handle is unknown; the record is untouched without an account or without ledgers; otherwise it becomes the selection record of all the user's ledgers, newest first, on page 0; any record it stores is well formed and lists only the user's own ledgers |
| `Dialog.CancelReply` | bots/telegrambot.js:1102-1124 | "cancelled" exactly when there was a record, "nothing to cancel" exactly when there was none |
| `Dialog.MessageStep` | bots/telegrambot.js:80-1124 | one reply from the text handler, then one per command found; "/cancel" anywhere leaves no record; a text without commands is just the text step; "/new_l" alone ends in the naming record; "/new_e" without "/cancel" ends in the user's ledgers newest first on page 0 when there are any |
| `Dialog.Classify` | bots/telegrambot.js:916-1099 | each branch exactly when the code takes it: create only for "confirm_ledger_yes" in waiting_for_confirmation, delete for "confirm_ledger_no" whatever the step, navigate only with a cached list, a message only without a record, select / entry-back whatever the step, add only in waiting_for_entry_confirmation |
| `Dialog.NavButtonNavigates` | bots/telegrambot.js:941-945 | pressing a listed Prev/Next button navigates to its target page |
| `Dialog.SelectButtonSelects` | bots/telegrambot.js:964-968 | pressing a listed ledger button selects that ledger, whatever the step |
| `Dialog.Bot.OnText` | bots/telegrambot.js:80-222 | the new record and reply are those of `TextStep`: naming stores the text (commands included) and moves to confirmation; entry text with an AI failure or a failed gate leaves the record unchanged, and otherwise stores the entry and moves to entry confirmation, keeping the selected ledger; without a record only a message; other steps nothing |

| `Dialog.Bot.NewLedgerCommand` | bots/telegrambot.js:285-303 | the user's record becomes a fresh naming record |
| `Dialog.Bot.NewEntryCommand` | bots/telegrambot.js:830-860 | without an account or without ledgers the record is untouched; otherwise it becomes the selection record with the user's ledgers newest first and page 0, and page 0 is shown |
| `Dialog.Bot.Cancel` | bots/telegrambot.js:1102-1124 | removes the user's record if there is one and otherwise changes nothing |
| `Dialog.Bot.OnMessage` | bots/telegrambot.js:80-1124 | the user's new record and the replies are exactly those `MessageStep` gives for the old record, so a plain text, "/new_e" and every mix of commands are covered; other users' records are untouched |

| `Dialog.Bot.OnCallback` | bots/telegrambot.js:306-1099 | per branch of `Classify`: the new record, the reply, and the store and sheets, which change only in the two sagas; navigation changes only the page and re-renders from the cached list; the creation and entry confirmations remove the record on every outcome; an entry for a ledger that exists fails only when the API does |
| `Dialog.Bot.CreateLedgerSaga` | bots/telegrambot.js:317-458 | a rejected create changes nothing; an accepted one leaves the new ledger holding the new spreadsheet's id and creates that spreadsheet, or, when sheet creation failed, leaves the store as it was |
| `Dialog.Bot.AppendSaga` | bots/telegrambot.js:989-1062 | a selected ledger that is not found gives the not-found reply and leaves every sheet as it was; for a found ledger the reply reports the append result, an append succeeds whenever the API does (every stored ledger has its sheet), and only the ledger's own sheet gains the new row |

## Left out

- Telegram transport: message texts, message edits and deletions, `answerCallbackQuery`, logging, and the `/start`, `/help`, `/status`, photo and document handlers. None of them changes state.
- Google API plumbing: authentication, the Drive permission and folder calls, and the format, merge and width requests of `setupLedgerStructure`. The sheet is the sequence of rows `values.get` returns. The validation rules that request list puts on columns C and D are not modelled either, though its comment says Debit and Credit (columns E and F).
- A partial failure inside `createLedgerSheet`: it can leave a created spreadsheet behind and still report failure. The model adds no sheet.
- The Gemini call, the prompt and `JSON.parse`. The parsed entry and the AI failure come in as `AiReply`.
- `nanoid()`, `Date` and the ids the database and Google assign. They are parameters. Their freshness is a precondition of `Dialog.Bot.OnCallback`, which the environment guarantees.
- Concurrency and async interleaving. These handlers are modelled as atomic:
  - The text handler re-inserts its record after the awaited AI call, even if `/cancel` ran meanwhile.
  - `/new_e` awaits the database before storing its record.
  - The two callback handlers interleave.
  - Two appends to one sheet race between read and append.
- Floating point. Amounts are integers, `confidence` is an exact real, and the confidence percentage shown to the user is left out.
- Text.ParseNat: models `parseInt` on a token's leading digits only. Leading white space and a sign never occur in the bot's own tokens.
- Text.ParseNumber: models `parseFloat` on integer text only (sign and digits). The balance cells the bot writes are integers in this model.
- The MongoDB error classification in `createLedgerByUser` and the query timeout. A database failure is not an input of the model.
- `createdAt` ordering: the newest-first sort is modelled as insertion order reversed, assuming no two ledgers share a timestamp.
- utils/googlesheet.js, services/user.js, controllers/ledger.js, routes/ledger.js and index.js are not part of this model. models/ledger.js is used only for the ledger record and its unique title.

## Findings

| source | as written | input that shows it | evidently intended | confidence | as-written member | corrected member |
|---|---|---|---|---|---|---|
| bots/telegrambot.js:406-410 | `findByIdAndUpdate(id, { $set: { sheetId } })` targets a path models/ledger.js does not declare. Mongoose's default strict mode drops it from the update, and `ledger.sheetId` on a document reads only declared paths. | Create ledger "Shop" with sheet creation succeeding, then confirm an entry for it: the append fails with "does not have an associated Google Sheet". | The ledger keeps the new spreadsheet's id, and later appends go to that sheet. | not executed; follows from Mongoose's documented strict mode | `LedgerSheet.AppendFailsAsWritten` | `LedgerSheet.AppendSucceedsAfterAttach` |
| bots/telegrambot.js:422 | `Ledger.findByIdAndDelete(id)` builds a query that is never awaited, executed or given a callback. A Mongoose query runs only then, so the ledger stays. | Create ledger "Shop" with sheet creation failing: "Shop" is still stored, and a second creation of "Shop" fails with "Name already used". | The sheetless ledger is deleted, and the store is as before the saga, as the comment at line 421 says; the message at line 414, which suggests creating the sheet later, reads the other way. | not executed; follows from Mongoose's lazy queries | `LedgerService.RemoveLostAsWritten` | `LedgerService.RemoveLast` |
