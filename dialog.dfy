/**
 * The per-user conversation of the bot (bots/telegrambot.js): the `userStates`
 * table, the text handler, the `/new_l`, `/new_e` and `/cancel` commands, and the
 * two `callback_query` handlers, which both run on every button press and are
 * modelled as one dispatch. Each event is one atomic step; what the outside
 * world answers (the AI reply, the ids the database and Google hand out, the
 * clock, whether the Google calls succeed) comes in as parameters.
 */
module Dialog {
  import opened Wrappers
  import opened Text
  import opened LedgerService
  import opened Pagination
  import opened EntryParser
  import opened LedgerSheet

  /** A Telegram user id, the key of `userStates`. */
  type TelegramId = int

  datatype Step =
    | WaitingForLedgerName
    | WaitingForConfirmation
    | SelectingLedgerForEntry
    | WaitingForEntryText
    | WaitingForEntryConfirmation

  /** A `userStates` record; a field the code has not set is None. */
  datatype State = State(
    step: Step,
    ledgerName: Option<string>,
    ledgers: Option<seq<Ledger>>,
    page: Option<PageNo>,
    selectedLedgerId: Option<LedgerId>,
    entryData: Option<ParsedEntry>)

  /** What every record the handlers store satisfies. */
  predicate StateOk(st: State)
  {
    && (st.step == WaitingForConfirmation ==> st.ledgerName.Some?)
    && (st.step == SelectingLedgerForEntry ==> st.ledgers.Some? && st.page.Some?)
    && (st.step == WaitingForEntryConfirmation ==> st.entryData.Some?)
    && (st.entryData.Some? ==> PassesGate(st.entryData.value))
    && (st.ledgers.Some? ==> |st.ledgers.value| > 0)
    && (st.page.Some? ==> st.ledgers.Some?)
  }

  /** The record `/new_l` stores. */
  const NamingState: State := State(WaitingForLedgerName, None, None, None, None, None)

  /** The record `/new_e` stores: the ledger snapshot and page 0. */
  function SelectingState(ledgers: seq<Ledger>): (st: State)
    ensures st.step == SelectingLedgerForEntry && st.ledgers == Some(ledgers) && st.page == Some(Page(0))
    ensures StateOk(st) <==> |ledgers| > 0
  {
    State(SelectingLedgerForEntry, None, Some(ledgers), Some(Page(0)), None, None)
  }

  /** `userStates.get(userId)`. */
  function Lookup(m: map<TelegramId, State>, uid: TelegramId): (r: Option<State>)
    ensures r.Some? <==> uid in m
    ensures r.Some? ==> r.value == m[uid]
  {
    if uid in m then Some(m[uid]) else None
  }

  /** Only `uid`'s record differs between the two tables. */
  ghost predicate OthersKept(before: map<TelegramId, State>, after: map<TelegramId, State>, uid: TelegramId)
  {
    forall k :: k != uid ==> Lookup(after, k) == Lookup(before, k)
  }

  lemma PutKeepsOthers(m: map<TelegramId, State>, uid: TelegramId, st: State)
    ensures OthersKept(m, m[uid := st], uid)
  {
  }

  /** Every record of the table satisfies `StateOk`. */
  ghost predicate AllOk(m: map<TelegramId, State>)
  {
    forall k :: k in m ==> StateOk(m[k])
  }

  /** Storing a record that satisfies `StateOk` keeps every record of the table satisfying it. */
  lemma PutKeepsStatesOk(m: map<TelegramId, State>, uid: TelegramId, st: State)
    requires AllOk(m) && StateOk(st)
    ensures AllOk(m[uid := st])
  {
  }

  lemma RemoveKeepsStatesOk(m: map<TelegramId, State>, uid: TelegramId)
    requires AllOk(m)
    ensures AllOk(m - {uid})
  {
  }

  /** Removing a record leaves every other user's record as it was. */
  lemma RemoveKeepsOthers(m: map<TelegramId, State>, uid: TelegramId)
    ensures OthersKept(m, m - {uid}, uid)
  {
  }

  /** What the user is shown, by meaning rather than wording. */
  datatype Reply =
    | Quiet
    | ConfirmLedgerName(name: string)
    | EntryFailed
    | EntryUnclear(reasoning: string)
    | ConfirmEntry(entry: ParsedEntry)
    | CommandList
    | AskLedgerName
    | NoAccount
    | NoLedgers
    | LedgerList(view: PageView)
    | OperationCancelled
    | NothingToCancel
    | CreationCancelled
    | SessionEnded
    | LedgerChosen
    | EntryCancelled
    | EntryEditRequested
    | CreationReport(result: CreateResult, sheet: Option<SheetId>)
    | LedgerNotFound
    | EntryReport(append: AppendResult)

  /** `userStates.set(uid, st)` for Some(st), `userStates.delete(uid)` for None. */
  function SetRecord(m: map<TelegramId, State>, uid: TelegramId, r: Option<State>): (m': map<TelegramId, State>)
    ensures Lookup(m', uid) == r
    ensures forall k :: k != uid ==> Lookup(m', k) == Lookup(m, k)
  {
    if r.Some? then m[uid := r.value] else m - {uid}
  }

  lemma SetRecordTwice(m: map<TelegramId, State>, uid: TelegramId, a: Option<State>, b: Option<State>)
    ensures SetRecord(SetRecord(m, uid, a), uid, b) == SetRecord(m, uid, b)
  {
  }

  /**
   * The text handler's effect on the user's record `st` and its reply. Only the
   * naming step and the entry-text step store anything; a text never creates or
   * removes a record.
   */
  function TextStep(st: Option<State>, text: string, ai: AiReply): (o: (Option<State>, Reply))
    ensures o.0.None? <==> st.None?
    ensures st.Some? && StateOk(st.value) ==> StateOk(o.0.value)
    ensures st.Some? && o.0 != st ==>
      || (st.value.step == WaitingForLedgerName && o.0 == Some(st.value.(ledgerName := Some(text), step := WaitingForConfirmation)))
      || (st.value.step == WaitingForEntryText && ai.AiParsed? && PassesGate(ai.entry)
          && o.0 == Some(st.value.(entryData := Some(ai.entry), step := WaitingForEntryConfirmation)))
  {
    match st
    case None => (None, if "/" <= text then Quiet else CommandList)
    case Some(s) =>
      if s.step == WaitingForLedgerName then
        (Some(s.(ledgerName := Some(text), step := WaitingForConfirmation)), ConfirmLedgerName(text))
      else if s.step == WaitingForEntryText then
        match ai
        case AiFailure => (st, EntryFailed)
        case AiParsed(e) =>
          if PassesGate(e) then (Some(s.(entryData := Some(e), step := WaitingForEntryConfirmation)), ConfirmEntry(e))
          else (st, EntryUnclear(e.reasoning))
      else (st, Quiet)
  }

  /**
   * `/new_e`'s effect on the record `st` and its reply: the selection record over
   * the user's ledgers newest first, or `st` untouched without an account or
   * without ledgers.
   */
  function EntryCommandStep(users: seq<User>, ledgers: seq<Ledger>, username: string, st: Option<State>): (o: (Option<State>, Reply))
    ensures o.1 == NoAccount <==> FindUser(users, username).None?
    ensures o.0 != st ==>
      && FindUser(users, username).Some? && o.0.Some? && StateOk(o.0.value) && o.0.value.step == SelectingLedgerForEntry
      && (forall l :: l in o.0.value.ledgers.value ==> l in ledgers && l.createdBy == FindUser(users, username).value.id)
    ensures FindUser(users, username).None? || |NewestFirst(ledgers, FindUser(users, username).value.id)| == 0 ==> o.0 == st
    ensures FindUser(users, username).Some? && |NewestFirst(ledgers, FindUser(users, username).value.id)| > 0 ==>
      o.0 == Some(SelectingState(NewestFirst(ledgers, FindUser(users, username).value.id)))
  {
    match FindUser(users, username)
    case None => (st, NoAccount)
    case Some(u) =>
      var list := NewestFirst(ledgers, u.id);
      if |list| == 0 then (st, NoLedgers)
      else (Some(SelectingState(list)), LedgerList(RenderPage(list, Page(0))))
  }

  /** `/cancel`'s reply, for the record it finds. */
  function CancelReply(st: Option<State>): (r: Reply)
    ensures r == OperationCancelled <==> st.Some?
    ensures r == NothingToCancel <==> st.None?
  {
    if st.Some? then OperationCancelled else NothingToCancel
  }

  /**
   * A text message: the text handler on the record `st`, then `/new_l`, `/new_e`
   * and `/cancel` each time its pattern occurs in the text, in that order, each on
   * the record the previous one left. Gives the final record and the replies in
   * the order they are sent.
   */
  function MessageStep(st: Option<State>, text: string, ai: AiReply,
                       users: seq<User>, ledgers: seq<Ledger>, username: string): (o: (Option<State>, seq<Reply>))
    ensures |o.1| == 1 + (if Contains(text, "/new_l") then 1 else 0)
      + (if Contains(text, "/new_e") then 1 else 0) + (if Contains(text, "/cancel") then 1 else 0)
    ensures o.1[0] == TextStep(st, text, ai).1
    ensures Contains(text, "/cancel") ==> o.0.None?
    ensures !Contains(text, "/new_l") && !Contains(text, "/new_e") && !Contains(text, "/cancel") ==>
      o == (TextStep(st, text, ai).0, [TextStep(st, text, ai).1])
    ensures Contains(text, "/new_l") && !Contains(text, "/new_e") && !Contains(text, "/cancel") ==>
      o.0 == Some(NamingState) && o.1[1] == AskLedgerName
    ensures Contains(text, "/new_e") && !Contains(text, "/cancel") ==>
      match FindUser(users, username)
      case None => o.1[|o.1| - 1] == NoAccount
      case Some(u) =>
        var list := NewestFirst(ledgers, u.id);
        |list| > 0 ==> o.0 == Some(SelectingState(list)) && o.1[|o.1| - 1] == LedgerList(RenderPage(list, Page(0)))
  {
    var newLedger := Contains(text, "/new_l");
    var newEntry := Contains(text, "/new_e");
    var cancel := Contains(text, "/cancel");
    var t := TextStep(st, text, ai);
    var s1 := if newLedger then Some(NamingState) else t.0;
    var r1 := if newLedger then [t.1, AskLedgerName] else [t.1];
    var e := EntryCommandStep(users, ledgers, username, s1);
    var s2 := if newEntry then e.0 else s1;
    var r2 := if newEntry then r1 + [e.1] else r1;
    var s3 := if cancel then None else s2;
    var r3 := if cancel then r2 + [CancelReply(s2)] else r2;
    (s3, r3)
  }

  /** The branch a button press takes through the two callback handlers. */
  datatype Action =
    | CreateLedger
    | DropState
    | Navigate(page: PageNo)
    | PageWithoutList
    | NoSession
    | SelectLedger(id: LedgerId)
    | AddEntry
    | BackToEntryText
    | Ignore

  /**
   * The dispatch of a press with `callback_data` `data` for a user whose record is
   * `st`. The first handler acts only on "confirm_ledger_yes" in
   * waiting_for_confirmation, where the second does nothing; the second checks
   * its cases in order, and only the creation and entry confirmations look at
   * the step.
   */
  function Classify(data: string, st: Option<State>): (a: Action)
    ensures a == CreateLedger <==> data == "confirm_ledger_yes" && st.Some? && st.value.step == WaitingForConfirmation
    ensures a == DropState <==> data == "confirm_ledger_no"
    ensures a.Navigate? <==> PagePrefix <= data && st.Some? && st.value.ledgers.Some?
    ensures a.Navigate? ==> a.page == PageFromToken(data)
    ensures a == PageWithoutList <==> PagePrefix <= data && !(st.Some? && st.value.ledgers.Some?)
    ensures a == NoSession <==>
      st.None? && data != "confirm_ledger_no" && !(PagePrefix <= data)
    ensures a.SelectLedger? <==> st.Some? && SelectPrefix <= data
    ensures a.SelectLedger? ==> a.id == LedgerIdFromToken(data)
    ensures a == AddEntry <==> data == "confirm_entry_yes" && st.Some? && st.value.step == WaitingForEntryConfirmation
    ensures a == BackToEntryText <==> st.Some? && (data == "confirm_entry_no" || data == "edit_entry")
  {
    assert "confirm_ledger_no"[0] == 'c' && "confirm_ledger_yes"[0] == 'c';
    assert PagePrefix[0] == 'l' && SelectPrefix[0] == 's';
    assert PagePrefix <= data ==> data[0] == 'l' && !(SelectPrefix <= data);
    if data == "confirm_ledger_yes" && st.Some? && st.value.step == WaitingForConfirmation then CreateLedger
    else if data == "confirm_ledger_no" then DropState
    else if PagePrefix <= data then
      if st.Some? && st.value.ledgers.Some? then Navigate(PageFromToken(data)) else PageWithoutList
    else if st.None? then NoSession
    else if SelectPrefix <= data then SelectLedger(LedgerIdFromToken(data))
    else if data == "confirm_entry_yes" && st.value.step == WaitingForEntryConfirmation then AddEntry
    else if data == "confirm_entry_no" || data == "edit_entry" then BackToEntryText
    else Ignore
  }

  /** A Prev/Next button of a listing, pressed while the snapshot is held, moves to its target page. */
  lemma NavButtonNavigates(st: State, b: Button)
    requires st.ledgers.Some? && !b.Select?
    ensures Classify(CallbackData(b), Some(st)) == Navigate(Page(b.target))
  {
    PageTokenRoundTrip(b);
  }

  /** A ledger button selects that ledger whatever the step, when its id has no ':'. */
  lemma SelectButtonSelects(st: State, id: LedgerId, title: string)
    requires ':' !in id
    ensures Classify(CallbackData(Select(id, title)), Some(st)) == SelectLedger(id)
  {
    SelectTokenRoundTrip(id, title);
  }

  /** Every ledger held by the store has a spreadsheet that exists. */
  ghost predicate SheetsAttached(ledgers: seq<Ledger>, sheets: map<SheetId, Sheet>)
  {
    forall l :: l in ledgers ==> SheetOf(l).Some? && SheetOf(l).value in sheets
  }

  /** The bot process: the conversation table and the stores it talks to. */
  class Bot {
    var userStates: map<TelegramId, State>
    const store: LedgerStore
    const sheets: SheetStore

    ghost predicate Valid()
      reads this, store, sheets
    {
      && store.Valid() && sheets.Valid()
      && AllOk(userStates)
      && SheetsAttached(store.ledgers, sheets.sheets)
    }

    constructor (users: seq<User>)
      ensures Valid() && fresh(store) && fresh(sheets)
      ensures userStates == map[] && store.users == users && store.ledgers == [] && sheets.sheets == map[]
    {
      userStates := map[];
      store := new LedgerStore(users);
      sheets := new SheetStore();
    }

    /**
     * The text handler for message `text`; `ai` is what `processEntryWithGemini`
     * returns, used only in waiting_for_entry_text. In waiting_for_ledger_name
     * any text, a command included, becomes the name.
     */
    method OnText(uid: TelegramId, text: string, ai: AiReply) returns (reply: Reply)
      requires Valid()
      modifies this
      ensures Valid() && OthersKept(old(userStates), userStates, uid)
      ensures var st := Lookup(old(userStates), uid);
        if st.None? then
          userStates == old(userStates) && reply == (if "/" <= text then Quiet else CommandList)
        else if st.value.step == WaitingForLedgerName then
          && userStates == old(userStates)[uid := st.value.(ledgerName := Some(text), step := WaitingForConfirmation)]
          && reply == ConfirmLedgerName(text)
        else if st.value.step == WaitingForEntryText then
          match ai
          case AiFailure => userStates == old(userStates) && reply == EntryFailed
          case AiParsed(e) =>
            if PassesGate(e) then
              && userStates == old(userStates)[uid := st.value.(entryData := Some(e), step := WaitingForEntryConfirmation)]
              && reply == ConfirmEntry(e)
            else userStates == old(userStates) && reply == EntryUnclear(e.reasoning)
        else userStates == old(userStates) && reply == Quiet
      ensures var o := TextStep(Lookup(old(userStates), uid), text, ai);
        userStates == SetRecord(old(userStates), uid, o.0) && reply == o.1
    {
      if uid !in userStates {
        assert userStates - {uid} == userStates;
        reply := if "/" <= text then Quiet else CommandList;
        return;
      }
      var st := userStates[uid];
      if st.step == WaitingForLedgerName {
        userStates := userStates[uid := st.(ledgerName := Some(text), step := WaitingForConfirmation)];
        reply := ConfirmLedgerName(text);
      } else if st.step == WaitingForEntryText {
        match ai {
          case AiFailure =>
            reply := EntryFailed;
          case AiParsed(e) =>
            if !e.isValid || e.confidence < MinConfidence {
              reply := EntryUnclear(e.reasoning);
            } else {
              userStates := userStates[uid := st.(entryData := Some(e), step := WaitingForEntryConfirmation)];
              reply := ConfirmEntry(e);
            }
        }
      } else {
        reply := Quiet;
      }
    }

    /** `/new_l`: a fresh naming record replaces whatever the user had. */
    method NewLedgerCommand(uid: TelegramId) returns (reply: Reply)
      requires Valid()
      modifies this
      ensures Valid() && OthersKept(old(userStates), userStates, uid)
      ensures userStates == old(userStates)[uid := NamingState] && reply == AskLedgerName
      ensures userStates == SetRecord(old(userStates), uid, Some(NamingState))
    {
      userStates := userStates[uid := NamingState];
      reply := AskLedgerName;
    }

    /**
     * `/new_e` from the Telegram user whose handle is `username`: the account
     * lookup, then the user's ledgers newest first and page 0 of them. Without an
     * account or without ledgers the existing record is left as it was.
     */
    method NewEntryCommand(uid: TelegramId, username: string) returns (reply: Reply)
      requires Valid()
      modifies this
      ensures Valid() && OthersKept(old(userStates), userStates, uid)
      ensures match FindUser(store.users, username)
        case None => userStates == old(userStates) && reply == NoAccount
        case Some(u) =>
          var list := NewestFirst(store.ledgers, u.id);
          if |list| == 0 then userStates == old(userStates) && reply == NoLedgers
          else
            && userStates == old(userStates)[uid := SelectingState(list)]
            && reply == LedgerList(RenderPage(list, Page(0)))
      ensures var o := EntryCommandStep(store.users, store.ledgers, username, Lookup(old(userStates), uid));
        userStates == SetRecord(old(userStates), uid, o.0) && reply == o.1
    {
      var user := FindUser(store.users, username);
      if user.None? {
        assert userStates == SetRecord(userStates, uid, Lookup(userStates, uid));
        return NoAccount;
      }
      var list := NewestFirst(store.ledgers, user.value.id);
      if |list| == 0 {
        assert userStates == SetRecord(userStates, uid, Lookup(userStates, uid));
        return NoLedgers;
      }
      var st := SelectingState(list);
      PutKeepsOthers(userStates, uid, st);
      PutKeepsStatesOk(userStates, uid, st);
      userStates := userStates[uid := st];
      reply := LedgerList(RenderPage(list, Page(0)));
    }

    /** `/cancel`: removes the record if there is one. */
    method Cancel(uid: TelegramId) returns (reply: Reply)
      requires Valid()
      modifies this
      ensures Valid() && OthersKept(old(userStates), userStates, uid)
      ensures userStates == old(userStates) - {uid}
      ensures reply == if uid in old(userStates) then OperationCancelled else NothingToCancel
      ensures userStates == SetRecord(old(userStates), uid, None) && reply == CancelReply(Lookup(old(userStates), uid))
    {
      RemoveKeepsOthers(userStates, uid);
      RemoveKeepsStatesOk(userStates, uid);
      if uid in userStates {
        userStates := userStates - {uid};
        reply := OperationCancelled;
      } else {
        reply := NothingToCancel;
      }
    }

    /**
     * A text message as the library delivers it: the text handler first, then
     * every command whose (unanchored) pattern occurs in the text, in the order
     * they are registered.
     */
    method OnMessage(uid: TelegramId, username: string, text: string, ai: AiReply) returns (replies: seq<Reply>)
      requires Valid()
      modifies this
      ensures Valid()
      ensures OthersKept(old(userStates), userStates, uid)
      ensures var o := MessageStep(Lookup(old(userStates), uid), text, ai, store.users, store.ledgers, username);
        userStates == SetRecord(old(userStates), uid, o.0) && replies == o.1
      ensures Contains(text, "/cancel") ==> uid !in userStates
      ensures Contains(text, "/new_l") && !Contains(text, "/new_e") && !Contains(text, "/cancel") ==>
        Lookup(userStates, uid) == Some(NamingState)
    {
      ghost var m := userStates;
      ghost var st := Lookup(userStates, uid);
      var newLedger := Contains(text, "/new_l");
      var newEntry := Contains(text, "/new_e");
      var cancel := Contains(text, "/cancel");
      var r := OnText(uid, text, ai);
      ghost var t := TextStep(st, text, ai);
      ghost var s1 := if newLedger then Some(NamingState) else t.0;
      ghost var r1 := if newLedger then [t.1, AskLedgerName] else [t.1];
      replies := [r];
      if newLedger {
        r := NewLedgerCommand(uid);
        SetRecordTwice(m, uid, t.0, s1);
        replies := replies + [r];
      }
      assert userStates == SetRecord(m, uid, s1) && replies == r1;
      ghost var e := EntryCommandStep(store.users, store.ledgers, username, s1);
      ghost var s2 := if newEntry then e.0 else s1;
      ghost var r2 := if newEntry then r1 + [e.1] else r1;
      if newEntry {
        r := NewEntryCommand(uid, username);
        SetRecordTwice(m, uid, s1, s2);
        replies := replies + [r];
      }
      assert userStates == SetRecord(m, uid, s2) && replies == r2;
      ghost var s3 := if cancel then None else s2;
      ghost var r3 := if cancel then r2 + [CancelReply(s2)] else r2;
      if cancel {
        r := Cancel(uid);
        SetRecordTwice(m, uid, s2, None);
        replies := replies + [r];
      }
      assert userStates == SetRecord(m, uid, s3) && replies == r3;
      assert MessageStep(st, text, ai, store.users, store.ledgers, username) == (s3, r3);
    }

    /**
     * A button press with `callback_data` `data`. For the creation saga,
     * `newLedgerId` is the id the database gives the new ledger, `sheetResult` what
     * `createLedgerSheet` returns (the new spreadsheet's id, or None when it
     * failed) and `createdOn` the clock; for an entry, `token` is the `nanoid()` and
     * `apiOk` whether the Google calls succeed.
     */
    method OnCallback(uid: TelegramId, username: string, data: string,
                      newLedgerId: LedgerId, sheetResult: Option<SheetId>, createdOn: string,
                      token: string, apiOk: bool) returns (reply: Reply)
      requires Valid()
      requires newLedgerId !in store.Ids()
      requires sheetResult.Some? ==> sheetResult.value != "" && sheetResult.value !in sheets.sheets
      modifies this, store, sheets
      ensures Valid()
      ensures var a := Classify(data, Lookup(old(userStates), uid));
        && (a != CreateLedger ==> store.ledgers == old(store.ledgers))
        && (a != CreateLedger && a != AddEntry ==> sheets.sheets == old(sheets.sheets))
        && (a == CreateLedger || a == AddEntry || a == DropState ==> userStates == old(userStates) - {uid})
        && (a == DropState ==> reply == CreationCancelled)
        && (a == PageWithoutList || a == NoSession || a == Ignore ==> userStates == old(userStates))
        && (a == PageWithoutList || a == Ignore ==> reply == Quiet)
        && (a == NoSession ==> reply == SessionEnded)
      ensures var st := Lookup(old(userStates), uid); var a := Classify(data, st);
        && (a.Navigate? ==>
              && userStates == old(userStates)[uid := st.value.(page := Some(a.page))]
              && reply == LedgerList(RenderPage(st.value.ledgers.value, a.page)))
        && (a.SelectLedger? ==>
              && userStates == old(userStates)[uid := st.value.(selectedLedgerId := Some(a.id), step := WaitingForEntryText)]
              && reply == LedgerChosen)
        && (a == BackToEntryText ==>
              && userStates == old(userStates)[uid := st.value.(step := WaitingForEntryText)]
              && reply == (if data == "confirm_entry_no" then EntryCancelled else EntryEditRequested))
      ensures var st := Lookup(old(userStates), uid);
        Classify(data, st) == CreateLedger ==>
          var name := st.value.ledgerName.value;
          match CheckCreate(store.users, old(store.ledgers), name, username)
          case Rejected(e) =>
            && reply == CreationReport(CreateFailed(e), None)
            && store.ledgers == old(store.ledgers) && sheets.sheets == old(sheets.sheets)
          case Accepted(u) =>
            && reply == CreationReport(CreateSucceeded(Created(newLedgerId, name, "")), sheetResult)
            && match sheetResult
               case Some(sid) =>
                 && store.ledgers == old(store.ledgers) + [Ledger(newLedgerId, name, "", u.id, Some(sid))]
                 && sheets.sheets == old(sheets.sheets)[sid := HeaderBlock(name, username, createdOn)]
               case None =>
                 store.ledgers == old(store.ledgers) && sheets.sheets == old(sheets.sheets)
      ensures var st := Lookup(old(userStates), uid);
        Classify(data, st) == AddEntry ==>
          var found := if st.value.selectedLedgerId.Some? then FindLedger(old(store.ledgers), st.value.selectedLedgerId.value) else None;
          match found
          case None => reply == LedgerNotFound && sheets.sheets == old(sheets.sheets)
          case Some(l) =>
            var r := AppendResultFor(old(sheets.sheets), l, st.value.entryData.value, apiOk);
            && reply == EntryReport(r)
            && (apiOk ==> r.Appended?)
            && (r.Appended? ==> sheets.sheets == old(sheets.sheets)[l.sheetId.value := AppendEntry(old(sheets.sheets)[l.sheetId.value], st.value.entryData.value, token)])
            && (r.AppendFailed? ==> sheets.sheets == old(sheets.sheets))
    {
      var st := Lookup(userStates, uid);
      var action := Classify(data, st);
      match action {
        case CreateLedger =>
          reply := CreateLedgerSaga(st.value.ledgerName.value, username, newLedgerId, sheetResult, createdOn);
          RemoveKeepsStatesOk(userStates, uid);
          userStates := userStates - {uid};
        case DropState =>
          RemoveKeepsStatesOk(userStates, uid);
          userStates := userStates - {uid};
          reply := CreationCancelled;
        case Navigate(page) =>
          var next := st.value.(page := Some(page));
          PutKeepsStatesOk(userStates, uid, next);
          userStates := userStates[uid := next];
          reply := LedgerList(RenderPage(st.value.ledgers.value, page));
        case PageWithoutList =>
          reply := Quiet;
        case NoSession =>
          reply := SessionEnded;
        case SelectLedger(id) =>
          var next := st.value.(selectedLedgerId := Some(id), step := WaitingForEntryText);
          PutKeepsStatesOk(userStates, uid, next);
          userStates := userStates[uid := next];
          reply := LedgerChosen;
        case AddEntry =>
          reply := AppendSaga(st.value.selectedLedgerId, st.value.entryData.value, token, apiOk);
          RemoveKeepsStatesOk(userStates, uid);
          userStates := userStates - {uid};
        case BackToEntryText =>
          var next := st.value.(step := WaitingForEntryText);
          PutKeepsStatesOk(userStates, uid, next);
          userStates := userStates[uid := next];
          reply := if data == "confirm_entry_no" then EntryCancelled else EntryEditRequested;
        case Ignore =>
          reply := Quiet;
      }
    }

    /**
     * The second callback handler's saga for the confirmed entry: look the
     * selected ledger up (a missing id finds nothing) and append the entry to its
     * sheet.
     */
    method AppendSaga(selected: Option<LedgerId>, entry: ParsedEntry, token: string, apiOk: bool) returns (reply: Reply)
      requires Valid()
      modifies sheets
      ensures Valid()
      ensures var found := if selected.Some? then FindLedger(store.ledgers, selected.value) else None;
        match found
        case None => reply == LedgerNotFound && sheets.sheets == old(sheets.sheets)
        case Some(l) =>
          var r := AppendResultFor(old(sheets.sheets), l, entry, apiOk);
          && reply == EntryReport(r)
          && (apiOk ==> r.Appended?)
          && (r.Appended? ==> sheets.sheets == old(sheets.sheets)[l.sheetId.value := AppendEntry(old(sheets.sheets)[l.sheetId.value], entry, token)])
          && (r.AppendFailed? ==> sheets.sheets == old(sheets.sheets))
    {
      var found := if selected.Some? then store.FindById(selected.value) else None;
      if found.None? {
        return LedgerNotFound;
      }
      var r := sheets.AddEntryToSheet(found.value, entry, token, apiOk);
      reply := EntryReport(r);
      assert SheetsAttached(store.ledgers, sheets.sheets) by {
        forall l | l in store.ledgers ensures SheetOf(l).Some? && SheetOf(l).value in sheets.sheets {
          assert SheetOf(l).value in old(sheets.sheets);
        }
      }
    }

    /**
     * The first callback handler's saga for ledger `name`: create the ledger,
     * then, if the spreadsheet was created, give it the header block and attach
     * it to the ledger; otherwise delete the ledger again.
     */
    method CreateLedgerSaga(name: string, username: string, newLedgerId: LedgerId,
                            sheetResult: Option<SheetId>, createdOn: string) returns (reply: Reply)
      requires Valid()
      requires newLedgerId !in store.Ids()
      requires sheetResult.Some? ==> sheetResult.value != "" && sheetResult.value !in sheets.sheets
      modifies store, sheets
      ensures Valid()
      ensures match CheckCreate(store.users, old(store.ledgers), name, username)
        case Rejected(e) =>
          && reply == CreationReport(CreateFailed(e), None)
          && store.ledgers == old(store.ledgers) && sheets.sheets == old(sheets.sheets)
        case Accepted(u) =>
          && reply == CreationReport(CreateSucceeded(Created(newLedgerId, name, "")), sheetResult)
          && match sheetResult
             case Some(sid) =>
               && store.ledgers == old(store.ledgers) + [Ledger(newLedgerId, name, "", u.id, Some(sid))]
               && sheets.sheets == old(sheets.sheets)[sid := HeaderBlock(name, username, createdOn)]
             case None =>
               store.ledgers == old(store.ledgers) && sheets.sheets == old(sheets.sheets)
    {
      var before := store.ledgers;
      var response := store.CreateLedgerByUser(name, Some(""), username, newLedgerId);
      if response.CreateFailed? {
        return CreationReport(response, None);
      }
      var owner := CheckCreate(store.users, before, name, username).owner;
      var created := Ledger(newLedgerId, name, "", owner.id, None);
      assert forall k :: k in before ==> k.id != newLedgerId;
      match sheetResult {
        case Some(sid) =>
          sheets.CreateSheet(sid, name, username, createdOn);
          store.AttachSheet(newLedgerId, sid);
          AttachLast(before, created, sid);
        case None =>
          store.Delete(newLedgerId);
          RemoveLast(before, created);
      }
      reply := CreationReport(response, sheetResult);
    }
  }
}
