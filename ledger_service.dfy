/**
 * The ledger store and `createLedgerByUser` (services/ledger.js): the input
 * checks, the account lookup, the global title-uniqueness check and the single
 * insert, over an in-memory copy of the User and Ledger collections. The sheet
 * attach (`findByIdAndUpdate`) and the compensating delete
 * (`findByIdAndDelete`) the bot performs on the same collection live here too.
 */
module LedgerService {
  import opened Wrappers

  type UserId = string
  type LedgerId = string
  type SheetId = string

  /** A User document: its id and the Telegram handle it is found by. */
  datatype User = User(id: UserId, username: string)

  /** A Ledger document; `sheetId` is the spreadsheet the bot attaches after creating it. */
  datatype Ledger = Ledger(id: LedgerId, title: string, description: string, createdBy: UserId, sheetId: Option<SheetId>)

  /** The failures `createLedgerByUser` returns, in the order it checks for them. */
  datatype CreateError = TitleRequired | UsernameRequired | AccountNotFound | NameAlreadyUsed

  /** Outcome of the guard chain: a rejection, or the owner the new ledger gets. */
  datatype Checked = Rejected(error: CreateError) | Accepted(owner: User)

  /** `response.data` of a successful creation (its timestamps are not modelled). */
  datatype Created = Created(id: LedgerId, title: string, description: string)

  datatype CreateResult = CreateFailed(error: CreateError) | CreateSucceeded(data: Created)

  /** `User.findOne({ username })`: the first user with that handle. */
  function FindUser(users: seq<User>, username: string): (r: Option<User>)
    ensures r.Some? ==> r.value in users && r.value.username == username
    ensures r.None? <==> forall u :: u in users ==> u.username != username
    decreases |users|
  {
    if users == [] then None
    else if users[0].username == username then Some(users[0])
    else FindUser(users[1..], username)
  }

  /** `Ledger.findOne({ title })` finds something: a ledger of ANY owner has this title. */
  predicate TitleUsed(ledgers: seq<Ledger>, title: string)
  {
    exists l :: l in ledgers && l.title == title
  }

  /** The early returns of `createLedgerByUser`, in source order. */
  function CheckCreate(users: seq<User>, ledgers: seq<Ledger>, title: string, username: string): (r: Checked)
    ensures r == Rejected(TitleRequired) <==> title == ""
    ensures r == Rejected(UsernameRequired) <==> title != "" && username == ""
    ensures r == Rejected(AccountNotFound) <==>
      title != "" && username != "" && forall u :: u in users ==> u.username != username
    ensures r == Rejected(NameAlreadyUsed) <==>
      title != "" && username != "" && (exists u :: u in users && u.username == username) && TitleUsed(ledgers, title)
    ensures r.Accepted? <==>
      title != "" && username != "" && FindUser(users, username).Some? && !TitleUsed(ledgers, title)
    ensures r.Accepted? ==> r.owner in users && r.owner.username == username
  {
    if title == "" then Rejected(TitleRequired)
    else if username == "" then Rejected(UsernameRequired)
    else match FindUser(users, username)
      case None => Rejected(AccountNotFound)
      case Some(u) => if TitleUsed(ledgers, title) then Rejected(NameAlreadyUsed) else Accepted(u)
  }

  /** `description || ""`. */
  function DescriptionOrEmpty(description: Option<string>): string
  {
    description.GetOr("")
  }

  /** Number of ledgers carrying `title`. */
  function TitleCount(ledgers: seq<Ledger>, title: string): nat
    decreases |ledgers|
  {
    if ledgers == [] then 0
    else TitleCount(ledgers[..|ledgers| - 1], title) + (if ledgers[|ledgers| - 1].title == title then 1 else 0)
  }

  lemma {:induction false} TitleCountZero(ledgers: seq<Ledger>, title: string)
    ensures TitleCount(ledgers, title) == 0 <==> !TitleUsed(ledgers, title)
    decreases |ledgers|
  {
    if ledgers != [] {
      var init := ledgers[..|ledgers| - 1];
      TitleCountZero(init, title);
      assert ledgers == init + [ledgers[|ledgers| - 1]];
      assert TitleUsed(ledgers, title) <==> TitleUsed(init, title) || ledgers[|ledgers| - 1].title == title;
    }
  }

  /**
   * Creating the same title twice: the first call succeeds, the second fails with
   * "Name already used" whoever makes it, and the store then has exactly one ledger
   * with that title.
   */
  lemma SecondCreateConflicts(users: seq<User>, ledgers: seq<Ledger>, title: string, username: string,
                              id: LedgerId, description: string, username2: string)
    requires CheckCreate(users, ledgers, title, username).Accepted?
    requires username2 != "" && FindUser(users, username2).Some?
    ensures var after := ledgers + [Ledger(id, title, description, CheckCreate(users, ledgers, title, username).owner.id, None)];
      && CheckCreate(users, after, title, username2) == Rejected(NameAlreadyUsed)
      && TitleCount(after, title) == 1
  {
    var after := ledgers + [Ledger(id, title, description, CheckCreate(users, ledgers, title, username).owner.id, None)];
    assert after[|after| - 1] in after;
    TitleCountZero(ledgers, title);
    assert after[..|after| - 1] == ledgers;
  }

  /** Ledger ids are unique. */
  ghost predicate UniqueIds(ledgers: seq<Ledger>)
  {
    forall i, j :: 0 <= i < j < |ledgers| ==> ledgers[i].id != ledgers[j].id
  }

  /** Ledger titles are unique (the schema's `unique: true`, models/ledger.js:10). */
  ghost predicate UniqueTitles(ledgers: seq<Ledger>)
  {
    forall i, j :: 0 <= i < j < |ledgers| ==> ledgers[i].title != ledgers[j].title
  }

  /** `Ledger.findById(id)`. */
  function FindLedger(ledgers: seq<Ledger>, id: LedgerId): (r: Option<Ledger>)
    ensures r.Some? ==> r.value in ledgers && r.value.id == id
    ensures r.None? <==> forall l :: l in ledgers ==> l.id != id
    decreases |ledgers|
  {
    if ledgers == [] then None
    else if ledgers[0].id == id then Some(ledgers[0])
    else FindLedger(ledgers[1..], id)
  }

  lemma {:induction false} FindLedgerUnique(ledgers: seq<Ledger>, i: nat)
    requires UniqueIds(ledgers) && i < |ledgers|
    ensures FindLedger(ledgers, ledgers[i].id) == Some(ledgers[i])
    decreases i
  {
    if i > 0 {
      assert ledgers[0].id != ledgers[i].id;
      FindLedgerUnique(ledgers[1..], i - 1);
    }
  }

  /**
   * `findByIdAndUpdate(id, { $set: { sheetId } })` as the bot means it: the ledger
   * with that id gets the sheet, every other ledger is unchanged.
   */
  function AttachSheetId(ledgers: seq<Ledger>, id: LedgerId, sheetId: SheetId): (r: seq<Ledger>)
    ensures |r| == |ledgers|
    ensures forall i :: 0 <= i < |r| ==>
      r[i] == if ledgers[i].id == id then ledgers[i].(sheetId := Some(sheetId)) else ledgers[i]
  {
    seq(|ledgers|, i requires 0 <= i < |ledgers| =>
      if ledgers[i].id == id then ledgers[i].(sheetId := Some(sheetId)) else ledgers[i])
  }

  /**
   * The same update as the code runs it: models/ledger.js declares no `sheetId`
   * path, and Mongoose's default strict mode strips paths outside the schema from
   * an update, so nothing changes.
   */
  function AttachSheetIdAsWritten(ledgers: seq<Ledger>, id: LedgerId, sheetId: SheetId): (r: seq<Ledger>)
    ensures |r| == |ledgers| && forall i :: 0 <= i < |r| ==> r[i].sheetId == ledgers[i].sheetId
  {
    ledgers
  }

  /** After the intended update, looking the ledger up gives it with the sheet attached. */
  lemma AttachThenFind(ledgers: seq<Ledger>, i: nat, sheetId: SheetId)
    requires UniqueIds(ledgers) && i < |ledgers|
    ensures FindLedger(AttachSheetId(ledgers, ledgers[i].id, sheetId), ledgers[i].id)
         == Some(ledgers[i].(sheetId := Some(sheetId)))
  {
    var r := AttachSheetId(ledgers, ledgers[i].id, sheetId);
    assert UniqueIds(r) by {
      forall a, b | 0 <= a < b < |r| ensures r[a].id != r[b].id {
        assert r[a].id == ledgers[a].id && r[b].id == ledgers[b].id;
      }
    }
    FindLedgerUnique(r, i);
  }

  /** As written, a ledger created without a sheet still has none after the "attach". */
  lemma AttachLostAsWritten(ledgers: seq<Ledger>, i: nat, sheetId: SheetId)
    requires UniqueIds(ledgers) && i < |ledgers| && ledgers[i].sheetId.None?
    ensures var found := FindLedger(AttachSheetIdAsWritten(ledgers, ledgers[i].id, sheetId), ledgers[i].id);
      found.Some? && found.value.sheetId.None?
  {
    FindLedgerUnique(ledgers, i);
  }

  /** `findByIdAndDelete(id)` as the bot means it: every ledger but that one remains, in order. */
  function RemoveLedger(ledgers: seq<Ledger>, id: LedgerId): (r: seq<Ledger>)
    ensures forall l :: l in r <==> l in ledgers && l.id != id
    ensures |r| <= |ledgers|
    decreases |ledgers|
  {
    if ledgers == [] then []
    else if ledgers[0].id == id then RemoveLedger(ledgers[1..], id)
    else [ledgers[0]] + RemoveLedger(ledgers[1..], id)
  }

  /**
   * The delete as the code issues it: the query is built but neither awaited nor
   * executed, and a Mongoose query only runs when it is, so nothing is removed.
   */
  function RemoveLedgerAsWritten(ledgers: seq<Ledger>, id: LedgerId): (r: seq<Ledger>)
    ensures forall l :: l in ledgers ==> l in r
  {
    ledgers
  }

  /** As written, the ledger the compensation should remove is still found afterwards. */
  lemma RemoveLostAsWritten(ledgers: seq<Ledger>, i: nat)
    requires i < |ledgers|
    ensures FindLedger(RemoveLedgerAsWritten(ledgers, ledgers[i].id), ledgers[i].id).Some?
  {
    assert ledgers[i] in ledgers;
  }

  /** Removing the last ledger leaves exactly the ledgers before it. */
  lemma {:induction false} RemoveLast(ledgers: seq<Ledger>, l: Ledger)
    requires forall k :: k in ledgers ==> k.id != l.id
    ensures RemoveLedger(ledgers + [l], l.id) == ledgers
    decreases |ledgers|
  {
    if ledgers == [] {
      assert ([] + [l])[1..] == [];
    } else {
      assert (ledgers + [l])[1..] == ledgers[1..] + [l];
      assert ledgers[0] in ledgers;
      RemoveLast(ledgers[1..], l);
      assert [ledgers[0]] + ledgers[1..] == ledgers;
    }
  }

  /** Attaching to the last ledger only changes that ledger. */
  lemma AttachLast(ledgers: seq<Ledger>, l: Ledger, sheetId: SheetId)
    requires forall k :: k in ledgers ==> k.id != l.id
    ensures AttachSheetId(ledgers + [l], l.id, sheetId) == ledgers + [l.(sheetId := Some(sheetId))]
  {
    var r := AttachSheetId(ledgers + [l], l.id, sheetId);
    forall i | 0 <= i < |ledgers| ensures r[i] == ledgers[i] {
      assert ledgers[i] in ledgers;
    }
  }

  /** `Ledger.find({ createdBy: owner })` in insertion order. */
  function OwnedBy(ledgers: seq<Ledger>, owner: UserId): (r: seq<Ledger>)
    ensures forall l :: l in r <==> l in ledgers && l.createdBy == owner
    decreases |ledgers|
  {
    if ledgers == [] then []
    else
      OwnedBy(ledgers[..|ledgers| - 1], owner)
      + (if ledgers[|ledgers| - 1].createdBy == owner then [ledgers[|ledgers| - 1]] else [])
  }

  function Reverse<T>(s: seq<T>): (r: seq<T>)
    ensures |r| == |s| && forall i :: 0 <= i < |s| ==> r[i] == s[|s| - 1 - i]
    decreases |s|
  {
    if s == [] then [] else [s[|s| - 1]] + Reverse(s[..|s| - 1])
  }

  /** `a` sits before `b` in `ledgers`. */
  ghost predicate Earlier(ledgers: seq<Ledger>, a: Ledger, b: Ledger)
  {
    exists i, j :: 0 <= i < j < |ledgers| && ledgers[i] == a && ledgers[j] == b
  }

  /** `r` lists ledgers of `ledgers` in the order they sit there. */
  ghost predicate InStoreOrder(r: seq<Ledger>, ledgers: seq<Ledger>)
  {
    forall i, j :: 0 <= i < j < |r| ==> Earlier(ledgers, r[i], r[j])
  }

  /** `r` lists ledgers of `ledgers` in the reverse of the order they sit there. */
  ghost predicate InReverseStoreOrder(r: seq<Ledger>, ledgers: seq<Ledger>)
  {
    forall i, j :: 0 <= i < j < |r| ==> Earlier(ledgers, r[j], r[i])
  }

  lemma EarlierInLonger(front: seq<Ledger>, l: Ledger, a: Ledger, b: Ledger)
    requires Earlier(front, a, b)
    ensures Earlier(front + [l], a, b)
  {
    var i, j :| 0 <= i < j < |front| && front[i] == a && front[j] == b;
    assert (front + [l])[i] == a && (front + [l])[j] == b;
  }

  lemma EarlierThanLast(front: seq<Ledger>, l: Ledger, a: Ledger)
    requires a in front
    ensures Earlier(front + [l], a, l)
  {
    var i :| 0 <= i < |front| && front[i] == a;
    assert (front + [l])[i] == a && (front + [l])[|front|] == l;
  }

  /** `find` keeps the store's order: the owner's ledgers appear as they sit in `ledgers`. */
  lemma {:induction false} OwnedByInStoreOrder(ledgers: seq<Ledger>, owner: UserId)
    ensures InStoreOrder(OwnedBy(ledgers, owner), ledgers)
    decreases |ledgers|
  {
    if ledgers != [] {
      var n := |ledgers| - 1;
      var front := ledgers[..n];
      var last := ledgers[n];
      assert ledgers == front + [last];
      OwnedByInStoreOrder(front, owner);
      var r0 := OwnedBy(front, owner);
      var r := OwnedBy(ledgers, owner);
      assert r == r0 + (if last.createdBy == owner then [last] else []);
      forall i, j | 0 <= i < j < |r| ensures Earlier(ledgers, r[i], r[j]) {
        assert r[i] == r0[i];
        if j < |r0| {
          assert Earlier(front, r0[i], r0[j]);
          EarlierInLonger(front, last, r0[i], r0[j]);
        } else {
          assert r0[i] in r0;
          EarlierThanLast(front, last, r0[i]);
        }
      }
    }
  }

  /** Reversing a list in store order gives one in reverse store order. */
  lemma ReverseOrder(s: seq<Ledger>, ledgers: seq<Ledger>)
    requires InStoreOrder(s, ledgers)
    ensures InReverseStoreOrder(Reverse(s), ledgers)
  {
    var r := Reverse(s);
    forall i, j | 0 <= i < j < |r| ensures Earlier(ledgers, r[j], r[i]) {
      assert r[j] == s[|s| - 1 - j] && r[i] == s[|s| - 1 - i];
    }
  }

  /**
   * `.sort({ createdAt: -1 })`: insertion order is creation order, so the owner's
   * ledgers newest first.
   */
  function NewestFirst(ledgers: seq<Ledger>, owner: UserId): (r: seq<Ledger>)
    ensures forall l :: l in r <==> l in ledgers && l.createdBy == owner
    ensures |r| == |OwnedBy(ledgers, owner)|
    ensures InReverseStoreOrder(r, ledgers)
  {
    var owned := OwnedBy(ledgers, owner);
    var r := Reverse(owned);
    assert forall l :: l in r <==> l in owned by {
      forall l | l in owned ensures l in r {
        var i :| 0 <= i < |owned| && owned[i] == l;
        assert r[|owned| - 1 - i] == l;
      }
    }
    OwnedByInStoreOrder(ledgers, owner);
    ReverseOrder(owned, ledgers);
    r
  }

  /** A ledger just created by `owner` heads the owner's listing, above the ones before it. */
  lemma NewestFirstAfterCreate(ledgers: seq<Ledger>, l: Ledger)
    ensures NewestFirst(ledgers + [l], l.createdBy) == [l] + NewestFirst(ledgers, l.createdBy)
  {
    assert (ledgers + [l])[..|ledgers|] == ledgers;
    var owned := OwnedBy(ledgers, l.createdBy);
    assert OwnedBy(ledgers + [l], l.createdBy) == owned + [l];
    assert (owned + [l])[..|owned|] == owned;
  }

  /** The Ledger and User collections. */
  class LedgerStore {
    const users: seq<User>
    var ledgers: seq<Ledger>

    ghost predicate Valid()
      reads this
    {
      UniqueIds(ledgers) && UniqueTitles(ledgers)
    }

    ghost function Ids(): set<LedgerId>
      reads this
    {
      set l | l in ledgers :: l.id
    }

    constructor (users: seq<User>)
      ensures Valid() && this.users == users && ledgers == []
    {
      this.users := users;
      ledgers := [];
    }

    /** `Ledger.findById(id)`. */
    function FindById(id: LedgerId): (r: Option<Ledger>)
      reads this
      ensures r.Some? ==> r.value in ledgers && r.value.id == id
      ensures r.None? <==> id !in Ids()
    {
      FindLedger(ledgers, id)
    }

    /**
     * `createLedgerByUser({ title, description, username })`. `newId` is the
     * ObjectId the database assigns, which no stored ledger has.
     */
    method CreateLedgerByUser(title: string, description: Option<string>, username: string, newId: LedgerId)
      returns (r: CreateResult)
      requires Valid() && newId !in Ids()
      modifies this
      ensures Valid()
      ensures match CheckCreate(users, old(ledgers), title, username)
        case Rejected(e) => r == CreateFailed(e) && ledgers == old(ledgers)
        case Accepted(u) =>
          && r == CreateSucceeded(Created(newId, title, DescriptionOrEmpty(description)))
          && ledgers == old(ledgers) + [Ledger(newId, title, DescriptionOrEmpty(description), u.id, None)]
    {
      if title == "" {
        return CreateFailed(TitleRequired);
      }
      if username == "" {
        return CreateFailed(UsernameRequired);
      }
      var user := FindUser(users, username);
      if user.None? {
        return CreateFailed(AccountNotFound);
      }
      if TitleUsed(ledgers, title) {
        return CreateFailed(NameAlreadyUsed);
      }
      var created := Ledger(newId, title, DescriptionOrEmpty(description), user.value.id, None);
      assert forall l :: l in ledgers ==> l.id != newId && l.title != title;
      ledgers := ledgers + [created];
      r := CreateSucceeded(Created(newId, title, created.description));
    }

    /** Attaches the spreadsheet to ledger `id`. */
    method AttachSheet(id: LedgerId, sheetId: SheetId)
      requires Valid()
      modifies this
      ensures Valid()
      ensures ledgers == AttachSheetId(old(ledgers), id, sheetId)
    {
      ledgers := AttachSheetId(ledgers, id, sheetId);
      assert forall i :: 0 <= i < |ledgers| ==> ledgers[i].id == old(ledgers)[i].id && ledgers[i].title == old(ledgers)[i].title;
    }

    /** Deletes ledger `id`. */
    method Delete(id: LedgerId)
      requires Valid()
      modifies this
      ensures Valid()
      ensures ledgers == RemoveLedger(old(ledgers), id)
    {
      RemovePreservesUnique(ledgers, id);
      ledgers := RemoveLedger(ledgers, id);
    }
  }

  lemma {:induction false} RemovePreservesUnique(ledgers: seq<Ledger>, id: LedgerId)
    requires UniqueIds(ledgers) && UniqueTitles(ledgers)
    ensures UniqueIds(RemoveLedger(ledgers, id)) && UniqueTitles(RemoveLedger(ledgers, id))
    decreases |ledgers|
  {
    if ledgers != [] {
      var tail := ledgers[1..];
      assert UniqueIds(tail) && UniqueTitles(tail) by {
        forall i, j | 0 <= i < j < |tail| ensures tail[i].id != tail[j].id && tail[i].title != tail[j].title {
          assert tail[i] == ledgers[i + 1] && tail[j] == ledgers[j + 1];
        }
      }
      RemovePreservesUnique(tail, id);
      if ledgers[0].id != id {
        var rest := RemoveLedger(tail, id);
        forall k | k in rest ensures k.id != ledgers[0].id && k.title != ledgers[0].title {
          var j :| 0 <= j < |tail| && tail[j] == k;
          assert ledgers[j + 1] == k;
        }
        ConsUnique(ledgers[0], rest);
      }
    }
  }

  lemma ConsUnique(x: Ledger, rest: seq<Ledger>)
    requires UniqueIds(rest) && UniqueTitles(rest)
    requires forall k :: k in rest ==> k.id != x.id && k.title != x.title
    ensures UniqueIds([x] + rest) && UniqueTitles([x] + rest)
  {
    var r := [x] + rest;
    forall i, j | 0 <= i < j < |r| ensures r[i].id != r[j].id && r[i].title != r[j].title {
      assert r[j] == rest[j - 1];
      if i > 0 {
        assert r[i] == rest[i - 1];
      } else {
        assert rest[j - 1] in rest;
      }
    }
  }
}
