/**
 * `sendLedgerPage` (bots/telegrambot.js): the cached ledger list is cut into
 * pages of five, each ledger becomes a `select_ledger:<id>` button, and a
 * navigation row holds `ledger_page:<n>` buttons for the neighbouring pages that
 * exist. Also the parsing of those two tokens in the callback handler.
 */
module Pagination {
  import opened Wrappers
  import opened Text
  import opened LedgerService

  const PageSize: nat := 5
  const PagePrefix: string := "ledger_page:"
  const SelectPrefix: string := "select_ledger:"

  /** A page number as the dialog keeps it; NotANumber is the NaN `parseInt` gives for a token without digits. */
  datatype PageNo = Page(n: nat) | NotANumber

  /** An inline button, by what it does. */
  datatype Button = Select(id: LedgerId, title: string) | Prev(target: nat) | Next(target: nat)

  /** The rendered listing: the page shown, "of totalPages", and the inline keyboard rows. */
  datatype PageView = PageView(page: PageNo, totalPages: nat, keyboard: seq<seq<Button>>)

  /** The `callback_data` a button carries. */
  function CallbackData(b: Button): (data: string)
    ensures b.Select? ==> SelectPrefix <= data && data[|SelectPrefix|..] == b.id
    ensures !b.Select? ==> PagePrefix <= data && AllDigits(data[|PagePrefix|..])
  {
    match b
    case Select(id, _) => SelectPrefix + id
    case Prev(p) => PagePrefix + NatToString(p)
    case Next(p) => PagePrefix + NatToString(p)
  }

  /** `parseInt(data.split(":")[1], 10)`. */
  function PageFromToken(data: string): (p: PageNo)
    ensures p.Page? <==> |SecondField(data)| > 0 && IsDigit(SecondField(data)[0])
  {
    match ParseNat(SecondField(data))
    case Some(n) => Page(n)
    case None => NotANumber
  }

  /** `data.split(":")[1]`. */
  function LedgerIdFromToken(data: string): (id: string)
    ensures ':' !in id
  {
    SecondField(data)
  }

  lemma NoColonInDigits(s: string)
    requires AllDigits(s)
    ensures ':' !in s
  {
    forall i | 0 <= i < |s| ensures s[i] != ':' {
      assert IsDigit(s[i]);
    }
  }

  /** A navigation button's token is recognised as one and parses back to its target page. */
  lemma PageTokenRoundTrip(b: Button)
    requires !b.Select?
    ensures PagePrefix <= CallbackData(b)
    ensures PageFromToken(CallbackData(b)) == Page(b.target)
  {
    var digits := NatToString(b.target);
    assert CallbackData(b) == PagePrefix + digits;
    NoColonInDigits(digits);
    assert PagePrefix[..|PagePrefix| - 1] == "ledger_page";
    SecondFieldAfterPrefix(PagePrefix, digits);
    UpToColonWhole(digits);
    NatRoundTrip(b.target);
  }

  /** A ledger button's token is not taken for a page token and gives back the ledger id, when the id has no ':'. */
  lemma SelectTokenRoundTrip(id: LedgerId, title: string)
    requires ':' !in id
    ensures SelectPrefix <= CallbackData(Select(id, title))
    ensures !(PagePrefix <= CallbackData(Select(id, title)))
    ensures LedgerIdFromToken(CallbackData(Select(id, title))) == id
  {
    var data := CallbackData(Select(id, title));
    assert data[0] == 's';
    assert SelectPrefix[..|SelectPrefix| - 1] == "select_ledger";
    SecondFieldAfterPrefix(SelectPrefix, id);
    UpToColonWhole(id);
  }

  /** `Math.ceil(n / 5)`. */
  function TotalPages(n: nat): (t: nat)
    ensures n <= PageSize * t
    ensures t > 0 ==> PageSize * (t - 1) < n
  {
    (n + PageSize - 1) / PageSize
  }

  /** `s.slice(start, end)` for non-negative bounds: both are clamped to the length. */
  function Slice<T>(s: seq<T>, start: nat, end: nat): (r: seq<T>)
    ensures |r| == if start < end && start < |s| then (if end < |s| then end else |s|) - start else 0
    ensures forall i :: 0 <= i < |r| ==> r[i] == s[start + i]
  {
    var b := if end < |s| then end else |s|;
    if start < b then s[start..b] else []
  }

  /** The ledgers on a page: `ledgers.slice(page * 5, page * 5 + 5)`; a NaN page gives `slice(NaN, NaN)`, which is empty. */
  function PageItems(ledgers: seq<Ledger>, page: PageNo): seq<Ledger>
  {
    match page
    case Page(p) => Slice(ledgers, p * PageSize, p * PageSize + PageSize)
    case NotANumber => []
  }

  /** `page > 0` and `page < totalPages - 1`, which are both false for NaN. */
  predicate HasPrev(page: PageNo)
  {
    page.Page? && page.n > 0
  }

  predicate HasNext(page: PageNo, totalPages: nat)
  {
    page.Page? && (page.n as int) < (totalPages as int) - 1
  }

  function NavRow(page: PageNo, totalPages: nat): (nav: seq<Button>)
    ensures |nav| <= 2
    ensures forall b :: b in nav ==>
      || (b.Prev? && page.Page? && b.target + 1 == page.n)
      || (b.Next? && page.Page? && b.target == page.n + 1 && b.target < totalPages)
  {
    (if HasPrev(page) then [Prev(page.n - 1)] else [])
    + (if HasNext(page, totalPages) then [Next(page.n + 1)] else [])
  }

  function LedgerRows(items: seq<Ledger>): (rows: seq<seq<Button>>)
    ensures |rows| == |items|
    ensures forall i :: 0 <= i < |items| ==> rows[i] == [Select(items[i].id, items[i].title)]
  {
    seq(|items|, i requires 0 <= i < |items| => [Select(items[i].id, items[i].title)])
  }

  /** `sendLedgerPage(chatId, userId, page, ledgers)`, without the message text. */
  function RenderPage(ledgers: seq<Ledger>, page: PageNo): (v: PageView)
    ensures v.page == page && v.totalPages == TotalPages(|ledgers|)
    ensures var items := PageItems(ledgers, page);
      && |v.keyboard| == |items| + (if HasPrev(page) || HasNext(page, v.totalPages) then 1 else 0)
      && (forall i :: 0 <= i < |items| ==> v.keyboard[i] == [Select(items[i].id, items[i].title)])
      && (HasPrev(page) || HasNext(page, v.totalPages) ==>
            var nav := v.keyboard[|items|];
            && |nav| == (if HasPrev(page) then 1 else 0) + (if HasNext(page, v.totalPages) then 1 else 0)
            && (HasPrev(page) ==> Prev(page.n - 1) in nav)
            && (HasNext(page, v.totalPages) ==> Next(page.n + 1) in nav)
            && (forall b :: b in nav ==>
                  || (b.Prev? && HasPrev(page) && b.target + 1 == page.n)
                  || (b.Next? && HasNext(page, v.totalPages) && b.target == page.n + 1)))
  {
    var total := TotalPages(|ledgers|);
    var items := PageItems(ledgers, page);
    var nav := NavRow(page, total);
    var rows := LedgerRows(items);
    PageView(page, total, if |nav| > 0 then rows + [nav] else rows)
  }

  /** Page p shows exactly the ledgers with indices in [5p, min(5p + 5, n)). */
  lemma PageShowsRange(ledgers: seq<Ledger>, p: nat)
    requires p * PageSize <= |ledgers|
    ensures var end := if p * PageSize + PageSize < |ledgers| then p * PageSize + PageSize else |ledgers|;
      PageItems(ledgers, Page(p)) == ledgers[p * PageSize..end]
  {
  }

  /** Ledger i is the (i mod 5)-th button of page i div 5, which is one of the pages. */
  lemma LedgerOnItsPage(ledgers: seq<Ledger>, i: nat)
    requires i < |ledgers|
    ensures i / PageSize < TotalPages(|ledgers|)
    ensures var items := PageItems(ledgers, Page(i / PageSize));
      i % PageSize < |items| && items[i % PageSize] == ledgers[i]
  {
    var p := i / PageSize;
    assert p * PageSize <= i < p * PageSize + PageSize;
  }

  /** Pages 0 .. k-1 put side by side. */
  function FirstPages(ledgers: seq<Ledger>, k: nat): seq<Ledger>
  {
    if k == 0 then [] else FirstPages(ledgers, k - 1) + PageItems(ledgers, Page(k - 1))
  }

  function Min(a: nat, b: nat): nat
  {
    if a < b then a else b
  }

  /** Page p is the stretch of the list between the ends of pages p-1 and p. */
  lemma PageIsStretch(ledgers: seq<Ledger>, p: nat)
    ensures Min(p * PageSize, |ledgers|) <= Min((p + 1) * PageSize, |ledgers|)
    ensures PageItems(ledgers, Page(p)) == ledgers[Min(p * PageSize, |ledgers|)..Min((p + 1) * PageSize, |ledgers|)]
  {
    assert (p + 1) * PageSize == p * PageSize + PageSize;
  }

  /** The last page ends at the end of the list. */
  lemma LastPageEnds(n: nat)
    ensures Min(TotalPages(n) * PageSize, n) == n
  {
    var t := TotalPages(n);
    assert t * PageSize == PageSize * t;
  }

  /** The pages 0 .. totalPages-1 together list every ledger once, in order. */
  lemma {:induction false} PagesCoverAll(ledgers: seq<Ledger>, k: nat)
    ensures FirstPages(ledgers, k) == ledgers[..Min(k * PageSize, |ledgers|)]
    ensures k == TotalPages(|ledgers|) ==> FirstPages(ledgers, k) == ledgers
    decreases k
  {
    if k > 0 {
      var j := k - 1;
      PagesCoverAll(ledgers, j);
      PageIsStretch(ledgers, j);
      assert j + 1 == k;
      var a := Min(j * PageSize, |ledgers|);
      var b := Min(k * PageSize, |ledgers|);
      assert FirstPages(ledgers, k) == FirstPages(ledgers, j) + PageItems(ledgers, Page(j));
      assert ledgers[..a] + ledgers[a..b] == ledgers[..b];
    }
    if k == TotalPages(|ledgers|) {
      LastPageEnds(|ledgers|);
      assert ledgers[..|ledgers|] == ledgers;
    }
  }

  /** From a page that exists, the navigation buttons lead only to pages that exist. */
  lemma NavStaysInRange(ledgers: seq<Ledger>, p: nat, b: Button)
    requires p < TotalPages(|ledgers|)
    requires b in NavRow(Page(p), TotalPages(|ledgers|))
    ensures b.Prev? || b.Next?
    ensures b.target < TotalPages(|ledgers|)
    ensures b.Prev? <==> b.target == p - 1
  {
  }

  /** Twelve ledgers: page 0 shows ledgers 1-5 with only "Next"; page 2 shows ledgers 11-12 with only "Prev". */
  lemma TwelveLedgers(ledgers: seq<Ledger>)
    requires |ledgers| == 12
    ensures TotalPages(12) == 3
    ensures RenderPage(ledgers, Page(0)).keyboard ==
      LedgerRows(ledgers[0..5]) + [[Next(1)]]
    ensures RenderPage(ledgers, Page(2)).keyboard ==
      LedgerRows(ledgers[10..12]) + [[Prev(1)]]
  {
    PageShowsRange(ledgers, 0);
    PageShowsRange(ledgers, 2);
    assert NavRow(Page(0), 3) == [Next(1)];
    assert NavRow(Page(2), 3) == [Prev(1)];
  }
}
