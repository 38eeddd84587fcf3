/**
  The marketplace page: the coin table is cut into pages of 30, a Prev/Next
  pair steps the current page, and each row shows an owner label and, for
  unowned coins only, a Buy button.
 */
module Shop {
  import opened Wrappers
  import Decimal

  const PageSize: nat := 30

  /** The fields of a row of `GET /api/coins` the page shows; `clientId` is `client_id`, `None` being null. */
  datatype CoinListing = CoinListing(
    coinId: int, bit1: int, bit2: int, bit3: int, value: int, clientId: Option<int>, ownerName: string, hash: string)

  function Min(a: int, b: int): int {
    if a <= b then a else b
  }

  function Max(a: int, b: int): int {
    if a >= b then a else b
  }

  // ---------------------------------------------------------------------------
  // Pagination arithmetic
  // ---------------------------------------------------------------------------

  /** How `Array.prototype.slice` reads an integer bound: negative counts from the end, then clamp to the list. */
  function SliceBound(i: int, len: nat): (r: nat)
    ensures r <= len
    ensures 0 <= i ==> r == Min(i, len)
  {
    if i < 0 then Max(len + i, 0) else Min(i, len)
  }

  /**
    `xs.slice(start, end)` as ECMA-262 defines `Array.prototype.slice`:
    `max(final - k, 0)` elements, copied in order from the clamped start `k`.
   */
  function Slice<T>(xs: seq<T>, start: int, end: int): (r: seq<T>)
    ensures |r| <= |xs|
    ensures |r| == Max(SliceBound(end, |xs|) - SliceBound(start, |xs|), 0)
    ensures forall k :: 0 <= k < |r| ==> r[k] == xs[SliceBound(start, |xs|) + k]
  {
    var s := SliceBound(start, |xs|);
    var e := SliceBound(end, |xs|);
    if s <= e then xs[s..e] else []
  }

  /** `coins.slice(startIndex, endIndex)` for page `page`. */
  function PageCoins<T>(coins: seq<T>, page: int): (r: seq<T>)
    ensures |r| <= PageSize
    ensures page >= 1 ==> r == coins[Min((page - 1) * PageSize, |coins|)..Min((page - 1) * PageSize + PageSize, |coins|)]
  {
    var startIndex := (page - 1) * PageSize;
    Slice(coins, startIndex, startIndex + PageSize)
  }

  /** `Math.ceil(coins.length / PAGE_SIZE)`: the fewest pages of 30 that hold `n` coins. */
  function TotalPages(n: nat): (t: nat)
    ensures t * PageSize >= n
    ensures n > 0 ==> (t - 1) * PageSize < n
    ensures n == 0 <==> t == 0
  {
    if n % PageSize == 0 then n / PageSize else n / PageSize + 1
  }

  /** The pages `first` to `last` laid end to end. */
  function PagesFrom<T>(coins: seq<T>, first: int, last: int): seq<T>
    decreases last - first
  {
    if first > last then [] else PageCoins(coins, first) + PagesFrom(coins, first + 1, last)
  }

  lemma {:induction false} PagesFromRest<T>(coins: seq<T>, first: int)
    requires 1 <= first <= TotalPages(|coins|) + 1
    ensures PagesFrom(coins, first, TotalPages(|coins|)) == coins[Min((first - 1) * PageSize, |coins|)..]
    decreases TotalPages(|coins|) - first
  {
    var last := TotalPages(|coins|);
    if first <= last {
      PagesFromRest(coins, first + 1);
      var a := Min((first - 1) * PageSize, |coins|);
      var b := Min((first - 1) * PageSize + PageSize, |coins|);
      assert coins[a..] == coins[a..b] + coins[b..];
    } else {
      assert (first - 1) * PageSize >= |coins|;
    }
  }

  /** Pages 1 to `totalPages`, one after the other, show every coin once and in order. */
  lemma PagesCoverCoins<T>(coins: seq<T>)
    ensures PagesFrom(coins, 1, TotalPages(|coins|)) == coins
  {
    PagesFromRest(coins, 1);
  }

  // ---------------------------------------------------------------------------
  // Prev/Next controls
  // ---------------------------------------------------------------------------

  /** The Prev updater `p => Math.max(p - 1, 1)`. */
  function PrevPage(p: int): (q: int)
    ensures q >= 1
    ensures p > 1 ==> q == p - 1
  {
    Max(p - 1, 1)
  }

  /** The Next updater `p => Math.min(p + 1, totalPages)`. */
  function NextPage(p: int, totalPages: int): (q: int)
    ensures q <= totalPages
    ensures p < totalPages ==> q == p + 1
  {
    Min(p + 1, totalPages)
  }

  /** The controls are rendered only when there is more than one page. */
  predicate ShowsPagination(totalPages: int) {
    totalPages > 1
  }

  predicate PrevDisabled(p: int) {
    p == 1
  }

  predicate NextDisabled(p: int, totalPages: int) {
    p == totalPages
  }

  datatype Click = Prev | Next

  /** The page after a click; a hidden or disabled button does nothing. */
  function AfterClick(p: int, totalPages: int, click: Click): (q: int)
    ensures !ShowsPagination(totalPages) ==> q == p
    ensures InRange(p, totalPages) && click == Prev ==> q == p || q == p - 1
    ensures InRange(p, totalPages) && click == Next ==> q == p || q == p + 1
  {
    if !ShowsPagination(totalPages) then p
    else match click
      case Prev => if PrevDisabled(p) then p else PrevPage(p)
      case Next => if NextDisabled(p, totalPages) then p else NextPage(p, totalPages)
  }

  function AfterClicks(p: int, totalPages: int, clicks: seq<Click>): int
    decreases |clicks|
  {
    if clicks == [] then p else AfterClicks(AfterClick(p, totalPages, clicks[0]), totalPages, clicks[1..])
  }

  /** The page shown is a real page: at least 1, and at most the page count when there are pages. */
  predicate InRange(p: int, totalPages: int) {
    1 <= p <= Max(totalPages, 1)
  }

  lemma AfterClickInRange(p: int, totalPages: int, click: Click)
    requires InRange(p, totalPages)
    ensures InRange(AfterClick(p, totalPages, click), totalPages)
  {
  }

  /** However the user clicks, the current page stays between 1 and the page count. */
  lemma {:induction false} ClicksStayInRange(p: int, totalPages: int, clicks: seq<Click>)
    requires InRange(p, totalPages)
    ensures InRange(AfterClicks(p, totalPages, clicks), totalPages)
    decreases |clicks|
  {
    if clicks != [] {
      AfterClickInRange(p, totalPages, clicks[0]);
      ClicksStayInRange(AfterClick(p, totalPages, clicks[0]), totalPages, clicks[1..]);
    }
  }

  /** From any page `p`, `target - p` clicks on Next reach any later page `target` there is. */
  lemma {:induction false} NextReachesEveryPage(p: int, totalPages: int, target: int)
    requires 1 <= p <= target <= Max(totalPages, 1)
    ensures AfterClicks(p, totalPages, seq(target - p, _ => Next)) == target
    decreases target - p
  {
    var clicks := seq(target - p, _ => Next);
    if p < target {
      assert ShowsPagination(totalPages) && !NextDisabled(p, totalPages);
      assert clicks[1..] == seq(target - (p + 1), _ => Next);
      NextReachesEveryPage(p + 1, totalPages, target);
    }
  }

  // ---------------------------------------------------------------------------
  // Owner column and Buy button
  // ---------------------------------------------------------------------------

  /** `coin.client_id` as a condition: null and 0 are both falsy. */
  predicate Owned(c: CoinListing) {
    c.clientId.Some? && c.clientId.value != 0
  }

  /** The Buy button is rendered under `!coin.client_id`. */
  predicate ShowsBuyButton(c: CoinListing): (shown: bool)
    ensures shown <==> c.clientId == None || c.clientId == Some(0)
  {
    !Owned(c)
  }

  /** The owner cell: "Unowned", else `owner_name`, else `User #<client_id>` when the name is empty. */
  function OwnerLabel(c: CoinListing): (text: string)
    ensures text != []
    ensures !Owned(c) ==> text == "Unowned"
    ensures Owned(c) && c.ownerName != "" ==> text == c.ownerName
  {
    if !Owned(c) then "Unowned"
    else if c.ownerName != "" then c.ownerName
    else "User #" + Decimal.IntToString(c.clientId.value)
  }

  /**
    A row offers Buy exactly when its label reads "Unowned", unless an owner
    is literally named "Unowned".
   */
  lemma BuyButtonMatchesLabel(c: CoinListing)
    ensures ShowsBuyButton(c) ==> OwnerLabel(c) == "Unowned"
    ensures OwnerLabel(c) == "Unowned" && c.ownerName != "Unowned" ==> ShowsBuyButton(c)
  {
    if Owned(c) && c.ownerName == "" {
      assert OwnerLabel(c)[1] == 's';
    }
  }

  /** Two owned coins without owner names show the same label only when they have the same owner. */
  lemma FallbackLabelsIdentifyOwner(a: CoinListing, b: CoinListing)
    requires Owned(a) && Owned(b) && a.ownerName == "" && b.ownerName == ""
    requires OwnerLabel(a) == OwnerLabel(b)
    ensures a.clientId == b.clientId
  {
    var prefix := "User #";
    assert Decimal.IntToString(a.clientId.value) == OwnerLabel(a)[|prefix|..];
    assert Decimal.IntToString(b.clientId.value) == OwnerLabel(b)[|prefix|..];
    Decimal.IntToStringInjective(a.clientId.value, b.clientId.value);
  }

  // ---------------------------------------------------------------------------
  // The component's state
  // ---------------------------------------------------------------------------

  /** The `coins` and `currentPage` state of the page component. */
  class ShopPage {
    var coins: seq<CoinListing>
    var currentPage: int

    ghost predicate Valid()
      reads this
    {
      currentPage >= 1
    }

    /** `useState([])` and `useState(1)`. */
    constructor ()
      ensures Valid()
      ensures coins == [] && currentPage == 1
    {
      coins, currentPage := [], 1;
    }

    function PageCount(): nat
      reads this
    {
      TotalPages(|coins|)
    }

    /** The rows of the table: the current page of coins. */
    function Rows(): (rows: seq<CoinListing>)
      reads this
      requires Valid()
      ensures |rows| <= PageSize
      ensures forall i :: 0 <= i < |rows| ==> rows[i] in coins
    {
      PageCoins(coins, currentPage)
    }

    /** `setCoins(data)` after a successful fetch; the current page is kept. */
    method CoinsLoaded(data: seq<CoinListing>)
      requires Valid()
      modifies this`coins
      ensures Valid()
      ensures coins == data && currentPage == old(currentPage)
    {
      coins := data;
    }

    /** A click on Prev; nothing happens when the controls are hidden or Prev is disabled. */
    method ClickPrev()
      requires Valid()
      modifies this`currentPage
      ensures Valid()
      ensures currentPage == AfterClick(old(currentPage), PageCount(), Prev)
      ensures InRange(old(currentPage), PageCount()) ==> InRange(currentPage, PageCount())
    {
      if ShowsPagination(PageCount()) && !PrevDisabled(currentPage) {
        currentPage := PrevPage(currentPage);
      }
    }

    /** A click on Next; nothing happens when the controls are hidden or Next is disabled. */
    method ClickNext()
      requires Valid()
      modifies this`currentPage
      ensures Valid()
      ensures currentPage == AfterClick(old(currentPage), PageCount(), Next)
      ensures InRange(old(currentPage), PageCount()) ==> InRange(currentPage, PageCount())
    {
      if ShowsPagination(PageCount()) && !NextDisabled(currentPage, PageCount()) {
        currentPage := NextPage(currentPage, PageCount());
      }
    }
  }
}
