/**
 * The brokerage dashboard (src/components/BrokerageDashboard.jsx): three
 * pages behind a clamped pager, metric cards that are editable when bound to
 * a path, pie charts coloured from a cycling palette, and the paths the
 * pages bind into the dashboard store's default tree.
 */
module Brokerage {
  import opened Optional
  import opened Text
  import opened JsValues
  import opened DashboardData
  import opened EditableValueWidget

  // ------------------------------------------------------------ the pager

  const FirstPage := 1
  const LastPage := 3

  /** Previous: `Math.max(1, currentPage - 1)`. */
  function PreviousPage(p: int): int {
    if p - 1 < FirstPage then FirstPage else p - 1
  }

  /** Next: `Math.min(3, currentPage + 1)`. */
  function NextPage(p: int): int {
    if p + 1 > LastPage then LastPage else p + 1
  }

  predicate PreviousDisabled(p: int) {
    p == FirstPage
  }

  predicate NextDisabled(p: int) {
    p == LastPage
  }

  datatype Screen = Page1 | Page2 | Page3

  /** The renderers `currentPage === n && renderPageN()` that show. */
  function Rendered(p: int): set<Screen> {
    (if p == 1 then {Page1} else {}) + (if p == 2 then {Page2} else {}) + (if p == 3 then {Page3} else {})
  }

  /** Each page in range shows exactly one renderer, and a different one for
      each page. */
  lemma OneScreenPerPage(p: int, q: int)
    requires FirstPage <= p <= LastPage && FirstPage <= q <= LastPage
    ensures |Rendered(p)| == 1
    ensures Rendered(p) == Rendered(q) <==> p == q
  {
    if p == 1 {
      assert Rendered(p) == {Page1};
    } else if p == 2 {
      assert Rendered(p) == {Page2};
    } else {
      assert Rendered(p) == {Page3};
    }
  }

  /** The clamps keep the page in range; a button is disabled exactly when
      pressing it would leave the page where it is, and otherwise it moves
      one page. */
  lemma PagerSteps(p: int)
    requires FirstPage <= p <= LastPage
    ensures FirstPage <= PreviousPage(p) <= LastPage && FirstPage <= NextPage(p) <= LastPage
    ensures PreviousDisabled(p) <==> PreviousPage(p) == p
    ensures NextDisabled(p) <==> NextPage(p) == p
    ensures !PreviousDisabled(p) ==> PreviousPage(p) == p - 1
    ensures !NextDisabled(p) ==> NextPage(p) == p + 1
  {
  }

  /** Next undoes Previous and Previous undoes Next, wherever the first
      press moved. */
  lemma PagerRoundTrips(p: int)
    requires FirstPage <= p <= LastPage
    ensures !NextDisabled(p) ==> PreviousPage(NextPage(p)) == p
    ensures !PreviousDisabled(p) ==> NextPage(PreviousPage(p)) == p
  {
  }

  /** `currentPage` and `handlePageChange`. */
  class Pager {
    var currentPage: int

    predicate Valid()
      reads this
    {
      FirstPage <= currentPage <= LastPage
    }

    /** `useState(1)`. */
    constructor ()
      ensures currentPage == FirstPage && Valid()
    {
      currentPage := FirstPage;
    }

    /** The pages on screen. */
    function Screens(): set<Screen>
      reads this
    {
      Rendered(currentPage)
    }

    /** The Previous button: ignored while disabled, else the clamped step
        back. */
    method ClickPrevious()
      requires Valid()
      modifies this
      ensures Valid() && |Screens()| == 1
      ensures currentPage == PreviousPage(old(currentPage))
      ensures old(PreviousDisabled(currentPage)) ==> currentPage == old(currentPage)
    {
      if !PreviousDisabled(currentPage) {
        currentPage := PreviousPage(currentPage);
      }
      OneScreenPerPage(currentPage, currentPage);
    }

    /** The Next button: ignored while disabled, else the clamped step
        forward. */
    method ClickNext()
      requires Valid()
      modifies this
      ensures Valid() && |Screens()| == 1
      ensures currentPage == NextPage(old(currentPage))
      ensures old(NextDisabled(currentPage)) ==> currentPage == old(currentPage)
    {
      if !NextDisabled(currentPage) {
        currentPage := NextPage(currentPage);
      }
      OneScreenPerPage(currentPage, currentPage);
    }
  }

  // ------------------------------------------------------- metric cards

  /** What a metric card's body is: an editor bound to `path` with the card's
      value as its default, or the value itself. */
  datatype CardBody = Editor(path: string, defaultValue: Js, numeric: bool) | Plain(value: Js)

  /** `path ? <EditableValue .../> : value`; a card with no path, or the
      empty (falsy) path, shows the plain value. `kind` is the `type` prop,
      "text" when not given. */
  function CardBodyOf(path: Option<string>, value: Js, kind: string): CardBody {
    if path.Some? && path.value != "" then Editor(path.value, value, kind == "number")
    else Plain(value)
  }

  /** What the card body shows for the store tree `t`. */
  function CardShows(t: Json, body: CardBody): Js {
    match body
    case Editor(path, defaultValue, _) => Displayed(t, path, defaultValue)
    case Plain(value) => value
  }

  /** The cards bind `path` and pass `data.<path>` as the value: whatever
      the tree holds there, falsy or not, is what the card shows, bound or
      not. */
  lemma CardShowsTreeValue(t: Json, path: Option<string>, x: Json, kind: string)
    requires path.Some? ==> Resolve(Defined(t), Split(path.value, '.')) == Some(Defined(x))
    ensures CardShows(t, CardBodyOf(path, Defined(x), kind)) == Defined(x)
    ensures CardBodyOf(path, Defined(x), kind).Editor? <==> path.Some? && path.value != ""
  {
  }

  /** A card bound to `a.b.c` in `t` shows the leaf found there. */
  lemma BoundCardShowsLeaf(t: Json, a: string, b: string, c: string, kind: string)
    requires Names3(t, a, b, c) && '.' !in a && '.' !in b && '.' !in c
    ensures var x := t.fields[a].fields[b].fields[c];
      CardShows(t, CardBodyOf(Some(a + "." + b + "." + c), Defined(x), kind)) == Defined(x)
  {
    Names3Resolves(t, a, b, c);
    CardShowsTreeValue(t, Some(a + "." + b + "." + c), t.fields[a].fields[b].fields[c], kind);
  }

  // ------------------------------------------------------- pie colours

  const VolumeColors := ["#10B981", "#8B5CF6", "#F59E0B", "#EF4444"]
  const AgentColors := ["#3B82F6", "#06B6D4", "#10B981", "#F59E0B"]
  const ListingColors := ["#10B981", "#3B82F6", "#EF4444", "#F97316", "#8B5CF6", "#EC4899"]

  /** `colors[index % colors.length]`; an empty palette gives `undefined`
      (`index % 0` is NaN). */
  function SegmentColor(colors: seq<string>, i: nat): (r: Option<string>)
    ensures r.None? <==> colors == []
    ensures r.Some? ==> r.value in colors
  {
    if colors == [] then None else Some(colors[i % |colors|])
  }

  predicate Distinct(colors: seq<string>) {
    forall i, j | 0 <= i < j < |colors| :: colors[i] != colors[j]
  }

  /** A positive multiple of `n` is at least `n`. */
  lemma {:induction false} MultipleAtLeast(k: nat, n: nat)
    requires k >= 1
    ensures k * n >= n
    decreases k
  {
    if k > 1 {
      MultipleAtLeast(k - 1, n);
      assert k * n == (k - 1) * n + n;
    }
  }

  /** The remainder below `n` is unique. */
  lemma RemainderUnique(x: nat, n: nat, q: int, r: int)
    requires 0 <= r < n && x == q * n + r
    ensures x % n == r
  {
    var q2, r2 := x / n, x % n;
    assert (q - q2) * n == r2 - r;
    if q > q2 {
      MultipleAtLeast(q - q2, n);
    } else if q < q2 {
      MultipleAtLeast(q2 - q, n);
    }
  }

  /** Adding `n` leaves the remainder as it was. */
  lemma RemainderRepeats(i: nat, n: nat)
    requires 0 < n
    ensures (i + n) % n == i % n
  {
    var q, r := i / n, i % n;
    assert i + n == (q + 1) * n + r;
    RemainderUnique(i + n, n, q + 1, r);
  }

  /** Two numbers less than `n` apart leave different remainders. */
  lemma RemaindersDiffer(i: nat, j: nat, n: nat)
    requires 0 < n && i < j < i + n
    ensures i % n != j % n
  {
    var qi, qj := i / n, j / n;
    if i % n == j % n {
      assert (qj - qi) * n == j - i;
      if qj > qi {
        MultipleAtLeast(qj - qi, n);
      } else {
        assert (qi - qj) * n == i - j;
        if qi > qj {
          MultipleAtLeast(qi - qj, n);
        }
      }
    }
  }

  /** The colours repeat with the palette's length. */
  lemma ColorsCycle(colors: seq<string>, i: nat)
    ensures SegmentColor(colors, i + |colors|) == SegmentColor(colors, i)
  {
    if colors != [] {
      RemainderRepeats(i, |colors|);
    }
  }

  /** Segments within one round of the palette get distinct colours when
      the palette's colours are distinct. */
  lemma ColorsDistinctInRound(colors: seq<string>, i: nat, j: nat)
    requires Distinct(colors) && i < j < i + |colors|
    ensures SegmentColor(colors, i) != SegmentColor(colors, j)
  {
    var n := |colors|;
    RemaindersDiffer(i, j, n);
    var a, b := i % n, j % n;
    if a < b {
      assert colors[a] != colors[b];
    } else {
      assert colors[b] != colors[a];
    }
  }

  /** The three palettes of the dashboard have no repeated colour. */
  lemma PalettesDistinct()
    ensures Distinct(VolumeColors) && Distinct(AgentColors) && Distinct(ListingColors)
  {
  }

  // ------------------------------------- the bound paths, default tree

  /** Page 1: the closed-deal tile, the four metric cards and the closed
      deal count. */
  lemma Page1Headline()
    ensures Names3(DefaultData(), "page1", "closedDeal", "value")
    ensures Names3(DefaultData(), "page1", "closedDeal", "allocation")
    ensures Names3(DefaultData(), "page1", "metrics", "sellSide")
    ensures Names3(DefaultData(), "page1", "metrics", "dualSide")
    ensures Names3(DefaultData(), "page1", "metrics", "buySide")
    ensures Names3(DefaultData(), "page1", "metrics", "closedDeals")
    ensures Names2(DefaultData(), "page1", "totalClosedDeals")
  {
  }

  /** Page 1: pending, active and price-range tiles. */
  lemma Page1Tiles()
    ensures Names3(DefaultData(), "page1", "pending", "value")
    ensures Names3(DefaultData(), "page1", "pending", "sellSide")
    ensures Names3(DefaultData(), "page1", "pending", "dual")
    ensures Names3(DefaultData(), "page1", "pending", "buySide")
    ensures Names3(DefaultData(), "page1", "active", "value")
    ensures Names3(DefaultData(), "page1", "active", "total")
    ensures Names3(DefaultData(), "page1", "priceRange", "range")
    ensures Names3(DefaultData(), "page1", "priceRange", "avgSoldPrice")
  {
  }

  /** Page 2: agents and offices, price ratios, days on market and the
      market rank. */
  lemma Page2Ratios()
    ensures Names3(DefaultData(), "page2", "agentsOffices", "totalAgents")
    ensures Names3(DefaultData(), "page2", "agentsOffices", "activeAgents")
    ensures Names3(DefaultData(), "page2", "agentsOffices", "inactiveAgents")
    ensures Names3(DefaultData(), "page2", "agentsOffices", "offices")
    ensures Names3(DefaultData(), "page2", "priceRatios", "allSides")
    ensures Names3(DefaultData(), "page2", "priceRatios", "buyPrevCurrent")
    ensures Names3(DefaultData(), "page2", "priceRatios", "buyTargetActual")
    ensures Names2(DefaultData(), "page2", "marketRank")
  {
  }

  /** Page 2: days on market and the revenue figures. */
  lemma Page2Revenue()
    ensures Names3(DefaultData(), "page2", "daysOnMarket", "allSides")
    ensures Names3(DefaultData(), "page2", "daysOnMarket", "buyPrevCurrent")
    ensures Names3(DefaultData(), "page2", "daysOnMarket", "buyTargetActual")
    ensures Names3(DefaultData(), "page2", "revenue", "overhead")
    ensures Names3(DefaultData(), "page2", "revenue", "brokerage")
    ensures Names3(DefaultData(), "page2", "revenue", "total")
    ensures Names3(DefaultData(), "page2", "revenue", "monthlySales")
    ensures Names3(DefaultData(), "page2", "revenue", "weeklySales")
    ensures Names3(DefaultData(), "page2", "revenue", "dailySales")
    ensures Names3(DefaultData(), "page2", "revenue", "dealsPerAgent")
  {
  }

  /** Page 3: listing price, active agents and market status. */
  lemma Page3Status()
    ensures Names2(DefaultData(), "page3", "averageListingPrice")
    ensures Names2(DefaultData(), "page3", "activeAgents")
    ensures Names3(DefaultData(), "page3", "marketStatus", "closed")
    ensures Names3(DefaultData(), "page3", "marketStatus", "pending")
    ensures Names3(DefaultData(), "page3", "marketStatus", "active")
    ensures Names3(DefaultData(), "page3", "marketStatus", "median")
    ensures Names3(DefaultData(), "page3", "marketStatus", "grossCommission")
  {
  }

  /** Page 3: the deal-type cards. */
  lemma Page3Deals()
    ensures Names3(DefaultData(), "page3", "dealTypes", "multiAgentSeller")
    ensures Names3(DefaultData(), "page3", "dealTypes", "multiAgentBuyer")
    ensures Names3(DefaultData(), "page3", "dealTypes", "dual")
    ensures Names3(DefaultData(), "page3", "dealTypes", "singleAgentSeller")
    ensures Names3(DefaultData(), "page3", "dealTypes", "singleAgentBuyer")
  {
  }
}
