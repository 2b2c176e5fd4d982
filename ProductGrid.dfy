/** The product grid of the cashier screen: the category tabs, the search filter,
    the stock label of each card, the combo profit line and the barcode lookup. */
module ProductGrid {
  import opened Base
  import opened Text
  import opened DataContext
  import CashierPOS

  /** `[...new Set(xs)]`: each value once, where it first appears. */
  function Dedup(xs: seq<string>): (r: seq<string>)
    ensures forall i, j :: 0 <= i < j < |r| ==> r[i] != r[j]
    ensures forall x :: x in r <==> x in xs
    ensures |r| <= |xs|
  {
    if xs == [] then []
    else
      var d := Dedup(xs[..|xs| - 1]);
      var last := xs[|xs| - 1];
      assert forall x :: x in xs <==> x in xs[..|xs| - 1] || x == last by {
        assert xs == xs[..|xs| - 1] + [last];
      }
      if last in d then d else d + [last]
  }

  /** The distinct values of a prefix come first, in the same order: the order of
      the result is the order of first appearance. */
  lemma {:induction false} DedupPrefix(xs: seq<string>, k: nat)
    requires k <= |xs|
    ensures Dedup(xs[..k]) <= Dedup(xs)
    decreases |xs| - k
  {
    if k < |xs| {
      DedupPrefix(xs, k + 1);
      assert xs[..k + 1][..k] == xs[..k];
    } else {
      assert xs[..k] == xs;
    }
  }

  function Categories(ps: seq<Product>): seq<string>
  {
    seq(|ps|, i requires 0 <= i < |ps| => ps[i].category)
  }

  /** The category tabs: 'All', then every product category once, in the order the
      categories first appear. A product category named 'All' would show twice. */
  function CategoryTabs(ps: seq<Product>): (r: seq<string>)
    ensures |r| >= 1 && r[0] == "All"
    ensures forall c :: c in r[1..] <==> exists p :: p in ps && p.category == c
    ensures forall i, j :: 1 <= i < j < |r| ==> r[i] != r[j]
  {
    var cats := Categories(ps);
    assert forall c :: c in cats <==> exists p :: p in ps && p.category == c by {
      forall c | c in cats ensures exists p :: p in ps && p.category == c {
        var i :| 0 <= i < |cats| && cats[i] == c;
        assert ps[i] in ps;
      }
      forall c | exists p :: p in ps && p.category == c ensures c in cats {
        var p :| p in ps && p.category == c;
        var i :| 0 <= i < |ps| && ps[i] == p;
        assert cats[i] == c;
      }
    }
    var r := ["All"] + Dedup(cats);
    assert r[1..] == Dedup(cats);
    r
  }

  /** A product's place in the filtered grid: its name contains the search term,
      both lower-cased, and it is in the selected category or 'All' is selected. */
  predicate Matches(p: Product, term: string, category: string)
  {
    Contains(Lower(p.name), Lower(term)) && (category == "All" || p.category == category)
  }

  function MatchesFor(term: string, category: string): Product -> bool
  {
    (p: Product) => Matches(p, term, category)
  }

  /** `filteredProducts`: the matching products in their order. */
  function FilteredProducts(ps: seq<Product>, term: string, category: string): (r: seq<Product>)
    ensures forall p :: p in r <==> p in ps && Matches(p, term, category)
  {
    FilterMembers(ps, MatchesFor(term, category));
    Filter(ps, MatchesFor(term, category))
  }

  /** With no search term and 'All' selected the grid shows every product. */
  lemma EmptySearchKeepsAll(ps: seq<Product>)
    ensures FilteredProducts(ps, "", "All") == ps
  {
    forall p | p in ps ensures MatchesFor("", "All")(p) {
      ContainsEmpty(Lower(p.name));
    }
    FilterAll(ps, MatchesFor("", "All"));
  }

  datatype StockLabel = LowStockLabel | LowLabel | InStockLabel

  /** `getStockStatus` */
  function StockStatus(stock: int): (r: StockLabel)
    ensures r == LowStockLabel <==> stock <= 5
    ensures r == LowLabel <==> 5 < stock <= 10
    ensures r == InStockLabel <==> stock > 10
  {
    if stock <= 5 then LowStockLabel else if stock <= 10 then LowLabel else InStockLabel
  }

  function StockText(status: StockLabel): string
  {
    match status
    case LowStockLabel => "LOW STOCK"
    case LowLabel => "LOW"
    case InStockLabel => "IN STOCK"
  }

  /** The profit line shown on combo cards only: price less the product's cost. */
  function ComboCardProfit(p: Product): (r: Option<int>)
    ensures r.Some? <==> p.category == "Combo"
    ensures r.Some? ==> r.value + p.cost == p.price
  {
    if p.category == "Combo" then Some(p.price - p.cost) else None
  }

  /** A scanned code names a product by its id or by a piece of its name, in any case. */
  predicate ScanMatches(p: Product, input: string)
  {
    IntToString(p.id) == input || Contains(Lower(p.name), Lower(input))
  }

  function ScanMatchesFor(input: string): Product -> bool
  {
    (p: Product) => ScanMatches(p, input)
  }

  /** The barcode lookup: the first product the input names. */
  function BarcodeLookup(ps: seq<Product>, input: string): (r: Option<Product>)
    ensures r.Some? <==> exists j :: 0 <= j < |ps| && ScanMatches(ps[j], input)
    ensures r.Some? ==> var i := FirstIndex(ps, ScanMatchesFor(input));
      r.value == ps[i] && forall j :: 0 <= j < i ==> !ScanMatches(ps[j], input)
  {
    Find(ps, ScanMatchesFor(input))
  }

  /** Typing a product's id always finds a product: that one, or an earlier one whose
      id or name the same text matches. */
  lemma ScanById(ps: seq<Product>, j: int)
    requires 0 <= j < |ps|
    ensures BarcodeLookup(ps, IntToString(ps[j].id)).Some?
    ensures FirstIndex(ps, ScanMatchesFor(IntToString(ps[j].id))) <= j
  {
    assert ScanMatchesFor(IntToString(ps[j].id))(ps[j]);
  }

  class ProductGridState {
    var searchTerm: string
    var selectedCategory: string
    var barcodeMode: bool
    var barcodeInput: string

    constructor ()
      ensures searchTerm == "" && selectedCategory == "All" && !barcodeMode && barcodeInput == ""
    {
      searchTerm, selectedCategory, barcodeMode, barcodeInput := "", "All", false, "";
    }

    /** The barcode effect once its half-second timer fires: in barcode mode, with
        something typed, the first product the input names goes to the cart through
        the screen's add handler and the input is cleared; when nothing matches, the
        input stays. */
    method ScanTimerFired(store: DataStore, screen: CashierPOS.CashierScreen, now: int)
      requires store.Valid()
      modifies this`barcodeInput, store`cart, store`notifications
      ensures store.Valid()
      ensures var found := BarcodeLookup(old(store.products), old(barcodeInput));
        if barcodeMode && |old(barcodeInput)| > 0 && found.Some? then
          barcodeInput == ""
          && (found.value.stock > 0 ==>
                store.cart == AddToCartItems(old(store.cart), found.value, 1)
                && store.notifications == old(store.notifications))
          && (found.value.stock <= 0 ==>
                store.cart == old(store.cart)
                && store.notifications == old(store.notifications)
                     + [Notification(now, "warning", found.value.name + " is out of stock", false)])
        else
          barcodeInput == old(barcodeInput) && store.cart == old(store.cart)
          && store.notifications == old(store.notifications)
    {
      if barcodeMode && |barcodeInput| > 0 {
        var found := BarcodeLookup(store.products, barcodeInput);
        if found.Some? {
          screen.HandleAddToCart(store, found.value, now);
          barcodeInput := "";
        }
      }
    }
  }
}
