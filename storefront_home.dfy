/** The storefront home page: category and search filtering of the product
    lists, pages of eight products, the three-slide banner and the wishlist
    heart on each product card. */
module StorefrontHome {
  import opened Common

  const ProductsPerPage := 8
  const BannerCount := 3
  const AllCategory := "All"
  const LoginPath := "/login"

  /** A product as the page uses it: its id and display name. */
  datatype Item = Item(id: int, name: string)

  /** `toLowerCase` on the ASCII letters. */
  function LowerChar(c: char): (r: char)
    ensures 'A' <= c <= 'Z' ==> r as int == c as int + 32
    ensures !('A' <= c <= 'Z') ==> r == c
  {
    if 'A' <= c <= 'Z' then (c as int + 32) as char else c
  }

  function Lower(s: string): (r: string)
    ensures |r| == |s|
    ensures forall i :: 0 <= i < |s| ==> r[i] == LowerChar(s[i])
  {
    seq(|s|, i requires 0 <= i < |s| => LowerChar(s[i]))
  }

  /** `t` occurs in `s` starting at position `i`. */
  predicate OccursAt(s: string, t: string, i: int)
  {
    0 <= i <= |s| - |t| && s[i..i + |t|] == t
  }

  /** `s.includes(t)`: `t` occurs in `s` as a contiguous block. */
  function Contains(s: string, t: string): (r: bool)
    ensures r <==> exists i :: OccursAt(s, t, i)
    decreases |s|
  {
    if |t| <= |s| && s[..|t|] == t then
      assert OccursAt(s, t, 0);
      true
    else if s == [] then false
    else
      var r := Contains(s[1..], t);
      assert r ==> exists i :: OccursAt(s, t, i) by {
        if r {
          var k :| OccursAt(s[1..], t, k);
          assert s[k + 1..k + 1 + |t|] == s[1..][k..k + |t|];
          assert OccursAt(s, t, k + 1);
        }
      }
      assert (exists i :: OccursAt(s, t, i)) ==> r by {
        if exists i :: OccursAt(s, t, i) {
          var k :| OccursAt(s, t, k);
          assert k != 0;
          assert s[1..][k - 1..k - 1 + |t|] == s[k..k + |t|];
          assert OccursAt(s[1..], t, k - 1);
        }
      }
      r
  }

  /** The search test: the lower-cased name contains the lower-cased query. */
  predicate Matches(item: Item, query: string)
  {
    Contains(Lower(item.name), Lower(query))
  }

  /** `filteredProducts`: the items of the active category's list (an empty
      list when the category has none) whose name matches the query, in
      list order. */
  function FilteredProducts(catalogue: map<string, seq<Item>>, category: string, query: string): (r: seq<Item>)
    ensures category !in catalogue ==> r == []
    ensures category in catalogue ==>
              (forall i :: 0 <= i < |r| ==> r[i] in catalogue[category] && Matches(r[i], query))
              && (forall i :: 0 <= i < |catalogue[category]| && Matches(catalogue[category][i], query)
                    ==> catalogue[category][i] in r)
  {
    var list := if category in catalogue then catalogue[category] else [];
    Filter(list, (item: Item) => Matches(item, query))
  }

  /** The filtered list keeps the category's order, and an empty query keeps
      the whole list. */
  lemma FilteredProductsProperties(catalogue: map<string, seq<Item>>, category: string, query: string)
    requires category in catalogue
    ensures IsSubsequence(FilteredProducts(catalogue, category, query), catalogue[category])
    ensures query == "" ==> FilteredProducts(catalogue, category, query) == catalogue[category]
  {
    var keep := (item: Item) => Matches(item, query);
    FilterIsSubsequence(catalogue[category], keep);
    if query == "" {
      forall i | 0 <= i < |catalogue[category]|
        ensures keep(catalogue[category][i])
      {
        var name := Lower(catalogue[category][i].name);
        assert OccursAt(name, Lower(query), 0);
      }
      FilterKeepsAll(catalogue[category], keep);
    }
  }

  /** `Math.ceil(n / 8)`. */
  function TotalPages(n: nat): (pages: nat)
    ensures pages * ProductsPerPage >= n
    ensures pages > 0 ==> (pages - 1) * ProductsPerPage < n
    ensures pages == 0 <==> n == 0
  {
    (n + ProductsPerPage - 1) / ProductsPerPage
  }

  /** JavaScript's `s.slice(start, end)`: negative positions count from the
      end, positions are clamped to the list, and an empty range gives []. */
  function JsSlice<T>(s: seq<T>, start: int, end: int): (r: seq<T>)
    ensures 0 <= start <= end <= |s| ==> r == s[start..end]
    ensures 0 <= end <= start ==> r == []
    ensures 0 <= start <= |s| && |s| <= end ==> r == s[start..]
    ensures |s| <= start ==> r == []
  {
    var from := if start < 0 then (if |s| + start < 0 then 0 else |s| + start)
                else if start > |s| then |s| else start;
    var to := if end < 0 then (if |s| + end < 0 then 0 else |s| + end)
              else if end > |s| then |s| else end;
    if from < to then s[from..to] else []
  }

  /** `currentProducts`: page `p` is the slice [(p-1)*8, p*8). */
  function Page<T>(s: seq<T>, p: int): (r: seq<T>)
    ensures p >= 1 ==> |r| <= ProductsPerPage
    ensures p >= 1 && (p - 1) * ProductsPerPage < |s| ==> r != []
    ensures p >= 1 && |s| <= (p - 1) * ProductsPerPage ==> r == []
  {
    JsSlice(s, p * ProductsPerPage - ProductsPerPage, p * ProductsPerPage)
  }

  /** Pages 1 to k laid end to end. */
  function PagesUpTo<T>(s: seq<T>, k: nat): seq<T>
    decreases k
  {
    if k == 0 then [] else PagesUpTo(s, k - 1) + Page(s, k)
  }

  lemma {:induction false} PagesUpToIsPrefix<T>(s: seq<T>, k: nat)
    ensures k * ProductsPerPage <= |s| ==> PagesUpTo(s, k) == s[..k * ProductsPerPage]
    ensures k * ProductsPerPage > |s| ==> PagesUpTo(s, k) == s
    decreases k
  {
    if k > 0 {
      PagesUpToIsPrefix(s, k - 1);
      var lo := (k - 1) * ProductsPerPage;
      if k * ProductsPerPage <= |s| {
        assert s[..k * ProductsPerPage] == s[..lo] + s[lo..k * ProductsPerPage];
      } else if lo <= |s| {
        assert s == s[..lo] + s[lo..];
      }
    }
  }

  /** Pages 1 to `TotalPages` reproduce the filtered list exactly, each page
      holding at most eight products. */
  lemma PagesCoverList<T>(s: seq<T>)
    ensures PagesUpTo(s, TotalPages(|s|)) == s
    ensures forall p :: 1 <= p <= TotalPages(|s|) ==> 1 <= |Page(s, p)| <= ProductsPerPage
  {
    PagesUpToIsPrefix(s, TotalPages(|s|));
  }

  /** The page buttons: none unless there are at least two pages, then one
      numbered button per page. */
  function PageButtons(totalPages: nat): (buttons: seq<int>)
    ensures totalPages <= 1 ==> buttons == []
    ensures totalPages > 1 ==> |buttons| == totalPages
    ensures forall i :: 0 <= i < |buttons| ==> buttons[i] == i + 1
  {
    if totalPages > 1 then seq(totalPages, i => i + 1) else []
  }

  /** `isInWishlist`: some wishlist item has that name. */
  predicate InWishlist(wishlist: seq<Item>, name: string)
  {
    exists i :: 0 <= i < |wishlist| && wishlist[i].name == name
  }

  /** The wishlist after a logged-in click on the heart of `item`: its name
      is removed when present, otherwise the item is added. The store's
      reducers are not part of this model: adding is taken to append, and
      removing to drop every item with that name. */
  function ToggleWishlist(wishlist: seq<Item>, item: Item): (r: seq<Item>)
    ensures InWishlist(wishlist, item.name) ==>
              && !InWishlist(r, item.name)
              && IsSubsequence(r, wishlist)
              && forall i :: 0 <= i < |wishlist| && wishlist[i].name != item.name ==> wishlist[i] in r
    ensures !InWishlist(wishlist, item.name) ==> r == wishlist + [item] && InWishlist(r, item.name)
  {
    if InWishlist(wishlist, item.name) then
      var keep := (w: Item) => w.name != item.name;
      FilterIsSubsequence(wishlist, keep);
      Filter(wishlist, keep)
    else
      assert (wishlist + [item])[|wishlist|] == item;
      wishlist + [item]
  }

  /** Two clicks on an item whose name is not in the wishlist leave the
      wishlist as it was. */
  lemma ToggleTwiceRestores(wishlist: seq<Item>, item: Item)
    requires !InWishlist(wishlist, item.name)
    ensures ToggleWishlist(ToggleWishlist(wishlist, item), item) == wishlist
  {
    var keep := (w: Item) => w.name != item.name;
    FilterAppend(wishlist, [item], keep);
    FilterKeepsAll(wishlist, keep);
    assert Filter([item], keep) == [];
  }

  /** A filtered list of at most eight products seen from page two or
      later: the page is empty, no page buttons are shown, and the
      "no products" message is not shown either, since the list is not
      empty. */
  lemma StalePageIsBlank(s: seq<Item>, page: int)
    requires 1 <= |s| <= ProductsPerPage && page >= 2
    ensures Page(s, page) == [] && PageButtons(TotalPages(|s|)) == []
    ensures Page(s, 1) == s
  {
  }

  /** Page one of a non-empty list shows its first products. */
  lemma FirstPageShowsResults(s: seq<Item>)
    requires s != []
    ensures Page(s, 1) != [] && Page(s, 1) == s[..if |s| < ProductsPerPage then |s| else ProductsPerPage]
  {
  }

  class HomePage {
    /** The store's product lists by category id; a category whose list is
        undefined has no entry. */
    var catalogue: map<string, seq<Item>>
    /** The store's wishlist. */
    var wishlist: seq<Item>
    var activeCategory: string
    var searchQuery: string
    var currentBanner: int
    var currentPage: int
    var location: Option<string>

    /** The banner index stays in range and the page number is positive. */
    predicate Valid()
      reads this
    {
      0 <= currentBanner < BannerCount && currentPage >= 1
    }

    constructor (urlQuery: string, catalogue: map<string, seq<Item>>, wishlist: seq<Item>)
      ensures Valid()
      ensures this.catalogue == catalogue && this.wishlist == wishlist
      ensures activeCategory == "All" && searchQuery == urlQuery
      ensures currentBanner == 0 && currentPage == 1 && location.None?
    {
      this.catalogue := catalogue;
      this.wishlist := wishlist;
      activeCategory := AllCategory;
      searchQuery := urlQuery;
      currentBanner := 0;
      currentPage := 1;
      location := None;
    }

    /** The products on the current page. */
    function CurrentProducts(): seq<Item>
      reads this
    {
      Page(FilteredProducts(catalogue, activeCategory, searchQuery), currentPage)
    }

    /** A category button: switch category and go back to page one. */
    method SelectCategory(category: string)
      requires Valid()
      modifies this
      ensures Valid()
      ensures activeCategory == category && currentPage == 1
      ensures searchQuery == old(searchQuery) && currentBanner == old(currentBanner)
      ensures catalogue == old(catalogue) && wishlist == old(wishlist) && location == old(location)
    {
      activeCategory := category;
      currentPage := 1;
    }

    /** `paginate`, as the page buttons call it (with a button's number). */
    method Paginate(pageNumber: int)
      requires Valid() && 1 <= pageNumber <= TotalPages(|FilteredProducts(catalogue, activeCategory, searchQuery)|)
      modifies this
      ensures Valid() && currentPage == pageNumber
      ensures 1 <= |CurrentProducts()| <= ProductsPerPage
      ensures activeCategory == old(activeCategory) && searchQuery == old(searchQuery)
      ensures currentBanner == old(currentBanner) && catalogue == old(catalogue)
      ensures wishlist == old(wishlist) && location == old(location)
    {
      currentPage := pageNumber;
      PagesCoverList(FilteredProducts(catalogue, activeCategory, searchQuery));
    }

    /** The right arrow and the six-second timer. */
    method ShowNextBanner()
      requires Valid()
      modifies this
      ensures Valid() && currentBanner == RotateNext(old(currentBanner), BannerCount)
      ensures currentPage == old(currentPage) && activeCategory == old(activeCategory)
      ensures searchQuery == old(searchQuery) && catalogue == old(catalogue)
      ensures wishlist == old(wishlist) && location == old(location)
    {
      RotationInverse(currentBanner, BannerCount);
      currentBanner := RotateNext(currentBanner, BannerCount);
    }

    /** The left arrow. */
    method ShowPrevBanner()
      requires Valid()
      modifies this
      ensures Valid() && currentBanner == RotatePrev(old(currentBanner), BannerCount)
      ensures currentPage == old(currentPage) && activeCategory == old(activeCategory)
      ensures searchQuery == old(searchQuery) && catalogue == old(catalogue)
      ensures wishlist == old(wishlist) && location == old(location)
    {
      RotationInverse(currentBanner, BannerCount);
      currentBanner := RotatePrev(currentBanner, BannerCount);
    }

    /** The effect that copies the URL's `search` parameter into the query,
        as written: the page number is kept, so a narrower search seen from
        a later page can show an empty grid (see `StalePageIsBlank`). */
    method ApplyUrlSearchAsWritten(urlQuery: string)
      requires Valid()
      modifies this
      ensures Valid() && searchQuery == urlQuery && currentPage == old(currentPage)
      ensures activeCategory == old(activeCategory) && currentBanner == old(currentBanner)
      ensures catalogue == old(catalogue) && wishlist == old(wishlist) && location == old(location)
    {
      searchQuery := urlQuery;
    }

    /** The same effect going back to page one, as a category change does:
        any search with results then shows them. */
    method ApplyUrlSearch(urlQuery: string)
      requires Valid()
      modifies this
      ensures Valid() && searchQuery == urlQuery && currentPage == 1
      ensures FilteredProducts(catalogue, activeCategory, searchQuery) != [] ==> CurrentProducts() != []
      ensures activeCategory == old(activeCategory) && currentBanner == old(currentBanner)
      ensures catalogue == old(catalogue) && wishlist == old(wishlist) && location == old(location)
    {
      searchQuery := urlQuery;
      currentPage := 1;
    }

    /** `handleWishlistClick`: without an access token nothing is
        dispatched and the page goes to the login page; otherwise the
        wishlist is toggled by name. */
    method WishlistClick(item: Item, hasToken: bool)
      modifies this
      ensures wishlist == if hasToken then ToggleWishlist(old(wishlist), item) else old(wishlist)
      ensures location == if hasToken then old(location) else Some("/login")
      ensures catalogue == old(catalogue) && activeCategory == old(activeCategory)
      ensures searchQuery == old(searchQuery) && currentBanner == old(currentBanner)
      ensures currentPage == old(currentPage)
    {
      if !hasToken {
        location := Some(LoginPath);
        return;
      }
      wishlist := ToggleWishlist(wishlist, item);
    }
  }
}
