/** The catalogue grid (ProductGrid.jsx): the list request built from the
    sort and category controls, the search with its blank fallback, and
    the load-more rule. A request is the ordered list of query-string
    parameters it carries. */
module Grid {
  import opened Util
  import opened Text
  import opened Shapes
  import opened Card
  import Catalog
  import Search

  /** `sortBy` to the `ordering` parameter. */
  function Ordering(sortBy: string): (r: string)
    ensures sortBy == "price_asc" ==> r == "base_price"
    ensures sortBy == "price_desc" ==> r == "-base_price"
    ensures sortBy != "price_asc" && sortBy != "price_desc" ==> r == "-created_at"
  {
    if sortBy == "price_asc" then "base_price"
    else if sortBy == "price_desc" then "-base_price"
    else "-created_at"
  }

  /** The name sort and the default both come back newest first: the
      `name` choice is never sent. */
  lemma NameSortIsNewestFirst()
    ensures Ordering("name") == Ordering("created_at") == "-created_at"
  {
  }

  type Params = seq<(string, string)>

  /** The `params` object of `loadProducts`, in insertion order. */
  function LoadParams(sortBy: string, selectedCategory: string): (r: Params)
    ensures |r| >= 1 && r[0] == ("ordering", Ordering(sortBy))
    ensures |r| == 2 <==> selectedCategory != ""
    ensures |r| <= 2
    ensures |r| == 2 ==> r[1] == ("category", selectedCategory)
  {
    var params := [("ordering", Ordering(sortBy))];
    if selectedCategory != "" then params + [("category", selectedCategory)] else params
  }

  /** The parameters of `searchProducts(searchQuery, {category: selectedCategory})`. */
  function SearchParamsOf(searchQuery: string, selectedCategory: string): Params {
    [("q", searchQuery), ("category", selectedCategory)]
  }

  /** A request the grid sends. */
  datatype Request = GetProducts(params: Params) | SearchProducts(params: Params)

  /** `getProducts`'s answer: a paginated body or a bare list. */
  datatype ProductsResponse = Page(results: seq<CardProduct>) | Plain(items: seq<CardProduct>)

  /** `data.results || data`. */
  function ListOf(r: ProductsResponse): seq<CardProduct> {
    match r
    case Page(results) => results
    case Plain(items) => items
  }

  /** A category option of the select: its value is the category's id. */
  datatype CategoryOption = CategoryOption(id: nat, name: string, slug: string)

  /** The Load-more button. */
  predicate ShowLoadMore(count: int) {
    count > 0 && count % 12 == 0
  }

  /** The button shows exactly for a positive multiple of twelve products. */
  lemma ShowLoadMoreIff(count: nat)
    ensures ShowLoadMore(count) <==> exists k: nat :: k >= 1 && count == 12 * k
  {
    if ShowLoadMore(count) {
      var k: nat := count / 12;
      assert count == 12 * k;
    }
  }

  class ProductGrid {
    var products: seq<CardProduct>
    var categories: seq<CategoryOption>
    var loading: bool
    var selectedCategory: string
    var searchQuery: string
    var sortBy: string

    constructor ()
      ensures products == [] && categories == [] && loading
      ensures selectedCategory == "" && searchQuery == "" && sortBy == "created_at"
    {
      products := [];
      categories := [];
      loading := true;
      selectedCategory := "";
      searchQuery := "";
      sortBy := "created_at";
    }

    /** `loadProducts` once `getProducts` has settled: the answer's list, or
        none on error; loading ends either way. */
    method LoadProducts(response: ApiResult<ProductsResponse>) returns (request: Request)
      modifies this
      ensures request == GetProducts(LoadParams(sortBy, selectedCategory))
      ensures products == (if response.Success? then ListOf(response.body) else [])
      ensures !loading
      ensures categories == old(categories) && selectedCategory == old(selectedCategory)
      ensures searchQuery == old(searchQuery) && sortBy == old(sortBy)
    {
      loading := true;
      var params := [("ordering", Ordering(sortBy))];
      if selectedCategory != "" {
        params := params + [("category", selectedCategory)];
      }
      request := GetProducts(params);
      match response {
        case Success(body) => products := ListOf(body);
        case Failure(_) => products := [];
      }
      loading := false;
    }

    /** `loadCategories` once `getCategories` has settled. */
    method LoadCategories(response: ApiResult<seq<CategoryOption>>)
      modifies this
      ensures categories == (if response.Success? then response.body else [])
      ensures products == old(products) && loading == old(loading) && selectedCategory == old(selectedCategory)
      ensures searchQuery == old(searchQuery) && sortBy == old(sortBy)
    {
      match response {
        case Success(body) => categories := body;
        case Failure(_) => categories := [];
      }
    }

    /** The category select, then the effect that reloads products and categories. */
    method SelectCategory(value: string, productsResponse: ApiResult<ProductsResponse>,
                          categoriesResponse: ApiResult<seq<CategoryOption>>) returns (request: Request)
      modifies this
      ensures selectedCategory == value && sortBy == old(sortBy) && searchQuery == old(searchQuery)
      ensures request == GetProducts(LoadParams(old(sortBy), value))
      ensures products == (if productsResponse.Success? then ListOf(productsResponse.body) else [])
      ensures categories == (if categoriesResponse.Success? then categoriesResponse.body else [])
      ensures !loading
    {
      selectedCategory := value;
      request := LoadProducts(productsResponse);
      LoadCategories(categoriesResponse);
    }

    /** The sort select, then the same effect. */
    method SelectSort(value: string, productsResponse: ApiResult<ProductsResponse>,
                      categoriesResponse: ApiResult<seq<CategoryOption>>) returns (request: Request)
      modifies this
      ensures sortBy == value && selectedCategory == old(selectedCategory) && searchQuery == old(searchQuery)
      ensures request == GetProducts(LoadParams(value, old(selectedCategory)))
      ensures products == (if productsResponse.Success? then ListOf(productsResponse.body) else [])
      ensures categories == (if categoriesResponse.Success? then categoriesResponse.body else [])
      ensures !loading
    {
      sortBy := value;
      request := LoadProducts(productsResponse);
      LoadCategories(categoriesResponse);
    }

    /** `handleSearch`: a query that is blank once trimmed reloads the list
        (answered by `listResponse`); any other query is sent as typed,
        untrimmed, with the selected category (answered by `searchResponse`). */
    method HandleSearch(listResponse: ApiResult<ProductsResponse>, searchResponse: ApiResult<seq<CardProduct>>)
      returns (request: Request)
      modifies this
      ensures IsBlank(searchQuery) ==>
        request == GetProducts(LoadParams(sortBy, selectedCategory))
        && products == (if listResponse.Success? then ListOf(listResponse.body) else [])
      ensures !IsBlank(searchQuery) ==>
        request == SearchProducts(SearchParamsOf(searchQuery, selectedCategory))
        && products == (if searchResponse.Success? then searchResponse.body else [])
      ensures !loading
      ensures categories == old(categories) && selectedCategory == old(selectedCategory)
      ensures searchQuery == old(searchQuery) && sortBy == old(sortBy)
    {
      if Trim(searchQuery) == "" {
        BlankIffTrimEmpty(searchQuery);
        request := LoadProducts(listResponse);
        return;
      }
      BlankIffTrimEmpty(searchQuery);
      loading := true;
      request := SearchProducts([("q", searchQuery), ("category", selectedCategory)]);
      match searchResponse {
        case Success(body) => products := body;
        case Failure(_) => products := [];
      }
      loading := false;
    }
  }

  /** The back end's reading of a search request: the `q` and `category`
      parameters, with no price bounds. */
  function SearchRequestParams(searchQuery: string, selectedCategory: string): Search.SearchParams {
    Search.SearchParams(searchQuery, selectedCategory, "", "")
  }

  /** The grid's category value is a category id, while `search_products`
      compares it with category slugs: when no stored product's category
      has that text as its slug, a search with a category selected finds
      nothing, whatever the query. */
  lemma SearchWithCategoryIdFindsNothing(all: seq<Catalog.Product>, searchQuery: string, selected: CategoryOption,
                                         lower: string -> string, parse: string -> Option<real>)
    requires forall i :: 0 <= i < |all| ==> all[i].category.slug != NatToString(selected.id)
    ensures Search.SearchProducts(all, SearchRequestParams(searchQuery, NatToString(selected.id)), lower, parse) == []
  {
    var ps := SearchRequestParams(searchQuery, NatToString(selected.id));
    var r := Search.SearchProducts(all, ps, lower, parse);
    if r != [] {
      Search.SearchMembership(all, ps, lower, parse, r[0]);
      assert false;
    }
  }

  /** With no category selected the category parameter is sent empty, and
      the back end then applies no category filter. */
  lemma SearchWithoutCategory(all: seq<Catalog.Product>, searchQuery: string, lower: string -> string,
                              parse: string -> Option<real>, p: Catalog.Product)
    ensures SearchParamsOf(searchQuery, "")[1] == ("category", "")
    ensures p in Search.SearchProducts(all, SearchRequestParams(searchQuery, ""), lower, parse) <==>
      p in all && p.isActive && (searchQuery == "" || Search.TextMatches(lower, p, searchQuery))
  {
    Search.SearchMembership(all, SearchRequestParams(searchQuery, ""), lower, parse, p);
  }
}
