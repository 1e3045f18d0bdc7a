/**
 * The product slice (src/store/slices/productSlice.ts): the loaded catalogue,
 * the part of it on show, the selected category and the loading flags. The
 * list on show is always drawn from the catalogue, in catalogue order.
 */
module ProductSlice {
  import opened Wrappers
  import opened Seqs
  import opened Text
  import opened ShopProducts

  /** The category that stands for "no filter". */
  const AllCategories := "All"

  /** `setSelectedCategory`'s list: the whole catalogue for "All", else the products of that category. */
  function InCategory(products: seq<ShopProduct>, category: string): (r: seq<ShopProduct>)
    ensures category == AllCategories ==> r == products
    ensures category != AllCategories ==>
      && (forall i :: 0 <= i < |r| ==> r[i] in products && r[i].category == category)
      && (forall i :: 0 <= i < |products| && products[i].category == category ==> products[i] in r)
  {
    if category == AllCategories then products
    else Filter(products, (p: ShopProduct) => p.category == category)
  }

  /** A product matches a lower-cased term when its lower-cased name or category contains it. */
  predicate MatchesTerm(p: ShopProduct, term: string)
  {
    Contains(ToLower(p.name), term) || Contains(ToLower(p.category), term)
  }

  /** `searchProducts`' list: the whole catalogue for an empty term, else the matching products. */
  function Searched(products: seq<ShopProduct>, query: string): (r: seq<ShopProduct>)
    ensures query == "" ==> r == products
    ensures query != "" ==>
      && (forall i :: 0 <= i < |r| ==> r[i] in products && MatchesTerm(r[i], ToLower(query)))
      && (forall i :: 0 <= i < |products| && MatchesTerm(products[i], ToLower(query)) ==> products[i] in r)
  {
    var term := ToLower(query);
    if term == "" then products
    else Filter(products, (p: ShopProduct) => MatchesTerm(p, term))
  }

  /** Both lists on show keep the catalogue's order and invent nothing. */
  lemma ShownIsDrawnFromCatalogue(products: seq<ShopProduct>, category: string, query: string)
    ensures IsSubsequence(InCategory(products, category), products)
    ensures IsSubsequence(Searched(products, query), products)
  {
    SubsequenceReflexive(products);
    FilterIsSubsequence(products, (p: ShopProduct) => p.category == category);
    var term := ToLower(query);
    FilterIsSubsequence(products, (p: ShopProduct) => MatchesTerm(p, term));
  }

  /**
   * Searching ignores the selected category: typing a category's own name
   * (in any case) finds at least every product of that category.
   */
  lemma SearchByCategoryNameCoversCategory(products: seq<ShopProduct>, category: string)
    requires category != "" && category != AllCategories
    ensures forall i :: 0 <= i < |InCategory(products, category)| ==>
      InCategory(products, category)[i] in Searched(products, category)
  {
    var r := InCategory(products, category);
    forall i | 0 <= i < |r|
      ensures r[i] in Searched(products, category)
    {
      var p := r[i];
      var j :| 0 <= j < |products| && products[j] == p;
      var t := ToLower(category);
      assert StartsWith(ToLower(p.category), t);
      assert MatchesTerm(products[j], t);
    }
  }

  /** The product state. */
  class ProductState {
    var products: seq<ShopProduct>
    var filteredProducts: seq<ShopProduct>
    var selectedCategory: string
    var isLoading: bool
    var error: Option<string>

    ghost predicate Valid()
      reads this
    {
      IsSubsequence(filteredProducts, products)
    }

    /** The initial state: nothing loaded, every category selected. */
    constructor()
      ensures Valid()
      ensures products == [] && filteredProducts == [] && selectedCategory == AllCategories
      ensures !isLoading && error == None
    {
      products := [];
      filteredProducts := [];
      selectedCategory := AllCategories;
      isLoading := false;
      error := None;
    }

    /** A new catalogue is shown whole; the selected category stays as it was. */
    method SetProducts(payload: seq<ShopProduct>)
      modifies this
      ensures Valid()
      ensures products == payload && filteredProducts == payload
      ensures selectedCategory == old(selectedCategory) && isLoading == old(isLoading) && error == old(error)
    {
      SubsequenceReflexive(payload);
      products := payload;
      filteredProducts := payload;
    }

    method SetSelectedCategory(category: string)
      modifies this
      ensures Valid()
      ensures selectedCategory == category && filteredProducts == InCategory(products, category)
      ensures products == old(products) && isLoading == old(isLoading) && error == old(error)
    {
      ShownIsDrawnFromCatalogue(products, category, "");
      selectedCategory := category;
      if category == AllCategories {
        filteredProducts := products;
      } else {
        filteredProducts := Filter(products, (p: ShopProduct) => p.category == category);
      }
    }

    /** The search starts from the whole catalogue; the selected category is left as it was. */
    method SearchProducts(query: string)
      modifies this
      ensures Valid()
      ensures filteredProducts == Searched(products, query)
      ensures products == old(products) && selectedCategory == old(selectedCategory)
      ensures isLoading == old(isLoading) && error == old(error)
    {
      ShownIsDrawnFromCatalogue(products, AllCategories, query);
      var term := ToLower(query);
      if term == "" {
        filteredProducts := products;
      } else {
        filteredProducts := Filter(products, (p: ShopProduct) => MatchesTerm(p, term));
      }
    }

    method SetLoading(loading: bool)
      modifies this
      ensures isLoading == loading
      ensures products == old(products) && filteredProducts == old(filteredProducts)
      ensures selectedCategory == old(selectedCategory) && error == old(error)
    {
      isLoading := loading;
    }

    method SetError(e: Option<string>)
      modifies this
      ensures error == e
      ensures products == old(products) && filteredProducts == old(filteredProducts)
      ensures selectedCategory == old(selectedCategory) && isLoading == old(isLoading)
    {
      error := e;
    }

    method ClearError()
      modifies this
      ensures error == None
      ensures products == old(products) && filteredProducts == old(filteredProducts)
      ensures selectedCategory == old(selectedCategory) && isLoading == old(isLoading)
    {
      error := None;
    }
  }
}
