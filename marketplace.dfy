/** The Marketplace page: adding products, the purchase flow and the product filter.
    Product and order shapes are those the page's code reads and writes. */
module Marketplace {
  import opened Records
  import opened Text
  import Lists

  datatype Product = Product(
    id: string,
    name: string,
    description: string,
    price: int,
    category: string,
    image: string,
    seller: string)

  /** `Omit<Product, 'id'>`: what the sell form hands over. */
  datatype ProductDraft = ProductDraft(
    name: string,
    description: string,
    price: int,
    category: string,
    image: string,
    seller: string)

  datatype OrderStatus = Processing | Shipped

  datatype PaymentMethod = Card | Qr

  datatype Order = Order(
    id: string,
    productId: string,
    buyerId: string,
    sellerId: string,
    status: OrderStatus,
    createdAt: string,
    paymentMethod: Option<PaymentMethod>)

  function DraftOf(p: Product): ProductDraft
  {
    ProductDraft(p.name, p.description, p.price, p.category, p.image, p.seller)
  }

  /** `{ ...newProduct, id }`: the draft with an id attached. */
  function WithId(draft: ProductDraft, id: string): (p: Product)
    ensures DraftOf(p) == draft && p.id == id
  {
    Product(id, draft.name, draft.description, draft.price, draft.category, draft.image, draft.seller)
  }

  /** The order `handlePaymentComplete` records for the selected product; the id and
      the creation time come from the clock and are passed in. */
  function NewOrder(product: Product, paymentMethod: PaymentMethod, id: string, createdAt: string): (o: Order)
    ensures o.productId == product.id && o.sellerId == product.seller
    ensures o.status == Processing && o.paymentMethod == Some(paymentMethod)
    ensures o.buyerId == "currentUserId" && o.id == id && o.createdAt == createdAt
  {
    Order(id, product.id, "currentUserId", product.seller, Processing, createdAt, Some(paymentMethod))
  }

  /** The filter test: the name contains the term, ignoring case, and the category is
      the selected one unless "all" is selected. */
  predicate ProductMatches(p: Product, searchTerm: string, selectedCategory: string)
  {
    MatchesTerm(p.name, searchTerm) && (selectedCategory == "all" || p.category == selectedCategory)
  }

  /** `filteredProducts`: the matching products, in their original order. */
  function FilteredProducts(products: seq<Product>, searchTerm: string, selectedCategory: string): (r: seq<Product>)
    ensures Lists.IsSubsequence(r, products)
    ensures forall p :: p in r <==> p in products && ProductMatches(p, searchTerm, selectedCategory)
    ensures forall p :: p in products && ProductMatches(p, searchTerm, selectedCategory) ==>
      multiset(r)[p] == multiset(products)[p]
  {
    var r := Lists.Filter(products, (p: Product) => ProductMatches(p, searchTerm, selectedCategory));
    assert forall p :: p in products && ProductMatches(p, searchTerm, selectedCategory) ==> multiset(products)[p] > 0;
    r
  }

  /** With an empty search box and "all" selected, every product is shown. */
  lemma {:induction false} FilteredProductsShowAll(products: seq<Product>)
    ensures FilteredProducts(products, "", "all") == products
  {
    forall i | 0 <= i < |products| ensures ProductMatches(products[i], "", "all") {
      EmptyTermMatches(products[i].name);
    }
    Lists.FilterAll(products, (p: Product) => ProductMatches(p, "", "all"));
  }

  /** The state of the Marketplace page. */
  class MarketplacePage {
    var products: seq<Product>
    var orders: seq<Order>
    var searchTerm: string
    var selectedCategory: string
    var showPaymentModal: bool
    var selectedProduct: Option<Product>

    /** The payment dialog is rendered only while it is shown and a product is selected. */
    predicate PaymentDialogVisible()
      reads this
    {
      showPaymentModal && selectedProduct.Some?
    }

    constructor ()
      ensures products == [] && orders == []
      ensures searchTerm == "" && selectedCategory == "all"
      ensures !showPaymentModal && selectedProduct == None
    {
      products := [];
      orders := [];
      searchTerm := "";
      selectedCategory := "all";
      showPaymentModal := false;
      selectedProduct := None;
    }

    /** `handleAddProduct`: appends the draft with a fresh id; nothing else changes. */
    method AddProduct(draft: ProductDraft, id: string)
      modifies this
      ensures products == old(products) + [WithId(draft, id)]
      ensures orders == old(orders) && showPaymentModal == old(showPaymentModal)
      ensures selectedProduct == old(selectedProduct)
      ensures searchTerm == old(searchTerm) && selectedCategory == old(selectedCategory)
    {
      var productWithId := WithId(draft, id);
      products := products + [productWithId];
    }

    /** `handleBuyProduct`: selects the product and opens the payment dialog. */
    method BuyProduct(product: Product)
      modifies this
      ensures selectedProduct == Some(product) && showPaymentModal
      ensures PaymentDialogVisible()
      ensures products == old(products) && orders == old(orders)
      ensures searchTerm == old(searchTerm) && selectedCategory == old(selectedCategory)
    {
      selectedProduct := Some(product);
      showPaymentModal := true;
    }

    /** `handlePaymentComplete`: with a selected product, records one processing order
        for it, closes the dialog and clears the selection; without one, does nothing. */
    method PaymentComplete(paymentMethod: PaymentMethod, id: string, createdAt: string)
      modifies this
      ensures old(selectedProduct).None? ==>
        && orders == old(orders)
        && showPaymentModal == old(showPaymentModal)
        && selectedProduct == old(selectedProduct)
      ensures old(selectedProduct).Some? ==>
        && orders == old(orders) + [NewOrder(old(selectedProduct).value, paymentMethod, id, createdAt)]
        && !showPaymentModal
        && selectedProduct == None
      ensures !PaymentDialogVisible() && products == old(products)
      ensures searchTerm == old(searchTerm) && selectedCategory == old(selectedCategory)
    {
      if selectedProduct.Some? {
        var newOrder := NewOrder(selectedProduct.value, paymentMethod, id, createdAt);
        orders := orders + [newOrder];
        showPaymentModal := false;
        selectedProduct := None;
      }
    }

    /** The dialog's close button: hides the dialog and keeps the selection. */
    method ClosePaymentModal()
      modifies this
      ensures !showPaymentModal && !PaymentDialogVisible()
      ensures selectedProduct == old(selectedProduct)
      ensures products == old(products) && orders == old(orders)
      ensures searchTerm == old(searchTerm) && selectedCategory == old(selectedCategory)
    {
      showPaymentModal := false;
    }
  }
}
