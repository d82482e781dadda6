/**
 * The marketplace: a fixed catalog, a category filter over it, and a cart
 * that is mirrored to local storage on every change. Prices are in cents.
 */
module Marketplace {
  import opened Common

  datatype Category = Food | Toys | Hygiene | Accessories

  datatype Product = Product(id: int, name: string, category: Category, price: int, stock: int)

  /** `PRODUCTS_DB`, one named constant per product. */
  const Kibble := Product(1, "Ração Premium Adulto", Food, 14990, 10)
  const Chew := Product(2, "Mordedor Resistente", Toys, 3990, 10)
  const Shampoo := Product(3, "Shampoo Hipoalergênico", Hygiene, 4500, 10)
  const Collar := Product(4, "Coleira de Couro", Accessories, 8990, 10)
  const Bed := Product(5, "Cama Nuvem", Accessories, 21900, 5)
  const Treats := Product(6, "Petiscos Naturais", Food, 2550, 20)

  const Catalog: seq<Product> := [Kibble, Chew, Shampoo, Collar, Bed, Treats]

  /** The filter buttons: "Tudo" or one category. */
  datatype Shelf = All | Only(category: Category)

  /** The products shown for a filter, in catalog order. */
  function Filtered(shelf: Shelf): seq<Product>
  {
    match shelf
    case All => Catalog
    case Only(c) => Filter(Catalog, InCategory(c))
  }

  function InCategory(c: Category): Product -> bool
  {
    (p: Product) => p.category == c
  }

  /** `cart.reduce((acc, item) => acc + item.price, 0)`, folded from the left. */
  function Total(cart: seq<Product>): int
  {
    if cart == [] then 0 else Total(cart[..|cart| - 1]) + cart[|cart| - 1].price
  }

  /** The position `splice(idx, 1)` removes at: a negative index counts from
      the end (and stops at 0), one past the end removes nothing. */
  function SpliceStart(len: nat, idx: int): nat
  {
    if idx < 0 then (if len + idx < 0 then 0 else len + idx) else (if idx > len then len else idx)
  }

  /** `[...s].splice(idx, 1)`: the copy without the element at `idx`. */
  function Splice<T>(s: seq<T>, idx: int): seq<T>
  {
    var k := SpliceStart(|s|, idx);
    if k < |s| then s[..k] + s[k + 1..] else s
  }

  /** The count badge, shown only for a non-empty cart. */
  function Badge(cart: seq<Product>): Option<nat>
  {
    if |cart| > 0 then Some(|cart|) else None
  }

  /** The "Finalizar" button is enabled only for a non-empty cart. */
  predicate CheckoutEnabled(cart: seq<Product>)
  {
    |cart| != 0
  }

  class Shop {
    var cart: seq<Product>
    var shelf: Shelf
    var isCartOpen: bool
    var toasts: seq<string>
    /** The `petspa_cart` entry of local storage; None when absent. */
    ghost var stored: Option<seq<Product>>

    /** The stored copy is the cart, or is absent while the cart is empty. */
    ghost predicate Mirrored()
      reads this
    {
      if stored.Some? then stored.value == cart else cart == []
    }

    /** Mounting: a stored cart, if any, is loaded. */
    constructor(saved: Option<seq<Product>>)
      ensures Mirrored()
      ensures cart == (if saved.Some? then saved.value else [])
      ensures stored == saved && shelf == All && !isCartOpen && toasts == []
    {
      cart := if saved.Some? then saved.value else [];
      stored := saved;
      shelf := All;
      isCartOpen := false;
      toasts := [];
    }

    /** `addToCart(p)`: appended at the end, stored, and the cart opens. */
    method AddToCart(p: Product)
      modifies this
      ensures cart == old(cart) + [p]
      ensures stored == Some(cart) && Mirrored()
      ensures isCartOpen && shelf == old(shelf)
      ensures toasts == old(toasts) + ["Adicionado à sacola"]
    {
      var newCart := cart + [p];
      cart := newCart;
      stored := Some(newCart);
      isCartOpen := true;
      toasts := toasts + ["Adicionado à sacola"];
    }

    /** `removeFromCart(idx)`: the spliced copy replaces the cart and is stored. */
    method RemoveFromCart(idx: int)
      modifies this
      ensures cart == Splice(old(cart), idx)
      ensures stored == Some(cart) && Mirrored()
      ensures isCartOpen == old(isCartOpen) && shelf == old(shelf) && toasts == old(toasts)
    {
      var newCart := Splice(cart, idx);
      cart := newCart;
      stored := Some(newCart);
    }

    /** `handleCheckout`: the cart is emptied, the stored copy removed and
        the sidebar closed. */
    method HandleCheckout()
      modifies this
      ensures cart == [] && stored == None && Mirrored()
      ensures !isCartOpen && shelf == old(shelf)
      ensures toasts == old(toasts) + ["Pedido realizado! 🎉"]
    {
      toasts := toasts + ["Pedido realizado! 🎉"];
      cart := [];
      stored := None;
      isCartOpen := false;
    }

    method SetShelf(s: Shelf)
      modifies this
      ensures shelf == s && cart == old(cart) && stored == old(stored)
      ensures isCartOpen == old(isCartOpen) && toasts == old(toasts)
    {
      shelf := s;
    }
  }

  // ---------------------------------------------------------------------------
  // Properties.

  /** `p`, if it is of category `c`. */
  function Keep(p: Product, c: Category): seq<Product>
  {
    if p.category == c then [p] else []
  }

  /** The products of category `c` from position `k` on, one at a time. */
  function Picked(c: Category, k: nat): seq<Product>
    requires k <= |Catalog|
    decreases |Catalog| - k
  {
    if k == |Catalog| then [] else Keep(Catalog[k], c) + Picked(c, k + 1)
  }

  lemma {:induction false} FilterCatalogFrom(c: Category, k: nat)
    requires k <= |Catalog|
    ensures Filter(Catalog[k..], InCategory(c)) == Picked(c, k)
    decreases |Catalog| - k
  {
    if k < |Catalog| {
      var rest := Catalog[k..];
      assert rest[1..] == Catalog[k + 1..];
      FilterCatalogFrom(c, k + 1);
      assert Filter(rest, InCategory(c)) == Keep(rest[0], c) + Filter(rest[1..], InCategory(c));
    }
  }

  /** The filter of each category, product by product. */
  lemma FilteredWrittenOut(c: Category)
    ensures Filtered(Only(c)) == Keep(Kibble, c) + (Keep(Chew, c) + (Keep(Shampoo, c)
                                 + (Keep(Collar, c) + (Keep(Bed, c) + Keep(Treats, c)))))
  {
    assert Catalog[0..] == Catalog;
    FilterCatalogFrom(c, 0);
    var t := Keep(Treats, c);
    assert Picked(c, 5) == t;
    assert Picked(c, 4) == Keep(Bed, c) + t;
    assert Picked(c, 3) == Keep(Collar, c) + (Keep(Bed, c) + t);
    assert Picked(c, 2) == Keep(Shampoo, c) + (Keep(Collar, c) + (Keep(Bed, c) + t));
    assert Picked(c, 1) == Keep(Chew, c) + (Keep(Shampoo, c) + (Keep(Collar, c) + (Keep(Bed, c) + t)));
  }

  /** "Tudo" shows the whole catalog; a category shows exactly its products,
      in catalog order. */
  lemma FilteredShelves()
    ensures Filtered(All) == Catalog
    ensures Filtered(Only(Food)) == [Kibble, Treats]
    ensures Filtered(Only(Toys)) == [Chew]
    ensures Filtered(Only(Hygiene)) == [Shampoo]
    ensures Filtered(Only(Accessories)) == [Collar, Bed]
  {
    FilteredWrittenOut(Food);
    FilteredWrittenOut(Toys);
    FilteredWrittenOut(Hygiene);
    FilteredWrittenOut(Accessories);
  }

  /** Every product a category shows is of that category, and every product
      of that category is shown. */
  lemma FilteredIsCategory(c: Category, p: Product)
    ensures p in Filtered(Only(c)) <==> p in Catalog && p.category == c
  {
  }

  /** The total of the empty cart is 0, and adding a product adds its price. */
  lemma TotalAppend(a: seq<Product>, b: seq<Product>)
    ensures Total([]) == 0
    ensures Total(a + b) == Total(a) + Total(b)
    decreases |b|
  {
    if b != [] {
      assert (a + b)[..|a + b| - 1] == a + b[..|b| - 1];
      TotalAppend(a, b[..|b| - 1]);
    } else {
      assert a + b == a;
    }
  }

  /** A sequence is what comes before position `i`, the element there, and
      what comes after. */
  lemma SplitAt<T>(s: seq<T>, i: nat)
    requires i < |s|
    ensures s == s[..i] + [s[i]] + s[i + 1..]
  {
  }

  /** Removing one item takes exactly its price off the total. */
  lemma TotalSplice(cart: seq<Product>, i: int)
    requires 0 <= i < |cart|
    ensures Total(Splice(cart, i)) == Total(cart) - cart[i].price
  {
    var a, x, b := cart[..i], cart[i], cart[i + 1..];
    SplitAt(cart, i);
    TotalAppend(a + [x], b);
    TotalAppend(a, [x]);
    TotalAppend(a, b);
    assert Total([x]) == Total([]) + x.price by {
      assert [x][..0] == [];
    }
  }

  /** A cart of products with non-negative prices has a non-negative total. */
  lemma {:induction false} TotalNonNegative(cart: seq<Product>)
    requires forall p :: p in cart ==> p.price >= 0
    ensures Total(cart) >= 0
    decreases |cart|
  {
    if cart != [] {
      assert forall p :: p in cart[..|cart| - 1] ==> p in cart;
      TotalNonNegative(cart[..|cart| - 1]);
    }
  }

  /** `splice(i, 1)` at a valid index removes exactly element `i` and keeps
      the others in order. */
  lemma SpliceRemovesOne<T>(s: seq<T>, i: int)
    requires 0 <= i < |s|
    ensures |Splice(s, i)| == |s| - 1
    ensures forall j :: 0 <= j < i ==> Splice(s, i)[j] == s[j]
    ensures forall j :: i <= j < |s| - 1 ==> Splice(s, i)[j] == s[j + 1]
    ensures multiset(Splice(s, i)) + multiset{s[i]} == multiset(s)
  {
    SplitAt(s, i);
    calc {
      multiset(s);
      multiset(s[..i]) + multiset{s[i]} + multiset(s[i + 1..]);
      multiset(s[..i] + s[i + 1..]) + multiset{s[i]};
    }
  }

  /** Past the end `splice` removes nothing; -1 removes the last element. */
  lemma SpliceOutOfRange<T>(s: seq<T>, i: int)
    ensures i >= |s| ==> Splice(s, i) == s
    ensures |s| > 0 ==> Splice(s, -1) == s[..|s| - 1]
  {
    if |s| > 0 {
      assert s[..|s| - 1] + s[|s|..] == s[..|s| - 1];
    }
  }

  /** The badge and the checkout button agree: both are off exactly when the
      cart is empty. */
  lemma BadgeMatchesCheckout(cart: seq<Product>)
    ensures Badge(cart).None? <==> cart == []
    ensures CheckoutEnabled(cart) <==> Badge(cart).Some?
    ensures Badge(cart).Some? ==> Badge(cart).value == |cart|
  {
  }

  /** Adding a product and removing it again gives back the cart. */
  lemma AddThenRemove(cart: seq<Product>, p: Product)
    ensures Splice(cart + [p], |cart|) == cart
    ensures Total(cart + [p]) == Total(cart) + p.price
  {
    TotalAppend(cart, [p]);
    assert Total([p]) == p.price by {
      assert [p][..0] == [];
    }
    assert (cart + [p])[..|cart|] == cart;
  }
}
