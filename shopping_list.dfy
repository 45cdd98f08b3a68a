/** Shopping lists: immutable sequences of product names, compared by value. */
module ShoppingLists {
  import opened Wrappers

  /** A shopping list holds its products in the order they were given to the constructor. */
  datatype ShoppingList = ShoppingList(products: seq<string>)
  {
    /** The products of the list. */
    function GetProducts(): (p: seq<string>)
      ensures ShoppingList(p) == this
    {
      products
    }

    /** Java's `equals(Object)`: false for null, otherwise a comparison of the product lists. */
    function Equals(o: Option<ShoppingList>): (r: bool)
      ensures r <==> o == Some(this)
    {
      match o
      case None => false
      case Some(that) => products == that.products
    }
  }

  /** The constructor keeps the products, in argument order, and `GetProducts` returns them. */
  lemma ConstructorKeepsProducts(products: seq<string>)
    ensures ShoppingList(products).GetProducts() == products
    ensures forall i :: 0 <= i < |products| ==> ShoppingList(products).GetProducts()[i] == products[i]
  {
  }

  /** Two lists are equal exactly when their product sequences are. */
  lemma EqualsIffSameProducts(a: ShoppingList, b: ShoppingList)
    ensures a.Equals(Some(b)) <==> a.GetProducts() == b.GetProducts()
  {
  }

  /** `equals` is reflexive, symmetric and false against null. */
  lemma EqualsIsEquivalence(a: ShoppingList, b: ShoppingList)
    ensures a.Equals(Some(a))
    ensures a.Equals(Some(b)) == b.Equals(Some(a))
    ensures !a.Equals(None)
  {
  }

  /**
   * `List.equals` on lists of shopping lists (same length, elementwise `Equals`)
   * coincides with equality of the sequences.
   */
  lemma {:induction false} ListEqualsIsSequenceEquality(xs: seq<ShoppingList>, ys: seq<ShoppingList>)
    ensures (|xs| == |ys| && forall i :: 0 <= i < |xs| ==> xs[i].Equals(Some(ys[i]))) <==> xs == ys
  {
    if |xs| == |ys| && forall i :: 0 <= i < |xs| ==> xs[i].Equals(Some(ys[i])) {
      forall i | 0 <= i < |xs| ensures xs[i] == ys[i] {
        assert xs[i].Equals(Some(ys[i]));
      }
    }
  }
}
