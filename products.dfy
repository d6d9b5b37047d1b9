/**
 * The product document of the catalog: its schema bounds, the pre-save recomputation of
 * `totalStock`, and the document methods `isInStock`, `getFinalPrice` and `updateStock`.
 * Money is in integer cents.
 */
module Products {
  import opened Wrappers
  import opened Text
  import opened Lists

  type ProductId = string
  type UserId = string

  /** The values the schema allows for `category`. */
  const Categories: seq<string> :=
    ["shirts", "pants", "dresses", "jackets", "shoes", "accessories", "underwear", "sportswear", "formal", "casual"]

  /** The values the schema allows for `gender`. */
  const Genders: seq<string> := ["men", "women", "unisex", "kids"]

  /** The values the schema allows for a size label. */
  const SizeLabels: seq<string> :=
    ["XS", "S", "M", "L", "XL", "XXL", "XXXL", "6", "7", "8", "9", "10", "11", "12",
     "28", "30", "32", "34", "36", "38", "40", "42"]

  /** One entry of `sizes`: a size label and the units in stock for it. */
  datatype SizeStock = SizeStock(size: string, stock: int)

  /** One entry of `colors`: the catalog's spelling of a color and an optional color code. */
  datatype ColorOption = ColorOption(color: string, colorCode: Option<string>)

  /** One entry of `reviews`; the review date is not modelled. */
  datatype Review = Review(user: UserId, rating: int, comment: Option<string>)

  /** The `rating` sub-document: the mean of the review ratings and their number. */
  datatype RatingSummary = RatingSummary(average: real, count: int)

  function Stock(s: SizeStock): int { s.stock }

  /** The pre-save fold: the sum of the per-size stock counts. */
  function TotalStock(sizes: seq<SizeStock>): int { Sum(sizes, Stock) }

  /** The test `s => s.size === size` that `sizes.find` applies. */
  function SizeIs(size: string): SizeStock -> bool { (s: SizeStock) => s.size == size }

  function Max(a: int, b: int): int { if a >= b then a else b }

  /** The size list after `updateStock(size, quantity)`: the first entry labelled `size`
      gets `Math.max(0, stock + quantity)`; with no such entry the list is unchanged. */
  function StockAdjusted(sizes: seq<SizeStock>, size: string, quantity: int): (r: seq<SizeStock>)
    ensures |r| == |sizes|
    ensures forall i :: 0 <= i < |r| ==> r[i].size == sizes[i].size
  {
    match FindIndex(sizes, SizeIs(size))
    case None => sizes
    case Some(k) => sizes[k := sizes[k].(stock := Max(0, sizes[k].stock + quantity))]
  }

  /** Every size entry has a known label and a non-negative stock. */
  predicate SizesValid(sizes: seq<SizeStock>) {
    forall i :: 0 <= i < |sizes| ==> sizes[i].size in SizeLabels && sizes[i].stock >= 0
  }

  class Product {
    var price: int
    var discountPrice: Option<int>
    var category: string
    var gender: string
    var sizes: seq<SizeStock>
    var colors: seq<ColorOption>
    var isActive: bool
    var rating: RatingSummary
    var reviews: seq<Review>
    var totalStock: int

    /** The bounds the product schema enforces on every save. */
    predicate SchemaValid()
      reads this
    {
      && price >= 0
      && (discountPrice.Some? ==> discountPrice.value >= 0)
      && category in Categories
      && gender in Genders
      && SizesValid(sizes)
      && (forall i :: 0 <= i < |colors| ==> colors[i].color != "")
      && 0.0 <= rating.average <= 5.0
      && rating.count >= 0
      && (forall i :: 0 <= i < |reviews| ==> 1 <= reviews[i].rating <= 5)
      && totalStock >= 0
    }

    /** The pre-save hook: `totalStock` becomes the sum of the per-size stock. */
    method PreSave()
      modifies this`totalStock
      ensures totalStock == TotalStock(sizes)
    {
      totalStock := TotalStock(sizes);
    }

    /** `product.save()`: the schema is validated on the document as it stands; only then
        does the pre-save hook recompute `totalStock`. */
    method Save() returns (ok: bool)
      modifies this`totalStock
      ensures ok == old(SchemaValid())
      ensures ok ==> totalStock == TotalStock(sizes) && SchemaValid()
      ensures !ok ==> totalStock == old(totalStock)
    {
      ok := SchemaValid();
      if ok {
        PreSave();
        TotalStockNonNegative(sizes);
      }
    }

    /** `isInStock(size)`: with a size, whether the first entry with that label has stock
        left (false when there is none); without one, whether `totalStock` is positive. */
    function IsInStock(size: Option<string>): (r: bool)
      reads this
      ensures Truthy(size) ==>
        (r <==> exists k :: 0 <= k < |sizes| && sizes[k].size == size.value && sizes[k].stock > 0
                             && forall j :: 0 <= j < k ==> sizes[j].size != size.value)
      ensures Truthy(size) && (forall k :: 0 <= k < |sizes| ==> sizes[k].size != size.value) ==> !r
      ensures !Truthy(size) ==> (r <==> totalStock > 0)
    {
      if Truthy(size) then
        match FindIndex(sizes, SizeIs(size.value))
        case None => false
        case Some(k) => sizes[k].stock > 0
      else totalStock > 0
    }

    /** `getFinalPrice()`: the discount price when it is set, non-zero and below the
        price; otherwise the price. */
    function GetFinalPrice(): (r: int)
      reads this
      ensures r <= price
      ensures r == price || (discountPrice == Some(r) && r != 0)
      ensures discountPrice.None? || discountPrice == Some(0) ==> r == price
      ensures discountPrice.Some? && discountPrice.value != 0 ==> r <= discountPrice.value
    {
      if discountPrice.Some? && discountPrice.value != 0 && discountPrice.value < price
      then discountPrice.value else price
    }

    /** `updateStock(size, quantity)`: adjusts the first entry labelled `size`, clamped at
        zero, and then recomputes `totalStock`; an unknown size changes nothing. */
    method UpdateStock(size: string, quantity: int)
      modifies this`sizes, this`totalStock
      ensures sizes == StockAdjusted(old(sizes), size, quantity)
      ensures FindIndex(old(sizes), SizeIs(size)).Some? ==> totalStock == TotalStock(sizes)
      ensures FindIndex(old(sizes), SizeIs(size)).None? ==> totalStock == old(totalStock)
      ensures old(SchemaValid()) ==> SchemaValid()
    {
      var found := FindIndex(sizes, SizeIs(size));
      if found.Some? {
        var k := found.value;
        sizes := sizes[k := sizes[k].(stock := Max(0, sizes[k].stock + quantity))];
        totalStock := TotalStock(sizes);
        if SizesValid(old(sizes)) {
          StockAdjustedKeepsBounds(old(sizes), size, quantity);
        }
      }
    }
  }

  /** With non-negative per-size stock the total is non-negative. */
  lemma {:induction false} TotalStockNonNegative(sizes: seq<SizeStock>)
    requires forall i :: 0 <= i < |sizes| ==> sizes[i].stock >= 0
    ensures TotalStock(sizes) >= 0
  {
    SumAtLeast(sizes, Stock, 0);
  }

  /** `updateStock` never makes a stock negative and keeps every label, so a valid size
      list stays valid and its total stays non-negative. */
  lemma {:induction false} StockAdjustedKeepsBounds(sizes: seq<SizeStock>, size: string, quantity: int)
    requires SizesValid(sizes)
    ensures SizesValid(StockAdjusted(sizes, size, quantity))
    ensures TotalStock(StockAdjusted(sizes, size, quantity)) >= 0
  {
    TotalStockNonNegative(StockAdjusted(sizes, size, quantity));
  }

  /** `updateStock` touches only the first entry with the given label: every other entry,
      and every entry when the label is unknown, is unchanged. */
  lemma {:induction false} StockAdjustedTouchesFirstMatch(sizes: seq<SizeStock>, size: string, quantity: int)
    ensures |StockAdjusted(sizes, size, quantity)| == |sizes|
    ensures forall i :: 0 <= i < |sizes| ==>
      StockAdjusted(sizes, size, quantity)[i].size == sizes[i].size
    ensures forall i :: 0 <= i < |sizes| && StockAdjusted(sizes, size, quantity)[i] != sizes[i] ==>
      sizes[i].size == size && forall j :: 0 <= j < i ==> sizes[j].size != size
    ensures (forall i :: 0 <= i < |sizes| ==> sizes[i].size != size) ==>
      StockAdjusted(sizes, size, quantity) == sizes
  {
  }

  /** After `updateStock`, the new total is the old total with the adjusted entry's stock
      replaced, which is what recomputing the sum gives. */
  lemma {:induction false} StockAdjustedTotal(sizes: seq<SizeStock>, size: string, quantity: int, k: nat)
    requires k < |sizes| && sizes[k].size == size
    requires forall j :: 0 <= j < k ==> sizes[j].size != size
    ensures TotalStock(StockAdjusted(sizes, size, quantity))
            == TotalStock(sizes) - sizes[k].stock + Max(0, sizes[k].stock + quantity)
  {
    var adjusted := sizes[k].(stock := Max(0, sizes[k].stock + quantity));
    FindIndexIs(sizes, SizeIs(size), k);
    assert StockAdjusted(sizes, size, quantity) == sizes[k := adjusted];
    assert TotalStock(sizes[k := adjusted]) == TotalStock(sizes) - sizes[k].stock + adjusted.stock by {
      SumUpdate(sizes, k, adjusted, Stock);
    }
  }

  /** A product in stock at some size is in stock overall, provided its `totalStock` is
      the fold the pre-save hook computes and no stock is negative. */
  lemma {:induction false} InStockAtSizeImpliesInStock(p: Product, size: string)
    requires SizesValid(p.sizes) && p.totalStock == TotalStock(p.sizes)
    requires size != "" && p.IsInStock(Some(size))
    ensures p.IsInStock(None)
  {
    var k := FindIndex(p.sizes, SizeIs(size)).value;
    SumAtLeastTerm(p.sizes, k, Stock);
  }

  /** With the schema's bounds the final price lies between zero and the list price. */
  lemma {:induction false} FinalPriceWithinBounds(p: Product)
    requires p.SchemaValid()
    ensures 0 <= p.GetFinalPrice() <= p.price
  {
  }
}
