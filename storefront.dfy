/** The storefront script public/app.js: the cart kept in the page state,
    the cart badge and the cart total, the login identity normaliser, the
    product-image fallback and the menu's filter and price sort. */
module Storefront {
  import opened Common
  import opened Records

  const ProductsDir := "/products/"
  const PlaceholderName := "placeholder.svg"

  // ------------------------------------------------------------- the cart

  /** No two cart lines name the same product. */
  predicate LinesDistinct(cart: seq<LineItem>)
  {
    forall i, j :: 0 <= i < j < |cart| ==> cart[i].productId != cart[j].productId
  }

  /** Every cart line holds at least one item. */
  predicate AllPositive(cart: seq<LineItem>)
  {
    forall i :: 0 <= i < |cart| ==> cart[i].quantity > 0
  }

  /** `state.cart.find(it => it.productId === productId)`, as an index. */
  function LineIndex(cart: seq<LineItem>, productId: string): (r: Option<nat>)
    ensures r.None? <==> forall i :: 0 <= i < |cart| ==> cart[i].productId != productId
    ensures r.Some? ==> r.value < |cart| && cart[r.value].productId == productId
    ensures r.Some? ==> forall j :: 0 <= j < r.value ==> cart[j].productId != productId
  {
    FirstIndex(cart, SameProduct(productId))
  }

  function SameProduct(productId: string): LineItem -> bool
  {
    (l: LineItem) => l.productId == productId
  }

  /** `state.cart.filter(x => x.productId !== productId)`. */
  function WithoutLine(cart: seq<LineItem>, productId: string): (r: seq<LineItem>)
    ensures forall i :: 0 <= i < |r| ==> r[i].productId != productId
  {
    Filter(cart, OtherProduct(productId))
  }

  /** Removing a product's lines keeps every other line, as often as it was
      there and in the same order. */
  lemma WithoutLineKeepsRest(cart: seq<LineItem>, productId: string)
    ensures IsSubseq(WithoutLine(cart, productId), cart)
    ensures forall l: LineItem :: l.productId != productId ==>
              multiset(WithoutLine(cart, productId))[l] == multiset(cart)[l]
  {
    FilterIsSubseq(cart, OtherProduct(productId));
    FilterCountsAll(cart, OtherProduct(productId));
  }

  function OtherProduct(productId: string): LineItem -> bool
  {
    (l: LineItem) => l.productId != productId
  }

  /** A catalogue product has this id (`state.products.find(...)` succeeds). */
  predicate InCatalogue(products: seq<Product>, productId: string)
  {
    exists i :: 0 <= i < |products| && products[i].id == productId
  }

  function HasId(productId: string): Product -> bool
  {
    (p: Product) => p.id == productId
  }

  function Quantity(l: LineItem): int { l.quantity }

  /** `updateCartBadge`: the number of items in the cart. */
  function BadgeCount(cart: seq<LineItem>): int
  {
    SumBy(cart, Quantity)
  }

  /** A product list with one more product has that product's id and the
      ids it had. */
  lemma InCatalogueSnoc(init: seq<Product>, last: Product, k: string)
    ensures InCatalogue(init + [last], k) <==> InCatalogue(init, k) || last.id == k
  {
    var products := init + [last];
    if InCatalogue(init, k) {
      var i :| 0 <= i < |init| && init[i].id == k;
      assert products[i] == init[i];
    }
    if InCatalogue(products, k) && last.id != k {
      var i :| 0 <= i < |products| && products[i].id == k;
      assert init[i] == products[i];
    }
    assert products[|init|] == last;
  }

  /** `new Map(products.map(p => [p.id, p]))`: each id maps to the LAST
      product carrying it. */
  function ProductMap(products: seq<Product>): (m: map<string, Product>)
    ensures forall k :: k in m <==> InCatalogue(products, k)
    ensures forall k :: k in m ==> m[k].id == k && m[k] in products
  {
    if products == [] then map[]
    else
      var init, last := products[..|products| - 1], products[|products| - 1];
      assert products == init + [last];
      var m0 := ProductMap(init);
      forall k
        ensures InCatalogue(products, k) <==> InCatalogue(init, k) || last.id == k
      {
        InCatalogueSnoc(init, last, k);
      }
      m0[last.id := last]
  }

  /** The product a map entry holds is the last one in the list with its id. */
  lemma {:induction false} ProductMapLastWins(products: seq<Product>, i: nat)
    requires i < |products|
    requires forall j :: i < j < |products| ==> products[j].id != products[i].id
    ensures ProductMap(products)[products[i].id] == products[i]
  {
    var n := |products| - 1;
    var init := products[..n];
    assert ProductMap(products) == ProductMap(init)[products[n].id := products[n]];
    if i < n {
      assert init[i] == products[i];
      assert forall j :: i < j < |init| ==> init[j].id != init[i].id by {
        forall j | i < j < |init| ensures init[j].id != init[i].id {
          assert init[j] == products[j];
        }
      }
      ProductMapLastWins(init, i);
    }
  }

  /** One rendered cart line: price times quantity, nothing when the
      product is not in the catalogue. */
  function LineValue(catalogue: map<string, Product>, l: LineItem): int
  {
    if l.productId in catalogue then catalogue[l.productId].price * l.quantity else 0
  }

  function LineValueIn(catalogue: map<string, Product>): LineItem -> int
  {
    (l: LineItem) => LineValue(catalogue, l)
  }

  /** `renderCart` total. */
  function CartValue(products: seq<Product>, cart: seq<LineItem>): int
  {
    SumBy(cart, LineValueIn(ProductMap(products)))
  }

  /** A line whose product is not in the catalogue adds nothing. */
  lemma UnknownLineAddsNothing(products: seq<Product>, cart: seq<LineItem>, l: LineItem)
    requires !InCatalogue(products, l.productId)
    ensures CartValue(products, cart + [l]) == CartValue(products, cart)
  {
    assert (cart + [l])[..|cart|] == cart;
  }

  /** The cart `addToCart` leaves: unchanged for an unknown product, the
      product's first line one item larger, or a new line of one item. */
  function Added(products: seq<Product>, cart: seq<LineItem>, productId: string): (r: seq<LineItem>)
    ensures !InCatalogue(products, productId) ==> r == cart
  {
    if !InCatalogue(products, productId) then cart
    else match LineIndex(cart, productId)
      case Some(i) => cart[i := LineItem(productId, cart[i].quantity + 1)]
      case None => cart + [LineItem(productId, 1)]
  }

  /** One more item on a line adds the product's price to the line. */
  lemma OneMoreItem(catalogue: map<string, Product>, l: LineItem)
    requires l.productId in catalogue
    ensures LineValue(catalogue, LineItem(l.productId, l.quantity + 1))
            == LineValue(catalogue, l) + catalogue[l.productId].price
  {
    var price := catalogue[l.productId].price;
    assert price * (l.quantity + 1) == price * l.quantity + price;
  }

  /** One more item on line `i` adds one to the badge and the product's
      price to the total. */
  lemma BumpCounts(products: seq<Product>, cart: seq<LineItem>, i: nat)
    requires i < |cart| && cart[i].productId in ProductMap(products)
    ensures var bumped := cart[i := LineItem(cart[i].productId, cart[i].quantity + 1)];
            BadgeCount(bumped) == BadgeCount(cart) + 1
            && CartValue(products, bumped) == CartValue(products, cart) + ProductMap(products)[cart[i].productId].price
  {
    var m := ProductMap(products);
    var l := LineItem(cart[i].productId, cart[i].quantity + 1);
    SumByUpdate(cart, i, l, LineValueIn(m));
    SumByUpdate(cart, i, l, Quantity);
    OneMoreItem(m, cart[i]);
  }

  /** A new line of one item adds one to the badge and the product's price
      to the total. */
  lemma AppendCounts(products: seq<Product>, cart: seq<LineItem>, productId: string)
    requires productId in ProductMap(products)
    ensures var grown := cart + [LineItem(productId, 1)];
            BadgeCount(grown) == BadgeCount(cart) + 1
            && CartValue(products, grown) == CartValue(products, cart) + ProductMap(products)[productId].price
  {
    var grown := cart + [LineItem(productId, 1)];
    assert grown[..|cart|] == cart;
  }

  /** Adding a catalogue product raises the badge by one and the total by
      that product's price (the last catalogue product with the id). */
  lemma {:induction false} AddCounts(products: seq<Product>, cart: seq<LineItem>, productId: string)
    requires InCatalogue(products, productId)
    ensures BadgeCount(Added(products, cart, productId)) == BadgeCount(cart) + 1
    ensures CartValue(products, Added(products, cart, productId))
            == CartValue(products, cart) + ProductMap(products)[productId].price
  {
    AddedCases(products, cart, productId);
    var k := LineIndex(cart, productId);
    if k.Some? {
      BumpCounts(products, cart, k.value);
    } else {
      AppendCounts(products, cart, productId);
    }
  }

  /** For a catalogue product, `Added` bumps the product's line or appends
      a new one. */
  lemma AddedCases(products: seq<Product>, cart: seq<LineItem>, productId: string)
    requires InCatalogue(products, productId)
    ensures var k := LineIndex(cart, productId);
            k.Some? ==> k.value < |cart| && cart[k.value].productId == productId
                        && productId in ProductMap(products)
                        && Added(products, cart, productId)
                           == cart[k.value := LineItem(cart[k.value].productId, cart[k.value].quantity + 1)]
    ensures LineIndex(cart, productId).None? ==> Added(products, cart, productId) == cart + [LineItem(productId, 1)]
    ensures productId in ProductMap(products)
  {
  }

  /** Adding keeps the cart free of duplicate lines and of empty lines. */
  lemma AddKeepsShape(products: seq<Product>, cart: seq<LineItem>, productId: string)
    ensures LinesDistinct(cart) ==> LinesDistinct(Added(products, cart, productId))
    ensures AllPositive(cart) ==> AllPositive(Added(products, cart, productId))
  {
  }

  /** The cart `changeQty` leaves: unchanged when the product has no line,
      otherwise its first line gets the new quantity and, when that is zero
      or less, every line of the product is filtered out. */
  function Changed(cart: seq<LineItem>, productId: string, delta: int): (r: seq<LineItem>)
    ensures LineIndex(cart, productId).None? ==> r == cart
    ensures LineIndex(cart, productId).Some? ==>
              var i := LineIndex(cart, productId).value;
              var q := cart[i].quantity + delta;
              (q > 0 ==> |r| == |cart| && r[i] == LineItem(productId, q)) &&
              (q <= 0 ==> forall k :: 0 <= k < |r| ==> r[k].productId != productId)
  {
    match LineIndex(cart, productId)
    case None => cart
    case Some(i) =>
      var updated := cart[i := LineItem(productId, cart[i].quantity + delta)];
      if updated[i].quantity <= 0 then WithoutLine(updated, productId) else updated
  }

  /** On a cart without duplicates, changing a product's quantity moves the
      badge by `delta`, or by minus the old quantity when the line goes. */
  lemma {:induction false} ChangeCount(cart: seq<LineItem>, productId: string, delta: int)
    requires LinesDistinct(cart) && LineIndex(cart, productId).Some?
    ensures var i := LineIndex(cart, productId).value;
            var q := cart[i].quantity + delta;
            BadgeCount(Changed(cart, productId, delta)) == BadgeCount(cart) + (if q > 0 then delta else -cart[i].quantity)
  {
    var i := LineIndex(cart, productId).value;
    var q := cart[i].quantity + delta;
    ChangedShape(cart, productId, delta);
    if q > 0 {
      SumByUpdate(cart, i, LineItem(productId, q), Quantity);
    } else {
      WithoutUpdatedLine(cart, i, q);
      WithoutDistinctLine(cart, i);
      SumByRemove(cart, i, Quantity);
    }
  }

  /** Setting a line's quantity keeps the cart free of duplicates, and free
      of empty lines when the new quantity is positive. */
  lemma SetQuantityKeepsShape(cart: seq<LineItem>, i: nat, q: int)
    requires i < |cart|
    ensures var updated := cart[i := LineItem(cart[i].productId, q)];
            (LinesDistinct(cart) ==> LinesDistinct(updated))
            && (AllPositive(cart) && q > 0 ==> AllPositive(updated))
  {
  }

  /** What `changeQty` leaves is the cart with the line's quantity set, or
      the cart without the product's lines. */
  lemma ChangedShape(cart: seq<LineItem>, productId: string, delta: int)
    requires LineIndex(cart, productId).Some?
    ensures var i := LineIndex(cart, productId).value;
            var q := cart[i].quantity + delta;
            Changed(cart, productId, delta)
            == if q <= 0 then WithoutLine(cart, productId) else cart[i := LineItem(cart[i].productId, q)]
  {
    var i := LineIndex(cart, productId).value;
    var q := cart[i].quantity + delta;
    if q <= 0 {
      WithoutUpdatedLine(cart, i, q);
    }
  }

  /** Changing a quantity keeps the cart free of duplicate lines. */
  lemma ChangeKeepsDistinct(cart: seq<LineItem>, productId: string, delta: int)
    requires LinesDistinct(cart)
    ensures LinesDistinct(Changed(cart, productId, delta))
  {
    if LineIndex(cart, productId).Some? {
      var i := LineIndex(cart, productId).value;
      ChangedShape(cart, productId, delta);
      SetQuantityKeepsShape(cart, i, cart[i].quantity + delta);
      RemoveKeepsShape(cart, productId);
    }
  }

  /** Changing a quantity never leaves a line with zero or fewer items. */
  lemma ChangeKeepsPositive(cart: seq<LineItem>, productId: string, delta: int)
    requires AllPositive(cart)
    ensures AllPositive(Changed(cart, productId, delta))
  {
    if LineIndex(cart, productId).Some? {
      var i := LineIndex(cart, productId).value;
      ChangedShape(cart, productId, delta);
      SetQuantityKeepsShape(cart, i, cart[i].quantity + delta);
      RemoveKeepsShape(cart, productId);
    }
  }

  /** Removing a product keeps the cart free of duplicate lines and of empty
      lines. */
  lemma RemoveKeepsShape(cart: seq<LineItem>, productId: string)
    ensures LinesDistinct(cart) ==> LinesDistinct(WithoutLine(cart, productId))
    ensures AllPositive(cart) ==> AllPositive(WithoutLine(cart, productId))
  {
    var r := WithoutLine(cart, productId);
    FilterIsSubseq(cart, OtherProduct(productId));
    if LinesDistinct(cart) {
      SubseqKeepsDistinct(r, cart);
    }
    if AllPositive(cart) {
      SubseqMembers(r, cart);
      forall k | 0 <= k < |r| ensures r[k].quantity > 0 {
        assert r[k] in cart;
      }
    }
  }

  /** On a cart without duplicates, removing a product takes exactly its
      line, and its items, away. */
  lemma RemoveCount(cart: seq<LineItem>, productId: string)
    requires LinesDistinct(cart) && LineIndex(cart, productId).Some?
    ensures var i := LineIndex(cart, productId).value;
            WithoutLine(cart, productId) == cart[..i] + cart[i + 1..]
            && BadgeCount(WithoutLine(cart, productId)) == BadgeCount(cart) - cart[i].quantity
  {
    var i := LineIndex(cart, productId).value;
    WithoutDistinctLine(cart, i);
    SumByRemove(cart, i, Quantity);
  }

  /** Filtering out a product's line from a cart without duplicates takes
      out exactly that line. */
  lemma WithoutDistinctLine(cart: seq<LineItem>, i: nat)
    requires i < |cart| && LinesDistinct(cart)
    ensures WithoutLine(cart, cart[i].productId) == cart[..i] + cart[i + 1..]
  {
    FilterDropsOne(cart, i, OtherProduct(cart[i].productId));
  }

  /** A subsequence of a duplicate-free cart is duplicate-free. */
  lemma {:induction false} SubseqKeepsDistinct(r: seq<LineItem>, cart: seq<LineItem>)
    requires IsSubseq(r, cart) && LinesDistinct(cart)
    ensures LinesDistinct(r)
    decreases |cart|
  {
    if cart != [] {
      assert LinesDistinct(cart[1..]);
      if r != [] && r[0] == cart[0] && IsSubseq(r[1..], cart[1..]) {
        SubseqKeepsDistinct(r[1..], cart[1..]);
        SubseqMembers(r[1..], cart[1..]);
        forall j | 0 < j < |r|
          ensures r[0].productId != r[j].productId
        {
          assert r[1..][j - 1] in cart[1..];
        }
      } else {
        SubseqKeepsDistinct(r, cart[1..]);
      }
    }
  }

  /** Setting a line's quantity and then filtering its product out is the
      same as filtering it out directly. */
  lemma {:induction false} WithoutUpdatedLine(cart: seq<LineItem>, i: nat, q: int)
    requires i < |cart|
    ensures WithoutLine(cart[i := LineItem(cart[i].productId, q)], cart[i].productId) == WithoutLine(cart, cart[i].productId)
  {
    var id := cart[i].productId;
    if i > 0 {
      assert cart[i := LineItem(id, q)][1..] == cart[1..][i - 1 := LineItem(id, q)];
      WithoutUpdatedLine(cart[1..], i - 1, q);
    } else {
      assert cart[i := LineItem(id, q)][1..] == cart[1..];
    }
  }

  /** The page state of the storefront that the cart handlers update. */
  class Storefront {
    var products: seq<Product>
    var cart: seq<LineItem>

    /** The catalogue from `/api/products` and the cart from local storage. */
    constructor (products0: seq<Product>, cart0: seq<LineItem>)
      ensures products == products0 && cart == cart0
    {
      products, cart := products0, cart0;
    }

    /** `addToCart`. */
    method AddToCart(productId: string)
      modifies this
      ensures products == old(products)
      ensures cart == Added(old(products), old(cart), productId)
    {
      var product := FirstIndex(products, HasId(productId));
      if product.None? {
        return;
      }
      var ex := LineIndex(cart, productId);
      if ex.Some? {
        var i := ex.value;
        cart := cart[i := LineItem(productId, cart[i].quantity + 1)];
      } else {
        cart := cart + [LineItem(productId, 1)];
      }
    }

    /** `changeQty`. */
    method ChangeQty(productId: string, delta: int)
      modifies this
      ensures products == old(products)
      ensures cart == Changed(old(cart), productId, delta)
    {
      var it := LineIndex(cart, productId);
      if it.None? {
        return;
      }
      var i := it.value;
      cart := cart[i := LineItem(productId, cart[i].quantity + delta)];
      if cart[i].quantity <= 0 {
        cart := WithoutLine(cart, productId);
      }
    }

    /** The remove button of a cart line. */
    method RemoveLine(productId: string)
      modifies this
      ensures products == old(products)
      ensures cart == WithoutLine(old(cart), productId)
    {
      cart := WithoutLine(cart, productId);
    }

    /** The total `renderCart` accumulates line by line. */
    method CartTotal() returns (total: int)
      ensures total == CartValue(products, cart)
    {
      var catalogue := ProductMap(products);
      total := 0;
      for i := 0 to |cart|
        invariant total == SumBy(cart[..i], LineValueIn(catalogue))
      {
        assert cart[..i + 1][..i] == cart[..i];
        var l := cart[i];
        if l.productId in catalogue {
          total := total + catalogue[l.productId].price * l.quantity;
        }
      }
      assert cart[..|cart|] == cart;
    }
  }

  // ---------------------------------------------------- login identity

  /** What `normalizeIdentity` sends: a phone made of digits, or an email. */
  datatype Identity = ByPhone(phone: string) | ByEmail(email: string)

  predicate PhoneBodyChar(c: char) { IsDigit(c) || IsWhitespace(c) || c == '-' }

  /** The text after an optional leading plus sign. */
  function PhoneBody(v: string): (body: string)
    ensures |body| <= |v| && body == v[|v| - |body|..]
    ensures |v| - |body| <= 1
    ensures body != v <==> v != [] && v[0] == '+'
  {
    if v != [] && v[0] == '+' then v[1..] else v
  }

  /** The pattern `^\+?\d[\d\s-]{6,}$`: an optional plus, a digit, then at
      least six digits, spaces or hyphens. */
  predicate PhonePattern(v: string)
  {
    var body := PhoneBody(v);
    |body| >= 7 && IsDigit(body[0]) && forall i :: 1 <= i < |body| ==> PhoneBodyChar(body[i])
  }

  /** `normalizeIdentity`. */
  function NormalizeIdentity(v: string): (r: Identity)
    ensures r.ByPhone? <==> PhonePattern(Trim(v))
    ensures r.ByPhone? ==> r.phone != [] && forall i :: 0 <= i < |r.phone| ==> IsDigit(r.phone[i])
    ensures r.ByPhone? ==> IsSubseq(r.phone, Trim(v))
    ensures r.ByPhone? ==> forall c :: IsDigit(c) ==> multiset(r.phone)[c] == multiset(Trim(v))[c]
    ensures r.ByEmail? ==> r.email == Trim(v)
  {
    var value := Trim(v);
    if PhonePattern(value) then
      PhoneDigits(value);
      ByPhone(Filter(value, IsDigit))
    else ByEmail(value)
  }

  /** The digits of a text matching the phone pattern: at least one, and
      every digit of the text, as often as it occurs and in order. */
  lemma PhoneDigits(value: string)
    requires PhonePattern(value)
    ensures var d := Filter(value, IsDigit);
            d != [] && IsSubseq(d, value) && forall c :: IsDigit(c) ==> multiset(d)[c] == multiset(value)[c]
  {
    assert IsDigit(value[|value| - |PhoneBody(value)|]);
    FilterIsSubseq(value, IsDigit);
    FilterCountsAll(value, IsDigit);
  }

  /** A text holding an '@' never matches the phone pattern. */
  lemma AtSignIsNoPhone(value: string)
    requires '@' in value
    ensures !PhonePattern(value)
  {
    var k :| 0 <= k < |value| && value[k] == '@';
    var body := PhoneBody(value);
    var off := |value| - |body|;
    assert off == 0 || value[0] == '+';
    assert off <= k;
    assert body[k - off] == value[k];
    if k == off {
      assert !IsDigit(body[0]);
    } else {
      assert !PhoneBodyChar(body[k - off]);
    }
  }

  /** Anything with an '@' in it is sent as an email. */
  lemma AtSignMeansEmail(v: string)
    requires '@' in Trim(v)
    ensures NormalizeIdentity(v) == ByEmail(Trim(v))
  {
    AtSignIsNoPhone(Trim(v));
  }

  /** Seven or more bare digits are sent unchanged as a phone. */
  lemma DigitsAreAPhone(v: string)
    requires |v| >= 7 && forall i :: 0 <= i < |v| ==> IsDigit(v[i])
    ensures NormalizeIdentity(v) == ByPhone(v)
  {
    assert !IsWhitespace(v[0]) && !IsWhitespace(v[|v| - 1]);
    TrimNoWhitespace(v);
    assert v[0] != '+';
    assert forall i :: 1 <= i < |v| ==> PhoneBodyChar(v[i]);
    assert IsDigit(v[0]);
    assert PhonePattern(v);
    FilterKeepsAll(v, IsDigit);
  }

  // ----------------------------------------------------- image fallback

  /** Where the part after the last slash of `url` begins. */
  function SegmentStart(url: string): (k: nat)
    ensures k <= |url|
    ensures forall i :: k <= i < |url| ==> url[i] != '/'
    ensures k > 0 ==> url[k - 1] == '/'
  {
    if url == [] then 0
    else if url[|url| - 1] == '/' then |url|
    else SegmentStart(url[..|url| - 1])
  }

  /** `(url || '').split('/').pop()`: the part after the last slash. */
  function LastSegment(url: string): string
  {
    url[SegmentStart(url)..]
  }

  /** `replace(/^@/, '')`. */
  function StripAt(name: string): string
  {
    if name != [] && name[0] == '@' then name[1..] else name
  }

  /** `name` ends with `ext`, letters compared without regard to case. */
  predicate EndsWithIgnoringCase(name: string, ext: string)
  {
    |name| >= |ext| && forall i :: 0 <= i < |ext| ==> LowerChar(name[|name| - |ext| + i]) == ext[i]
  }

  /** `replace(/\.jpg$/i, '.png')` and its mirror: swap an extension at the
      end, whatever the case of its letters, for another of the same length. */
  function SwapExtension(name: string, from: string, to: string): (r: string)
    requires |from| == |to|
    ensures |r| == |name|
    ensures EndsWithIgnoringCase(name, from) ==>
              r[..|name| - |from|] == name[..|name| - |from|] && r[|name| - |from|..] == to
    ensures !EndsWithIgnoringCase(name, from) ==> r == name
  {
    if EndsWithIgnoringCase(name, from) then name[..|name| - |from|] + to else name
  }

  /** A file name under the product image directory. */
  function UnderProducts(name: string): (r: string)
    ensures IsPrefix(ProductsDir, r) && r[|ProductsDir|..] == name
  {
    ProductsDir + name
  }

  /** The four addresses `handleHiFoodImgError` tries, in order: the name
      with an '@' prefix, its ".png" twin, its ".jpg" twin, the placeholder. */
  function ImageCandidates(originalUrl: string): (c: seq<string>)
    ensures |c| == 4
    ensures IsPrefix(ProductsDir, c[0]) && IsPrefix(ProductsDir, c[1])
            && IsPrefix(ProductsDir, c[2]) && IsPrefix(ProductsDir, c[3])
    ensures c[0][|ProductsDir|..] == "@" + StripAt(LastSegment(originalUrl))
    ensures c[1][|ProductsDir|..] == SwapExtension(StripAt(LastSegment(originalUrl)), ".jpg", ".png")
    ensures c[2][|ProductsDir|..] == SwapExtension(StripAt(LastSegment(originalUrl)), ".png", ".jpg")
    ensures c[3][|ProductsDir|..] == PlaceholderName
  {
    var base := StripAt(LastSegment(originalUrl));
    [UnderProducts("@" + base),
     UnderProducts(SwapExtension(base, ".jpg", ".png")),
     UnderProducts(SwapExtension(base, ".png", ".jpg")),
     UnderProducts(PlaceholderName)]
  }

  /** A ".jpg" name becomes its ".png" twin under the first swap and stays
      as it is under the second. */
  lemma JpgSwaps(base: string)
    requires |base| >= 4 && base[|base| - 4..] == ".jpg"
    ensures SwapExtension(base, ".jpg", ".png") == base[..|base| - 4] + ".png"
    ensures SwapExtension(base, ".png", ".jpg") == base
  {
    var n := |base| - 4;
    assert base[n] == '.' && base[n + 1] == 'j' && base[n + 2] == 'p' && base[n + 3] == 'g' by {
      assert base[n..][0] == '.' && base[n..][1] == 'j' && base[n..][2] == 'p' && base[n..][3] == 'g';
    }
    assert EndsWithIgnoringCase(base, ".jpg");
    assert LowerChar(base[n + 1]) != ".png"[1];
  }

  /** For a ".jpg" image the second try is its ".png" twin and the third is
      the plain name again. */
  lemma JpgCandidates(originalUrl: string)
    requires var base := StripAt(LastSegment(originalUrl));
             |base| >= 4 && base[|base| - 4..] == ".jpg"
    ensures var base := StripAt(LastSegment(originalUrl));
            var c := ImageCandidates(originalUrl);
            c[1][|ProductsDir|..] == base[..|base| - 4] + ".png" && c[2][|ProductsDir|..] == base
  {
    JpgSwaps(StripAt(LastSegment(originalUrl)));
  }

  /** `withoutQuery`: the address with a `?v=<now>` query that defeats the
      browser cache. */
  function CacheBusted(url: string, now: nat): (r: string)
    ensures |r| > |url| && r[..|url|] == url && r[|url|] == '?'
  {
    url + "?v=" + NatToString(now)
  }

  /** The `<img>` element whose `onerror` runs the fallback: its address,
      its `data-tried` counter and whether the handler is still attached. */
  class ProductImage {
    var src: string
    var tried: nat
    var retrying: bool

    constructor (src0: string)
      ensures src == src0 && tried == 0 && retrying
    {
      src, tried, retrying := src0, 0, true;
    }

    /** `handleHiFoodImgError`: try the next candidate with a cache-busting
        query, or detach the handler once all four were tried. */
    method HandleError(originalUrl: string, now: nat)
      modifies this
      ensures old(tried) < 4 ==>
                src == CacheBusted(ImageCandidates(originalUrl)[old(tried)], now)
                && tried == old(tried) + 1 && retrying == old(retrying)
      ensures old(tried) >= 4 ==> !retrying && src == old(src) && tried == old(tried)
      ensures old(tried) <= 4 ==> tried <= 4
    {
      var candidates := ImageCandidates(originalUrl);
      if tried < |candidates| {
        src := CacheBusted(candidates[tried], now);
        tried := tried + 1;
      } else {
        retrying := false;
      }
    }
  }

  // ------------------------------------------------- menu filter and sort

  /** The menu filter for a lower-cased, trimmed search text. */
  predicate Shown(p: Product, text: string, category: string)
  {
    (category == "" || p.category == category) && Contains(Lower(p.name), text)
  }

  predicate InOrder(a: Product, b: Product, ascending: bool)
  {
    if ascending then a.price <= b.price else a.price >= b.price
  }

  predicate SortedByPrice(s: seq<Product>, ascending: bool)
  {
    forall i, j :: 0 <= i < j < |s| ==> InOrder(s[i], s[j], ascending)
  }

  /** Put `x` before the first element it may precede. */
  function Insert(x: Product, s: seq<Product>, ascending: bool): (r: seq<Product>)
    ensures |r| == |s| + 1
  {
    if s == [] || InOrder(x, s[0], ascending) then [x] + s
    else [s[0]] + Insert(x, s[1..], ascending)
  }

  /** Insertion adds `x` and loses nothing. */
  lemma {:induction false} InsertPermutes(x: Product, s: seq<Product>, ascending: bool)
    ensures multiset(Insert(x, s, ascending)) == multiset(s) + multiset{x}
  {
    if s != [] && !InOrder(x, s[0], ascending) {
      InsertPermutes(x, s[1..], ascending);
      assert s == [s[0]] + s[1..];
    }
  }

  /** Inserting into a sorted list keeps it sorted. */
  lemma {:induction false} InsertSorted(x: Product, s: seq<Product>, ascending: bool)
    requires SortedByPrice(s, ascending)
    ensures SortedByPrice(Insert(x, s, ascending), ascending)
  {
    if s != [] && !InOrder(x, s[0], ascending) {
      var rest := Insert(x, s[1..], ascending);
      InsertSorted(x, s[1..], ascending);
      InsertPermutes(x, s[1..], ascending);
      forall y | y in rest
        ensures InOrder(s[0], y, ascending)
      {
        assert y in multiset(rest);
        if y != x {
          assert y in multiset(s[1..]);
          var k :| 0 <= k < |s[1..]| && s[1..][k] == y;
          assert s[k + 1] == y;
        }
      }
      assert Insert(x, s, ascending) == [s[0]] + rest;
    }
  }

  /** `arr.sort((a, b) => a.price - b.price)` and its descending mirror. */
  function SortByPrice(s: seq<Product>, ascending: bool): (r: seq<Product>)
    ensures SortedByPrice(r, ascending)
    ensures multiset(r) == multiset(s)
  {
    if s == [] then [] else
      assert s == [s[0]] + s[1..];
      var rest := SortByPrice(s[1..], ascending);
      InsertSorted(s[0], rest, ascending);
      InsertPermutes(s[0], rest, ascending);
      Insert(s[0], rest, ascending)
  }

  function PricedAt(v: int): Product -> bool
  {
    (p: Product) => p.price == v
  }

  /** Insertion puts `x` ahead of the elements of its own price, keeping
      theirs in order. */
  lemma {:induction false} InsertStable(x: Product, s: seq<Product>, ascending: bool, v: int)
    ensures Filter(Insert(x, s, ascending), PricedAt(v)) == (if x.price == v then [x] else []) + Filter(s, PricedAt(v))
  {
    var p := PricedAt(v);
    if s == [] || InOrder(x, s[0], ascending) {
      assert Insert(x, s, ascending) == [x] + s;
      FilterCons(x, s, p);
    } else {
      var y, rest := s[0], s[1..];
      var ins := Insert(x, rest, ascending);
      assert Insert(x, s, ascending) == [y] + ins;
      assert s == [y] + rest;
      InsertStable(x, rest, ascending, v);
      FilterCons(y, ins, p);
      FilterCons(y, rest, p);
      if x.price == v {
        assert !p(y);
      }
    }
  }

  /** The sort is stable: the products of any one price come out in the
      order they went in, as with JavaScript's stable `Array.prototype.sort`. */
  lemma {:induction false} SortStable(s: seq<Product>, ascending: bool, v: int)
    ensures Filter(SortByPrice(s, ascending), PricedAt(v)) == Filter(s, PricedAt(v))
  {
    if s != [] {
      SortStable(s[1..], ascending, v);
      InsertStable(s[0], SortByPrice(s[1..], ascending), ascending, v);
      FilterCons(s[0], s[1..], PricedAt(v));
      assert s == [s[0]] + s[1..];
    }
  }

  lemma SortKeepsMembers(s: seq<Product>, ascending: bool)
    ensures forall p :: p in SortByPrice(s, ascending) <==> p in s
  {
    var r := SortByPrice(s, ascending);
    assert forall p :: p in r <==> p in multiset(r);
    assert forall p :: p in s <==> p in multiset(s);
  }

  function ShownIn(text: string, category: string): Product -> bool
  {
    (p: Product) => Shown(p, text, category)
  }

  /** `getFilteredSortedProducts`. */
  function FilteredSortedProducts(products: seq<Product>, search: string, category: string, sort: string): (r: seq<Product>)
    ensures forall p :: p in r <==> p in products && Shown(p, Lower(Trim(search)), category)
    ensures multiset(r) == multiset(Filter(products, ShownIn(Lower(Trim(search)), category)))
    ensures sort == "price-asc" ==> SortedByPrice(r, true)
    ensures sort == "price-desc" ==> SortedByPrice(r, false)
    ensures sort != "price-asc" && sort != "price-desc" ==> IsSubseq(r, products)
  {
    var shown := Filter(products, ShownIn(Lower(Trim(search)), category));
    SortKeepsMembers(shown, true);
    SortKeepsMembers(shown, false);
    FilterIsSubseq(products, ShownIn(Lower(Trim(search)), category));
    if sort == "price-asc" then SortByPrice(shown, true)
    else if sort == "price-desc" then SortByPrice(shown, false)
    else shown
  }

  /** The menu's price sorts keep the products of any one price in catalogue
      order. */
  lemma FilteredSortStable(products: seq<Product>, search: string, category: string, sort: string, v: int)
    ensures Filter(FilteredSortedProducts(products, search, category, sort), PricedAt(v))
            == Filter(Filter(products, ShownIn(Lower(Trim(search)), category)), PricedAt(v))
  {
    var shown := Filter(products, ShownIn(Lower(Trim(search)), category));
    SortStable(shown, true, v);
    SortStable(shown, false, v);
  }
}
