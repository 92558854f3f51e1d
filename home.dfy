/** The home page: it loads the catalog of the selected tab, turns a product
    into a cart line when the customer asks for it, keeps the cart drawer's
    items, and hands the cart over to the checkout page. */
module Home {
  import opened JsValues
  import opened Catalog
  import opened Cart

  // ---------------------------------------------------------------- catalog response

  /** What `listProducts` may resolve to: a bare array, or an object that may
      carry an `items` array, or nothing usable. */
  datatype ListResponse = PlainList(list: seq<Product>) | Paged(items: Option<seq<Product>>) | NoResponse

  /** The products of a catalog response: a bare array is used as it is, an
      object gives its `items` array, and anything else gives no products. */
  function ResponseItems(resp: ListResponse): (products: seq<Product>)
    ensures resp.PlainList? ==> products == resp.list
    ensures resp.Paged? && resp.items.Some? ==> products == resp.items.value
    ensures resp.NoResponse? || resp == Paged(None) ==> products == []
  {
    match resp
    case PlainList(list) => list
    case Paged(Some(list)) => list
    case Paged(None) => []
    case NoResponse => []
  }

  // ---------------------------------------------------------------- product to cart line

  /** `firstImage`: the first image's URL, when the first image is truthy (an
      empty string is not; an object always is). */
  function FirstImage(images: Option<seq<Image>>): (r: Option<string>)
    ensures r.Some? ==> images.Some? && images.value != [] && r.value == SrcOf(images.value[0])
    ensures r.None? <==> images.None? || images.value == [] || images.value[0] == UrlText("")
  {
    match images
    case None => None
    case Some(list) =>
      if list == [] then None
      else match list[0]
        case UrlText(s) => if s == "" then None else Some(s)
        case ImageObject(u, _) => Some(u)
  }

  /** A run of digits read as a count of cents. */
  function CentsValue(raw: string): (r: real)
    requires IsDigitRun(raw)
    ensures r * 100.0 == DigitsValue(raw) as real
  {
    ParseDigitRun(raw);
    ParseNumber(raw).value / 100.0
  }

  /** The text a non-cents price becomes before `Number()` reads it: thousands
      dots dropped, the first decimal comma turned into a point. */
  function Cleaned(raw: string): (cleaned: string)
    ensures '.' !in raw && ',' !in raw ==> cleaned == raw
    ensures |cleaned| <= |raw|
  {
    ReplaceFirst(RemoveAll(raw, '.'), ',', '.')
  }

  /** The cart's `normalizePrice`: a number stays as it is; text that is only
      digits counts cents; other text is read in the Brazilian format, and
      anything `Number()` does not read as finite becomes 0. */
  function NormalizePrice(p: Price): (r: real)
    ensures p.Amount? ==> r == p.x
    ensures p.PriceText? && IsDigitRun(Trim(p.s)) ==> r * 100.0 == DigitsValue(Trim(p.s)) as real
    ensures p.PriceText? && !IsDigitRun(Trim(p.s)) && ParseNumber(Cleaned(Trim(p.s))).Finite? ==>
      r == ParseNumber(Cleaned(Trim(p.s))).value
    ensures p.PriceText? && !IsDigitRun(Trim(p.s)) && !ParseNumber(Cleaned(Trim(p.s))).Finite? ==> r == 0.0
  {
    match p
    case Amount(x) => x
    case PriceText(s) =>
      var raw := Trim(s);
      if IsDigitRun(raw) then CentsValue(raw)
      else
        match ParseNumber(Cleaned(raw))
        case Finite(v) => v
        case _ => 0.0
  }

  lemma {:induction false} NoPointOrCommaInDigits(a: string)
    requires IsDigits(a)
    ensures '.' !in a && ',' !in a
  {
  }

  /** `a + "," + b` is already trimmed and is not a run of digits. */
  lemma {:induction false} CommaFormShape(a: string, b: string)
    requires IsDigitRun(a) && IsDigits(b)
    ensures Trim(a + "," + b) == a + "," + b
    ensures !IsDigitRun(a + "," + b)
  {
    var s := a + "," + b;
    assert s[0] == a[0];
    DigitNotSpace(a[0]);
    assert s[|s| - 1] == (if b == [] then ',' else b[|b| - 1]);
    if b != [] {
      DigitNotSpace(b[|b| - 1]);
    }
    TrimKeepsUntrimmed(s);
    assert s[|a|] == ',';
  }

  /** Cleaning `a + "," + b` gives `a + "." + b`. */
  lemma {:induction false} CleanedCommaForm(a: string, b: string)
    requires IsDigits(a) && IsDigits(b)
    ensures Cleaned(a + "," + b) == a + "." + b
  {
    NoPointOrCommaInDigits(a);
    NoPointOrCommaInDigits(b);
    var s := a + [','] + b;
    assert '.' !in s;
    assert RemoveAll(s, '.') == s;
    ReplaceFirstAfter(a, ',', '.', b);
  }

  /** A price written with a decimal comma, `"234,50"`, is read as `234.50`. */
  lemma {:induction false} CommaPrice(a: string, b: string)
    requires IsDigitRun(a) && IsDigits(b)
    ensures NormalizePrice(PriceText(a + "," + b)) == DecimalOf(a, b)
  {
    CommaFormShape(a, b);
    CleanedCommaForm(a, b);
    ParseDecimalPoint(a, b);
  }

  /** `a + "." + b + "," + c` is already trimmed and is not a run of digits. */
  lemma {:induction false} ThousandsFormShape(a: string, b: string, c: string)
    requires IsDigitRun(a) && IsDigitRun(b) && IsDigits(c)
    ensures Trim(a + "." + b + "," + c) == a + "." + b + "," + c
    ensures !IsDigitRun(a + "." + b + "," + c)
  {
    var s := a + "." + b + "," + c;
    assert s[0] == a[0];
    DigitNotSpace(a[0]);
    assert s[|s| - 1] == (if c == [] then ',' else c[|c| - 1]);
    if c != [] {
      DigitNotSpace(c[|c| - 1]);
    }
    TrimKeepsUntrimmed(s);
    assert s[|a|] == '.';
  }

  /** Dropping the thousands dot of `a + "." + b + "," + c` gives `(a + b) + "," + c`. */
  lemma {:induction false} ThousandsDotDropped(a: string, b: string, c: string)
    requires IsDigitRun(a) && IsDigitRun(b) && IsDigits(c)
    ensures RemoveAll(a + "." + b + "," + c, '.') == (a + b) + "," + c
  {
    NoPointOrCommaInDigits(a);
    NoPointOrCommaInDigits(b);
    NoPointOrCommaInDigits(c);
    var rest := b + [','] + c;
    assert '.' !in rest;
    assert a + "." + b + "," + c == a + ['.'] + rest;
    RemoveAllAround(a, '.', rest);
    assert a + rest == (a + b) + "," + c;
  }

  /** Cleaning `a + "." + b + "," + c` gives `(a + b) + "." + c`. */
  lemma {:induction false} ThousandsCleaned(a: string, b: string, c: string)
    requires IsDigitRun(a) && IsDigitRun(b) && IsDigits(c)
    ensures IsDigitRun(a + b)
    ensures Cleaned(a + "." + b + "," + c) == (a + b) + "." + c
  {
    DigitsConcat(a, b);
    ThousandsDotDropped(a, b, c);
    CleanedCommaForm(a + b, c);
  }

  /** A price with a thousands dot and a decimal comma, `"1.234,50"`, is read
      as `1234.50`. */
  lemma {:induction false} ThousandsPrice(a: string, b: string, c: string)
    requires IsDigitRun(a) && IsDigitRun(b) && IsDigits(c)
    ensures IsDigitRun(a + b)
    ensures NormalizePrice(PriceText(a + "." + b + "," + c)) == DecimalOf(a + b, c)
  {
    ThousandsFormShape(a, b, c);
    ThousandsCleaned(a, b, c);
    ParseDecimalPoint(a + b, c);
  }

  /** Two digits after the comma are hundredths. */
  lemma {:induction false} TwoDigitCents(a: string, b: string)
    requires IsDigitRun(a) && IsDigits(b) && |b| == 2
    ensures IsDigitRun(a + b)
    ensures DigitsValue(a + b) == DigitsValue(a) * 100 + DigitsValue(b)
    ensures DecimalOf(a, b) == DigitsValue(a) as real + DigitsValue(b) as real / 100.0
  {
    DigitsValueConcat(a, b);
    assert Pow10(|b|) == 100 by { assert Pow10(2) == 10 * Pow10(1); }
  }

  /** The two spellings the code's own comment gives for one price agree:
      `"23450"` (cents) and `"234,50"` (decimal comma) are the same amount. */
  lemma {:induction false} CentsAgreeWithComma(a: string, b: string)
    requires IsDigitRun(a) && IsDigits(b) && |b| == 2
    ensures IsDigitRun(a + b)
    ensures NormalizePrice(PriceText(a + b)) == NormalizePrice(PriceText(a + "," + b))
  {
    TwoDigitCents(a, b);
    CentsReading(a + b);
    CommaPrice(a, b);
    Hundredths(NormalizePrice(PriceText(a + b)), DigitsValue(a), DigitsValue(b));
  }

  /** A run of digits, as a price, is read as a count of cents. */
  lemma {:induction false} CentsReading(s: string)
    requires IsDigitRun(s)
    ensures NormalizePrice(PriceText(s)) * 100.0 == DigitsValue(s) as real
  {
    DigitNotSpace(s[0]);
    DigitNotSpace(s[|s| - 1]);
    TrimKeepsUntrimmed(s);
  }

  lemma {:induction false} Hundredths(cents: real, va: int, vb: int)
    requires cents * 100.0 == (va * 100 + vb) as real
    ensures cents == va as real + vb as real / 100.0
  {
    assert (va * 100 + vb) as real == va as real * 100.0 + vb as real;
  }

  /** Text that does not start like a number (no digit, sign or `Infinity`
      in front) and has no point or comma reads as 0. */
  lemma {:induction false} NoNumberIsZero(s: string)
    requires s != [] && !IsSpace(s[0]) && !IsSpace(s[|s| - 1])
    requires !IsDigit(s[0]) && s[0] != '+' && s[0] != '-' && s[0] != 'I'
    requires '.' !in s && ',' !in s
    ensures NormalizePrice(PriceText(s)) == 0.0
  {
    assert Trim(s) == s by { TrimKeepsUntrimmed(s); }
    assert !IsDigitRun(s);
    assert Cleaned(s) == s;
    assert ParseTrimmed(s) == NaN by {
      assert s != "Infinity" && s != "+Infinity" && s != "-Infinity" by {
        assert "Infinity"[0] == 'I' && "+Infinity"[0] == '+' && "-Infinity"[0] == '-';
      }
      assert FindFirst(s, '.') == None;
    }
  }

  // ---------------------------------------------------------------- adding to the cart

  /** The line a product first becomes: one unit, the normalised price, the
      first image. */
  function NewLine(product: Product): (item: CartItem)
    ensures item.qty == 1
    ensures item.id == IdNumber(product.id)
    ensures item.price == NormalizePrice(product.price) && item.image == FirstImage(product.images)
    ensures item.name == product.name && item.sku == product.sku
  {
    CartItem(IdNumber(product.id), product.name, product.sku, NormalizePrice(product.price), 1, FirstImage(product.images))
  }

  /** The updater `addToCartAndOpen` applies: one more unit of a product that
      is already in the cart, or a new line at the end. */
  function AddedToCart(items: seq<CartItem>, product: Product): (r: seq<CartItem>)
    ensures |items| <= |r| <= |items| + 1
    ensures r[..|items|] == items || |r| == |items|
  {
    var pid := IdNumber(product.id);
    if FindItem(items, pid).Some? then Incremented(items, pid)
    else items + [NewLine(product)]
  }

  /** A product that is not in the cart yet is appended, everything before it
      untouched. */
  lemma {:induction false} AddNewProduct(items: seq<CartItem>, product: Product)
    requires forall k :: 0 <= k < |items| ==> !Matches(items[k], IdNumber(product.id))
    ensures AddedToCart(items, product) == items + [NewLine(product)]
    ensures Subtotal(AddedToCart(items, product)) == Subtotal(items) + NormalizePrice(product.price)
  {
    var line := NewLine(product);
    SubtotalConcat(items, [line]);
    SubtotalOfOne(line);
  }

  /** A product already in the cart (ids unique) gains one unit on its line and
      nothing else changes; the line keeps the price it was added with. */
  lemma {:induction false} AddExistingProduct(items: seq<CartItem>, product: Product, k: nat)
    requires UniqueIds(items)
    requires k < |items| && Matches(items[k], IdNumber(product.id))
    ensures AddedToCart(items, product) == items[k := items[k].(qty := items[k].qty + 1)]
    ensures Subtotal(AddedToCart(items, product)) == Subtotal(items) + items[k].price
  {
    assert FindItem(items, IdNumber(product.id)).Some?;
    UpdatedAt(items, IdNumber(product.id), k);
    SubtotalAfterIncrement(items, IdNumber(product.id), k);
  }

  /** Adding keeps the ids unique and every quantity at least 1. */
  lemma {:induction false} AddKeepsInvariants(items: seq<CartItem>, product: Product)
    requires UniqueIds(items) && QtyAtLeastOne(items)
    ensures UniqueIds(AddedToCart(items, product)) && QtyAtLeastOne(AddedToCart(items, product))
  {
    var pid := IdNumber(product.id);
    match FindItem(items, pid)
    case Some(_) =>
      IncrementKeepsInvariants(items, pid);
    case None =>
      var r := items + [NewLine(product)];
      forall i, j | 0 <= i < j < |r| ensures !StrictEq(r[i].id, r[j].id) {
        if j < |items| {
          assert r[i] == items[i] && r[j] == items[j];
        } else {
          assert r[i] == items[i] && !Matches(items[i], pid);
        }
      }
  }

  /** A product whose id does not read as a number (`Number(id)` is NaN) never
      matches a line: every add appends a fresh line, and no `inc`, `dec` or
      `remove` with that id reaches any line. */
  lemma {:induction false} NaNIdNeverMatches(items: seq<CartItem>, product: Product)
    requires IdNumber(product.id) == NaN
    ensures AddedToCart(items, product) == items + [NewLine(product)]
    ensures Incremented(items, NaN) == items && Decremented(items, NaN) == items && Removed(items, NaN) == items
  {
    assert forall k :: 0 <= k < |items| ==> !Matches(items[k], NaN);
    AbsentIdIsNoOp(items, NaN);
  }

  // ---------------------------------------------------------------- the page

  /** What the home page passes to the checkout route: the cart and the tab. */
  datatype Handoff = Handoff(items: seq<CartItem>, variant: Variant)

  class HomePage {
    var items: seq<CartItem>
    var open: bool
    var variant: Variant
    var data: seq<Product>
    /** The `cart_items` entry of local storage, as JSON-free values. */
    var saved: Option<seq<CartItem>>

    ghost predicate Valid()
      reads this
    {
      UniqueIds(items) && QtyAtLeastOne(items)
    }

    /** The page mounts with a closed drawer, an empty cart, the "imported"
        tab and no products. */
    constructor(saved: Option<seq<CartItem>>)
      ensures Valid()
      ensures items == [] && !open && variant == Imported && data == []
      ensures this.saved == saved
    {
      items := [];
      open := false;
      variant := Imported;
      data := [];
      this.saved := saved;
    }

    /** Switching tabs. */
    method SelectTab(v: Variant)
      modifies this
      ensures variant == v
      ensures items == old(items) && open == old(open) && data == old(data) && saved == old(saved)
    {
      variant := v;
    }

    /** The loading effect's completion: whatever shape the response has,
        the grid receives an array. */
    method ReceiveProducts(resp: ListResponse)
      modifies this
      ensures data == ResponseItems(resp)
      ensures items == old(items) && open == old(open) && variant == old(variant) && saved == old(saved)
    {
      data := ResponseItems(resp);
    }

    method AddToCartAndOpen(product: Product)
      requires Valid()
      modifies this
      ensures Valid()
      ensures items == AddedToCart(old(items), product)
      ensures open
      ensures variant == old(variant) && data == old(data) && saved == old(saved)
    {
      AddKeepsInvariants(items, product);
      items := AddedToCart(items, product);
      open := true;
    }

    method Inc(id: Num)
      requires Valid()
      modifies this
      ensures Valid()
      ensures items == Incremented(old(items), id)
      ensures open == old(open) && variant == old(variant) && data == old(data) && saved == old(saved)
    {
      IncrementKeepsInvariants(items, id);
      items := Incremented(items, id);
    }

    method Dec(id: Num)
      requires Valid()
      modifies this
      ensures Valid()
      ensures items == Decremented(old(items), id)
      ensures open == old(open) && variant == old(variant) && data == old(data) && saved == old(saved)
    {
      DecrementKeepsInvariants(items, id);
      items := Decremented(items, id);
    }

    method Remove(id: Num)
      requires Valid()
      modifies this
      ensures Valid()
      ensures items == Removed(old(items), id)
      ensures open == old(open) && variant == old(variant) && data == old(data) && saved == old(saved)
    {
      RemovedLeavesNoMatch(items, id);
      RemovedKeepsUnique(items, id);
      items := Removed(items, id);
    }

    /** The drawer's `onOpenChange`. */
    method SetOpen(v: bool)
      modifies this
      ensures open == v
      ensures items == old(items) && variant == old(variant) && data == old(data) && saved == old(saved)
    {
      open := v;
    }

    /** `onCheckout`: the cart is saved, the drawer closes, and the cart and
        the tab go to the checkout route. */
    method OnCheckout() returns (handoff: Handoff)
      modifies this
      ensures handoff == Handoff(old(items), old(variant))
      ensures saved == Some(old(items)) && !open
      ensures items == old(items) && variant == old(variant) && data == old(data)
    {
      saved := Some(items);
      open := false;
      handoff := Handoff(items, variant);
    }
  }
}
