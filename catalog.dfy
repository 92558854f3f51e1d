/** The product record the catalog backend sends to the storefront. Numeric
    fields arrive as JSON numbers, so a numeric id or price is always finite. */
module Catalog {
  import opened JsValues

  /** The two catalogs: ready-to-ship ("ready") and imported ("imported"). */
  datatype Variant = Ready | Imported

  /** An image reference: a bare URL string, or an object carrying one. */
  datatype Image = UrlText(src: string) | ImageObject(url: string, alt: Option<string>)

  /** A product id is a number or a string. */
  datatype ProductId = NumberId(n: real) | StringId(s: string)

  /** A price is a number or a string the normalisers have to read. */
  datatype Price = Amount(x: real) | PriceText(s: string)

  datatype Product = Product(
    id: ProductId,
    sku: string,
    name: string,
    description: Option<string>,
    seoDescription: Option<string>,
    images: Option<seq<Image>>,
    price: Price,
    active: Option<bool>)

  /** `Number(product.id)`: a number stays itself, a string is parsed. */
  function IdNumber(id: ProductId): (n: Num)
    ensures id.NumberId? ==> n == Finite(id.n)
    ensures id.StringId? && IsDigitRun(Trim(id.s)) ==> n == Finite(DigitsValue(Trim(id.s)) as real)
  {
    match id
    case NumberId(x) => Finite(x)
    case StringId(s) => ParseNumber(s)
  }

  /** What an image contributes as a `src`: the string itself or its `url`. */
  function SrcOf(im: Image): (src: string)
    ensures im.UrlText? ==> src == im.src
    ensures im.ImageObject? ==> src == im.url
  {
    match im
    case UrlText(s) => s
    case ImageObject(u, _) => u
  }
}
