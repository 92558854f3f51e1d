/** The product card: the price it shows, the images its carousel shows, its
    short description, and the call-to-action button. */
module ProductCard {
  import opened JsValues
  import opened Catalog
  import Home

  const Placeholder: string := "/placeholder.svg"

  // ---------------------------------------------------------------- price

  /** The card's own `normalizePrice`, as written: a number stays as it is,
      text is read in the Brazilian format and anything not finite becomes 0.
      Unlike the cart's version it has no branch for a run of digits, so
      `"23450"` reads as 23450 rather than the 234.5 its comment promises. */
  function NormalizePrice(p: Price): (r: real)
    ensures p.Amount? ==> r == p.x
    ensures p.PriceText? && ParseNumber(Home.Cleaned(Trim(p.s))).Finite? ==> r == ParseNumber(Home.Cleaned(Trim(p.s))).value
    ensures p.PriceText? && !ParseNumber(Home.Cleaned(Trim(p.s))).Finite? ==> r == 0.0
  {
    match p
    case Amount(x) => x
    case PriceText(s) =>
      match ParseNumber(Home.Cleaned(Trim(s)))
      case Finite(v) => v
      case _ => 0.0
  }

  /** The card's reading and the cart's reading of a price agree on every
      price except a run of digits, which the card reads a hundred times larger. */
  lemma {:induction false} CardVersusCart(p: Price)
    ensures p.PriceText? && IsDigitRun(Trim(p.s)) ==> NormalizePrice(p) == 100.0 * Home.NormalizePrice(p)
    ensures !(p.PriceText? && IsDigitRun(Trim(p.s))) ==> NormalizePrice(p) == Home.NormalizePrice(p)
  {
    if p.PriceText? && IsDigitRun(Trim(p.s)) {
      var d := Trim(p.s);
      Home.NoPointOrCommaInDigits(d);
      assert Home.Cleaned(d) == d;
      ParseDigitRun(d);
    }
  }

  /** The discrepancy: a price sent as a non-zero count of cents is shown on
      the card as a different amount from the one the cart charges. */
  lemma {:induction false} CardReadsCentsAsUnits(d: string)
    requires IsDigitRun(d) && DigitsValue(d) > 0
    ensures NormalizePrice(PriceText(d)) == DigitsValue(d) as real
    ensures NormalizePrice(PriceText(d)) != Home.NormalizePrice(PriceText(d))
  {
    DigitNotSpace(d[0]);
    DigitNotSpace(d[|d| - 1]);
    TrimKeepsUntrimmed(d);
    CardVersusCart(PriceText(d));
    var cart := Home.NormalizePrice(PriceText(d));
    assert cart * 100.0 == DigitsValue(d) as real;
    assert NormalizePrice(PriceText(d)) == 100.0 * cart;
  }

  /** The price line: shown only when the product asks for it, as the
      formatted amount of the price read by the card's own `NormalizePrice`.
      It agrees with the cart's reading on every price except a run of digits
      (see `CardReadsCentsAsUnits`). `fmt` stands for the `pt-BR` currency format. */
  function PriceLabel(showPrice: bool, p: Price, fmt: real -> string): (shown: Option<string>)
    ensures shown.Some? <==> showPrice
    ensures shown.Some? ==> shown.value == fmt(NormalizePrice(p))
    ensures !(p.PriceText? && IsDigitRun(Trim(p.s))) && shown.Some? ==> shown.value == fmt(Home.NormalizePrice(p))
  {
    CardVersusCart(p);
    if showPrice then Some(fmt(NormalizePrice(p))) else None
  }

  /** The price line with the cents branch the card's comment promises: it
      shows the amount the cart charges. Only a price written as a run of
      digits can make it differ from the line as written. */
  function CorrectedPriceLabel(showPrice: bool, p: Price, fmt: real -> string): (shown: Option<string>)
    ensures shown.Some? <==> showPrice
    ensures shown.Some? ==> shown.value == fmt(Home.NormalizePrice(p))
  {
    if showPrice then Some(fmt(Home.NormalizePrice(p))) else None
  }

  /** The two labels agree on every price that is not a run of digits. */
  lemma {:induction false} LabelsAgreeOffCents(showPrice: bool, p: Price, fmt: real -> string)
    requires !(p.PriceText? && IsDigitRun(Trim(p.s)))
    ensures PriceLabel(showPrice, p, fmt) == CorrectedPriceLabel(showPrice, p, fmt)
  {
    CardVersusCart(p);
  }

  // ---------------------------------------------------------------- images

  /** The sources of a list of images in order, empty ones dropped. */
  function SrcsOf(images: seq<Image>): (srcs: seq<string>)
    ensures |srcs| <= |images|
    ensures forall k :: 0 <= k < |srcs| ==> srcs[k] != ""
    ensures forall x {:trigger x in srcs} :: x in srcs <==> x != "" && exists k :: 0 <= k < |images| && SrcOf(images[k]) == x
  {
    if images == [] then []
    else
      var rest := SrcsOf(images[1..]);
      assert forall x {:trigger x in rest} :: x in rest <==> x != "" && exists k :: 1 <= k < |images| && SrcOf(images[k]) == x by {
        forall x ensures x in rest <==> x != "" && exists k :: 1 <= k < |images| && SrcOf(images[k]) == x {
          if x in rest {
            var j :| 0 <= j < |images[1..]| && SrcOf(images[1..][j]) == x;
            assert SrcOf(images[j + 1]) == x;
          }
          if x != "" && exists k :: 1 <= k < |images| && SrcOf(images[k]) == x {
            var k :| 1 <= k < |images| && SrcOf(images[k]) == x;
            assert SrcOf(images[1..][k - 1]) == x;
          }
        }
      }
      (if SrcOf(images[0]) == "" then [] else [SrcOf(images[0])]) + rest
  }

  /** Listing the sources keeps the order of the images. */
  lemma {:induction false} SrcsOfConcat(a: seq<Image>, b: seq<Image>)
    ensures SrcsOf(a + b) == SrcsOf(a) + SrcsOf(b)
  {
    if a == [] {
      assert a + b == b;
    } else {
      assert (a + b)[1..] == a[1..] + b;
      assert (a + b)[0] == a[0];
      SrcsOfConcat(a[1..], b);
    }
  }

  /** The card's list of image sources: the URL of each image, empty ones
      dropped, and none when the product has no images. */
  function ToSrcs(images: Option<seq<Image>>): (srcs: seq<string>)
    ensures images.None? ==> srcs == []
    ensures images.Some? ==> srcs == SrcsOf(images.value)
  {
    match images
    case None => []
    case Some(list) => SrcsOf(list)
  }

  /** `showImages`: the sources, or the placeholder alone when there are none.
      The carousel is never empty and never shows an empty source. */
  function ShowImages(images: Option<seq<Image>>): (shown: seq<string>)
    ensures shown != []
    ensures forall k :: 0 <= k < |shown| ==> shown[k] != ""
    ensures ToSrcs(images) != [] ==> shown == ToSrcs(images)
  {
    var srcs := ToSrcs(images);
    if |srcs| > 0 then srcs else [Placeholder]
  }

  /** The carousel shows the placeholder alone exactly when there is no image
      source, or when the only source is the placeholder itself. */
  lemma PlaceholderOnly(images: Option<seq<Image>>)
    ensures ShowImages(images) == [Placeholder] <==> ToSrcs(images) == [] || ToSrcs(images) == [Placeholder]
  {
  }

  /** Only images with a non-empty source reach the carousel. */
  lemma {:induction false} OnlyRealSources(images: seq<Image>)
    requires forall k :: 0 <= k < |images| ==> SrcOf(images[k]) == ""
    ensures SrcsOf(images) == []
    ensures ShowImages(Some(images)) == [Placeholder]
  {
    if images != [] {
      OnlyRealSources(images[1..]);
    }
  }

  /** The cart line's thumbnail (`firstImage`) is the card's first slide
      whenever the first image has a non-empty source. */
  lemma {:induction false} ThumbnailIsFirstSlide(images: Option<seq<Image>>)
    requires Home.FirstImage(images).Some? && Home.FirstImage(images).value != ""
    ensures ShowImages(images)[0] == Home.FirstImage(images).value
  {
    var list := images.value;
    assert list == [list[0]] + list[1..];
    SrcsOfConcat([list[0]], list[1..]);
    assert SrcsOf([list[0]]) == [SrcOf(list[0])] by {
      assert [list[0]][1..] == [];
    }
  }

  // ---------------------------------------------------------------- text and button

  /** The short text: the SEO description when there is one, else the plain
      description, and nothing when the chosen text is empty.
      A present but empty SEO description hides the plain description. */
  function Blurb(seoDescription: Option<string>, description: Option<string>): (blurb: Option<string>)
    ensures blurb.Some? ==> blurb.value != ""
    ensures blurb.Some? ==> blurb == seoDescription || (seoDescription.None? && blurb == description)
    ensures blurb.None? <==> (seoDescription.Some? && seoDescription.value == "")
                             || (seoDescription.None? && (description.None? || description.value == ""))
  {
    var chosen := if seoDescription.Some? then seoDescription else description;
    if chosen.Some? && chosen.value != "" then chosen else None
  }

  /** The button's label: ordering for the ready catalog, a quote request otherwise. */
  function CtaLabel(variant: Variant): (text: string)
    ensures text == "Fazer pedido" <==> variant == Ready
    ensures variant == Imported <==> text == "Solicitar orçamento"
  {
    assert "Fazer pedido"[0] != "Solicitar orçamento"[0];
    match variant
    case Ready => "Fazer pedido"
    case Imported => "Solicitar orçamento"
  }

  /** The button is disabled only for a product explicitly marked inactive. */
  function CtaDisabled(active: Option<bool>): (disabled: bool)
    ensures disabled <==> active == Some(false)
    ensures active.None? ==> !disabled
  {
    match active
    case Some(a) => !a
    case None => false
  }

  /** A click on the button: the product goes to `onCta` unless the button
      is disabled. */
  function Click(product: Product): (handed: Option<Product>)
    ensures handed.Some? <==> product.active != Some(false)
    ensures handed.Some? ==> handed.value == product
  {
    if CtaDisabled(product.active) then None else Some(product)
  }
}
