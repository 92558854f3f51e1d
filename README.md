# BM Imports storefront: cart, catalog grid, product card and checkout

This project models the storefront core of the BM Imports catalogue client in
Dafny and proves properties of that model. The core has four parts:

- **Product grid** (`ProductsGrid`). It splits the product list into pages and
  keeps the current page in range. It also builds the page bar: the page
  numbers with `"..."` markers at the gaps.
- **Home page** (`Home`). It loads the catalogue of the selected tab and turns
  a product into a cart line. Prices arrive as numbers or as Brazilian-format
  text, and the page normalises them. It keeps the cart drawer's items, applies
  `inc`, `dec` and `remove`, and hands the cart to the checkout page.
- **Product card** (`ProductCard`). It shows the price, the carousel images,
  the short description and the call-to-action button.
- **Checkout page** (`Checkout`). It starts from the handed-over cart or the
  saved copy and collects the customer's details. It then composes the order
  e-mail: the subject, and a body of lines joined by newlines.

Two shared modules support them:

- `Cart` holds the cart line and the updaters both pages use (`inc`, `dec`,
  `remove`, the subtotal).
- `JsValues` states the JavaScript built-ins the code relies on, over Dafny
  values: `Number()` on strings, `trim`, `replace`, `join`, `slice`, `===`
  with NaN, and the decimal text of an integer. It also defines `split`, which
  the code never calls, as the inverse of `join` for the round-trip lemma.

`Catalog` holds the product record the backend sends.

Modelling choices:

- A JavaScript number is a `real`, or one of the three non-finite values
  (`Num`).
- `formatBRL` / `toLocaleString("pt-BR", …)` is a parameter `fmt: real -> string`.
- Local storage is the field `saved`, holding the stored value itself.
- The React state of each page is a class whose methods are the event handlers.

## Model

| member | source | states |
|---|---|---|
| JsValues.NaNNeverEqual | src/pages/home.tsx:63 | `===` on ids: NaN equals nothing, not even itself; every other value equals itself |
| JsValues.StrictEq | src/pages/home.tsx:63 | `===` on numbers: true only for equal values, never with NaN on either side, and true for every other equal pair |
| JsValues.Trim | src/pages/home.tsx:51 | `trim()` leaves no white space at either end |
| JsValues.TrimStartDropsSpace | src/pages/home.tsx:51 | what is dropped at the front is white space only, and the rest is a suffix |
| JsValues.TrimEndDropsSpace | src/pages/home.tsx:51 | what is dropped at the back is white space only, and the rest is a prefix |
| JsValues.TrimKeepsUntrimmed | src/pages/home.tsx:51 | a string with no white space at either end is left unchanged |
| JsValues.DigitsValueConcat | src/pages/home.tsx:52 | the value of concatenated digit strings is the left value shifted by the right length, plus the right value |
| JsValues.IsDigitRun | src/pages/home.tsx:52 | `/^\d+$/`: a run of digits is non-empty and has no point, comma or minus sign |
| JsValues.FindFirst | src/pages/home.tsx:53 | `indexOf`: none exactly when absent; otherwise the position of the first occurrence |
| JsValues.FindFirstAt | src/pages/checkout.tsx:82 | an occurrence with none before it is the first one |
| JsValues.RemoveAll | src/pages/home.tsx:53 | `replace(/\./g, "")` leaves no dot, never lengthens the text, and leaves dot-free text unchanged |
| JsValues.RemoveAllConcat | src/pages/home.tsx:53 | removing every dot from a concatenation removes them from each part |
| JsValues.RemoveAllAround | src/pages/home.tsx:53 | a single dot between dot-free parts is deleted and the parts are kept |
| JsValues.ReplaceFirst | src/pages/home.tsx:53 | `replace(",", ".")` keeps the length and replaces only the first comma |
| JsValues.FindFirstAfter | src/pages/home.tsx:53 | the first comma of `a + "," + rest` is the one after `a` when `a` has none |
| JsValues.ReplaceFirstAfter | src/pages/home.tsx:53 | the first comma after a comma-free prefix becomes the point, the rest is untouched |
| JsValues.DecimalOf | src/pages/home.tsx:54 | the decimal value of `int "." frac` is at least its integer part |
| JsValues.UnsignedDecimal | src/pages/home.tsx:54 | a run of digits reads as its decimal value; every accepted literal is non-negative |
| JsValues.ParseNumber | src/pages/home.tsx:54 | `Number()` reads blank text as 0 and a run of digits (after trimming) as its value |
| JsValues.ParseTrimmed | src/pages/home.tsx:54 | the same on trimmed text |
| JsValues.ParseDigitRun | src/pages/home.tsx:52 | `Number(raw)` on a run of digits is its decimal value |
| JsValues.ParseDecimalPoint | src/pages/home.tsx:54 | `Number(a + "." + b)` on digit strings is the decimal `a.b` |
| JsValues.NatToString | src/pages/checkout.tsx:82 | the text of a natural number is a non-empty run of digits |
| JsValues.IntToString | src/pages/checkout.tsx:82 | the text of an integer: a digit run, behind a minus sign when negative (`IntToStringRoundTrip` reads it back) |
| JsValues.NatToStringValue | src/pages/checkout.tsx:82 | the digits of a natural number read back as that number |
| JsValues.IntToStringRoundTrip | src/pages/checkout.tsx:82 | `Number(`${n}`)` is `n` for every integer, negative ones included |
| JsValues.Join | src/pages/checkout.tsx:91 | joining no lines gives "", joining one line gives that line |
| JsValues.Split | src/pages/checkout.tsx:91 | the inverse of the `join` there (the code never splits): splitting always yields at least one piece |
| JsValues.SplitAtFirst | src/pages/checkout.tsx:91 | splitting stops at the first separator |
| JsValues.SplitJoin | src/pages/checkout.tsx:91 | joining separator-free lines is undone by splitting: the lines come back |
| JsValues.SliceBound | src/components/products-grid.tsx:37 | a `slice` bound is clamped into 0..length |
| JsValues.Slice | src/components/products-grid.tsx:37 | `slice(start, end)` returns at most `end - start` items, the exact infix when in range, and nothing from past the end |
| Catalog.IdNumber | src/pages/home.tsx:62 | `Number(product.id)`: a numeric id is kept; a digit string reads as its value |
| Catalog.SrcOf | src/components/product-card.tsx:47 | an image's URL: the text itself, or the object's `url` |
| Cart.FindItem | src/pages/home.tsx:63 | `find`: none exactly when no item matches; otherwise the first matching position |
| Cart.Matches | src/pages/home.tsx:80-82 | an item matches an id exactly when its id equals the id and is not NaN |
| Cart.Incremented | src/pages/home.tsx:80 | `inc`: same items in the same order; a matching item gains one unit, the others keep theirs |
| Cart.Decremented | src/pages/home.tsx:81 | `dec`: same items in the same order; a matching item loses one unit but not below 1 |
| Cart.Removed | src/pages/home.tsx:82 | `remove`: never longer, and no survivor matches the id |
| Cart.RemovedMembers | src/pages/home.tsx:82 | the survivors of `remove` are exactly the items that do not match |
| Cart.RemovedConcat | src/pages/home.tsx:82 | `remove` keeps the order: filtering a concatenation filters each part |
| Cart.OnlyMatch | src/pages/home.tsx:62-64 | with unique ids, a matching item is the only one that matches |
| Cart.SameIdsKeepUnique | src/pages/home.tsx:80-81 | an update that keeps every id in place keeps the ids unique |
| Cart.IncrementKeepsInvariants | src/pages/home.tsx:80 | `inc` keeps the ids unique and every quantity at least 1 |
| Cart.DecrementKeepsInvariants | src/pages/home.tsx:81 | `dec` keeps the ids unique and every quantity at least 1; a matched item ends with at least 1 |
| Cart.DecrementAtOneIsNoOp | src/pages/home.tsx:81 | `dec` on items already at quantity 1 changes nothing |
| Cart.AbsentIdIsNoOp | src/pages/home.tsx:80-82 | an id no item matches leaves the cart unchanged under `inc`, `dec` and `remove` |
| Cart.RemovedLeavesNoMatch | src/pages/home.tsx:82 | after `remove`, no item has that id, and all quantities stay at least 1 |
| Cart.RemovedKeepsUnique | src/pages/home.tsx:82 | `remove` keeps the ids unique |
| Cart.RemovedAt | src/pages/home.tsx:82 | with unique ids, `remove` of a present id drops exactly that item and keeps the rest in order |
| Cart.UpdatedAt | src/pages/home.tsx:80-81 | with unique ids, `inc` and `dec` change exactly the one matching item |
| Cart.Subtotal | src/pages/checkout.tsx:53 | the subtotal of an empty cart is 0 |
| Cart.LineTotal | src/pages/checkout.tsx:84 | price times quantity: not negative for non-negative inputs, the price for one unit, 0 for none |
| Cart.SubtotalNonNegative | src/pages/checkout.tsx:53 | with no negative prices or quantities, the subtotal is not negative |
| Cart.SubtotalConcat | src/pages/checkout.tsx:53 | the subtotal is additive over concatenation |
| Cart.SubtotalReplace | src/pages/checkout.tsx:53 | replacing one line changes the subtotal by the difference of the line totals |
| Cart.SubtotalAfterIncrement | src/pages/checkout.tsx:53-57 | `inc` adds the item's unit price to the subtotal |
| Cart.SubtotalAfterDecrement | src/pages/checkout.tsx:58-61 | `dec` on a line with more than one unit takes the unit price off the subtotal |
| Cart.SubtotalAfterRemove | src/pages/checkout.tsx:53-55 | `remove` takes the item's whole line total off the subtotal |
| Home.ResponseItems | src/pages/home.tsx:28 | a bare array is used as is; a paged object gives its `items`, or none; anything else gives the empty list |
| Home.FirstImage | src/pages/home.tsx:45-46 | none exactly when there is no image or the first is an empty string; otherwise the first image's URL |
| Home.CentsValue | src/pages/home.tsx:52 | a run of digits counts cents: the result times 100 is the digits' value |
| Home.Cleaned | src/pages/home.tsx:53 | cleaning never lengthens, and leaves text without points or commas unchanged |
| Home.NormalizePrice | src/pages/home.tsx:48-56 | a number is kept; a digit run is cents; other text is what `Number()` reads from its cleaned form when that is finite, and 0 otherwise |
| Home.CleanedCommaForm | src/pages/home.tsx:53 | cleaning `a,b` gives `a.b` |
| Home.CommaPrice | src/pages/home.tsx:53-55 | `"234,50"` reads as 234.50 |
| Home.ThousandsCleaned | src/pages/home.tsx:53 | cleaning `a.b,c` gives `ab.c` |
| Home.ThousandsPrice | src/pages/home.tsx:53-55 | `"1.234,50"` reads as 1234.50 |
| Home.TwoDigitCents | src/pages/home.tsx:52-54 | two digits after the comma are hundredths, matching the cents reading of the same digits |
| Home.CentsReading | src/pages/home.tsx:51-52 | a trimmed run of digits is read as cents: the price times 100 is the run's value |
| Home.CentsAgreeWithComma | src/pages/home.tsx:48 | the two spellings its comment gives (`"23450"` and `"234,50"`) normalise to the same price |
| Home.NoNumberIsZero | src/pages/home.tsx:54-55 | text that does not start like a number and has no point or comma normalises to 0 |
| Home.NewLine | src/pages/home.tsx:65-75 | a new line has one unit, the product's numeric id, name and SKU, the normalised price and the first image |
| Home.AddedToCart | src/pages/home.tsx:61-76 | adding grows the cart by at most one line, and either keeps the length or keeps every earlier line |
| Home.AddNewProduct | src/pages/home.tsx:65-75 | a product not yet in the cart is appended, and the subtotal grows by its price |
| Home.AddExistingProduct | src/pages/home.tsx:62-64 | a product already in the cart gains one unit on its line, and the subtotal grows by that line's price |
| Home.AddKeepsInvariants | src/pages/home.tsx:59-78 | adding keeps the ids unique and every quantity at least 1 |
| Home.NaNIdNeverMatches | src/pages/home.tsx:62-64 | a product whose id reads as NaN is appended every time and is out of reach of `inc`, `dec` and `remove` |
| Home.HomePage.constructor | src/pages/home.tsx:12-16 | the page starts closed, with an empty cart, the imported tab and no products |
| Home.HomePage.SelectTab | src/pages/home.tsx:96 | switching tabs changes only the tab |
| Home.HomePage.ReceiveProducts | src/pages/home.tsx:21-35 | the loaded response always becomes an array of products; nothing else changes |
| Home.HomePage.AddToCartAndOpen | src/pages/home.tsx:59-78 | the cart becomes the added cart, the drawer opens, and the cart invariant is kept |
| Home.HomePage.Inc | src/pages/home.tsx:80 | the cart becomes `inc` of it; the invariant is kept |
| Home.HomePage.Dec | src/pages/home.tsx:81 | the cart becomes `dec` of it; the invariant is kept |
| Home.HomePage.Remove | src/pages/home.tsx:82 | the cart becomes `remove` of it; the invariant is kept |
| Home.HomePage.SetOpen | src/pages/home.tsx:136 | the drawer's state is set; nothing else changes |
| Home.HomePage.OnCheckout | src/pages/home.tsx:37-41 | the cart is saved, the drawer closes, and the cart and tab are handed over |
| ProductCard.NormalizePrice | src/components/product-card.tsx:37-43 | the card's reading: a number is kept; text is what `Number()` reads from its cleaned form when that is finite, and 0 otherwise, digit runs included |
| ProductCard.CardVersusCart | src/components/product-card.tsx:37-43 | the card and the cart agree on every price except a run of digits, which the card reads 100 times larger |
| ProductCard.CardReadsCentsAsUnits | src/components/product-card.tsx:36-43 | a non-zero cents price is shown as a different amount from the one the cart charges |
| ProductCard.PriceLabel | src/components/product-card.tsx:88-94 | the price is shown exactly when asked for, formatted from the card's own reading of the price; off runs of digits that is the cart's reading too |
| ProductCard.CorrectedPriceLabel | src/components/product-card.tsx:36 | the price line with the cents reading the card's comment promises: the amount the cart charges |
| ProductCard.LabelsAgreeOffCents | src/components/product-card.tsx:37-43 | the price line as written and the corrected one agree on every price that is not a run of digits |
| ProductCard.SrcsOf | src/components/product-card.tsx:46-47 | the sources are non-empty, no more than the images, and exactly the non-empty image URLs |
| ProductCard.SrcsOfConcat | src/components/product-card.tsx:46-47 | listing sources keeps the order of the images |
| ProductCard.ToSrcs | src/components/product-card.tsx:46-47 | absent images give no sources |
| ProductCard.ShowImages | src/components/product-card.tsx:51-52 | the carousel is never empty, never shows an empty source, and shows the sources when there are any |
| ProductCard.PlaceholderOnly | src/components/product-card.tsx:52 | the placeholder alone is shown exactly when there is no source, or the only source is the placeholder |
| ProductCard.OnlyRealSources | src/components/product-card.tsx:47-52 | images that all have empty URLs give the placeholder alone |
| ProductCard.ThumbnailIsFirstSlide | src/components/product-card.tsx:51-52 | the cart thumbnail, when non-empty, is the card's first slide |
| ProductCard.Blurb | src/components/product-card.tsx:97-101 | the SEO description wins when present, even if empty; nothing is shown for empty text |
| ProductCard.CtaLabel | src/components/product-card.tsx:50 | "Fazer pedido" exactly for the ready catalogue, "Solicitar orçamento" otherwise |
| ProductCard.CtaDisabled | src/components/product-card.tsx:109 | the button is disabled only by an explicit `active: false` |
| ProductCard.Click | src/components/product-card.tsx:109-110 | a click hands over the product exactly when the button is enabled |
| Checkout.InitialItems | src/pages/checkout.tsx:34-45 | handed-over items when non-empty; otherwise the saved cart; otherwise empty |
| Checkout.CartSurvivesNavigation | src/pages/checkout.tsx:34-45 | the checkout page starts with the cart the home page saved and handed over, also after a reload |
| Checkout.OrDash | src/pages/checkout.tsx:69-71 | `s \|\| "-"`: empty text becomes "-", non-empty text is kept |
| Checkout.CategoryName | src/pages/checkout.tsx:72 | the category is "Pronta entrega" exactly for the ready catalogue |
| Checkout.CustomerLines | src/pages/checkout.tsx:69-72 | three customer lines, plus one when the catalogue is known |
| Checkout.NoteLines | src/pages/checkout.tsx:73-77 | the notes block has three lines for a note, none otherwise |
| Checkout.ItemLine | src/pages/checkout.tsx:81-85 | an item line is its fields plus 37 characters of labels and separators |
| Checkout.ItemLineLayout | src/pages/checkout.tsx:81-85 | an item line is the number and a point, then the name, the SKU, the quantity, the formatted unit price and the formatted line total, each after its label, with nothing else |
| Checkout.ItemLineNumber | src/pages/checkout.tsx:82 | the first point of an item line ends its number, and that number reads back as the position |
| Checkout.ItemLines | src/pages/checkout.tsx:80-86 | exactly one line per cart item |
| Checkout.ItemLinesStep | src/pages/checkout.tsx:80-86 | handling one more item in the `forEach` appends exactly that item's line, numbered by its position |
| Checkout.Footer | src/pages/checkout.tsx:87-90 | four lines: a blank, the subtotal, a blank and the closing request |
| Checkout.Head | src/pages/checkout.tsx:66-72 | the title, then the name, e-mail and phone lines, and the category when known |
| Checkout.Preamble | src/pages/checkout.tsx:66-79 | everything before the items ends with the items heading |
| Checkout.CategoryLines | src/pages/checkout.tsx:72 | one category line exactly when the catalogue is known |
| Checkout.EmailHead | src/pages/checkout.tsx:64-91 | the e-mail has 12 fixed lines, plus one per item, one for the category and three for a note; lines 1-6 are the title and the customer |
| Checkout.EmailParts | src/pages/checkout.tsx:64-91 | the e-mail is the preamble, then the item lines, then the footer |
| Checkout.EmailLines | src/pages/checkout.tsx:65-90 | the e-mail lines: the preamble, one line per item, and four footer lines |
| Checkout.EmailLength | src/pages/checkout.tsx:64-91 | the e-mail length is the preamble length plus one line per item plus four |
| Checkout.EmailCategoryLine | src/pages/checkout.tsx:72 | line 7 is the category line exactly when the catalogue is known |
| Checkout.EmailNotesBlock | src/pages/checkout.tsx:73-77 | the notes heading follows exactly when there is a note, between a blank line and the note |
| Checkout.EmailItemsHeading | src/pages/checkout.tsx:78-79 | the items heading is the line just before the item block |
| Checkout.EmailItems | src/pages/checkout.tsx:80-86 | item k is on the k-th line of the item block and carries the number k + 1 |
| Checkout.EmailFooter | src/pages/checkout.tsx:87-90 | the e-mail ends with the subtotal line, a blank and the closing request |
| Checkout.BuildEmailText | src/pages/checkout.tsx:64-92 | the pushes and the `forEach` build exactly the e-mail lines, joined with newlines |
| Checkout.BodySplitsIntoLines | src/pages/checkout.tsx:91 | when no line holds a newline, splitting the body gives back the lines |
| Checkout.Subject | src/pages/checkout.tsx:97-99 | exactly "Pedido - " for the ready catalogue, or the quote wording otherwise, followed by the name or "Cliente" and nothing else |
| Checkout.Compose | src/pages/checkout.tsx:94-107 | no message exactly for an empty cart; otherwise one to the sales desk with that subject and body |
| Checkout.SendEnabled | src/pages/checkout.tsx:210 | the send button is enabled exactly with items, a name and an e-mail |
| Checkout.EnabledSendComposes | src/pages/checkout.tsx:94-99 | an enabled button always produces a message whose subject ends with the customer's own name |
| Checkout.CheckoutPage.constructor | src/pages/checkout.tsx:31-51 | the page starts from the initial cart and an empty form, and the saved copy equals the cart |
| Checkout.CheckoutPage.CanSend | src/pages/checkout.tsx:210 | the page's button state, in its own fields |
| Checkout.CheckoutPage.Subtotal | src/pages/checkout.tsx:53 | the page's subtotal: 0 for an empty cart and never negative for non-negative prices and quantities |
| Checkout.CheckoutPage.Remove | src/pages/checkout.tsx:55 | the cart becomes `remove` of it and is saved again; the form is untouched |
| Checkout.CheckoutPage.Inc | src/pages/checkout.tsx:56-57 | the cart becomes `inc` of it and is saved again |
| Checkout.CheckoutPage.Dec | src/pages/checkout.tsx:58-61 | the cart becomes `dec` of it and is saved again |
| Checkout.CheckoutPage.Edit | src/pages/checkout.tsx:135-150 | the form fields change; the cart does not |
| Checkout.CheckoutPage.Send | src/pages/checkout.tsx:94-107 | the message built step by step is the composed one |
| ProductsGrid.ListOf | src/components/products-grid.tsx:20-26 | an array prop is used as is; anything else is the empty list |
| ProductsGrid.CeilDivision | src/components/products-grid.tsx:29 | `ceil(count / size)` is the least number of pages that holds `count` products |
| ProductsGrid.PageCount | src/components/products-grid.tsx:29 | at least one page; one for no products; otherwise just enough pages |
| ProductsGrid.ClampPage | src/components/products-grid.tsx:32 | the clamped page is within 1..totalPages and is unchanged when it already was |
| ProductsGrid.WindowPosition | src/components/products-grid.tsx:35 | a page in range starts inside the list; a page past the end starts after it |
| ProductsGrid.PageWindow | src/components/products-grid.tsx:35-37 | at most a page of products, the matching infix, non-empty for a page in range, empty past the end |
| ProductsGrid.SliceOfWindow | src/components/products-grid.tsx:37 | the window's slice clamped to the list |
| ProductsGrid.PagesUpToIsPrefix | src/components/products-grid.tsx:35-37 | pages 1..n laid end to end are the first n pages' worth of the list |
| ProductsGrid.AllPagesCoverList | src/components/products-grid.tsx:29-37 | walking pages 1..totalPages shows every product once, in order |
| ProductsGrid.MissingProductsShowNothing | src/components/products-grid.tsx:20-37 | a missing or non-array prop gives one page showing nothing |
| ProductsGrid.WantedUpTo | src/components/products-grid.tsx:46-47 | the candidate page numbers are ascending and within 1..k |
| ProductsGrid.ListNums | src/components/products-grid.tsx:46-47 | `listNums` is strictly ascending and within 1..totalPages |
| ProductsGrid.WantedUpToMembers | src/components/products-grid.tsx:45-47 | the candidates are exactly the wanted numbers within 1..totalPages |
| ProductsGrid.WantedSize | src/components/products-grid.tsx:45 | the wanted set has at most seven numbers |
| ProductsGrid.Wanted | src/components/products-grid.tsx:45 | the wanted pages hold 1, the current page and the last page, and nothing outside the first two, the current neighbourhood and the last two |
| ProductsGrid.IncreasingWithin | src/components/products-grid.tsx:45-47 | an ascending list drawn from a set is no longer than the set |
| ProductsGrid.ListNumsFacts | src/components/products-grid.tsx:45-47 | `listNums` is ascending, within range, at most seven, always has 1, 2, the last two pages and the current page |
| ProductsGrid.NumbersConcat | src/components/products-grid.tsx:48-53 | the numbers of a concatenated bar are the numbers of each part |
| ProductsGrid.WithGaps | src/components/products-grid.tsx:48-53 | the bar is empty exactly for no numbers, starts and ends with a number, and has at most 2n - 1 entries |
| ProductsGrid.WithGapsStep | src/components/products-grid.tsx:49-53 | one pass of the loop appends the number, with a marker before it exactly at a jump |
| ProductsGrid.WithGapsNumbers | src/components/products-grid.tsx:48-53 | dropping the markers gives back the numbers |
| ProductsGrid.GapsAtJumpsAppend | src/components/products-grid.tsx:50-51 | appending a number with a marker exactly at a jump keeps the markers at the jumps |
| ProductsGrid.WithGapsMarkers | src/components/products-grid.tsx:48-53 | markers sit exactly between neighbours more than one apart, never first, last or twice in a row |
| ProductsGrid.AllPages | src/components/products-grid.tsx:41-43 | the short bar is every page 1..n in order, without markers |
| ProductsGrid.PagesToShow | src/components/products-grid.tsx:39-55 | up to seven pages, every page; otherwise `listNums` with a marker at every jump, at most 13 entries |
| ProductsGrid.LongBarFacts | src/components/products-grid.tsx:44-54 | the long bar's numbers are `listNums`, its markers sit at the jumps, and it has 1 to 13 entries |
| ProductsGrid.NumberInBar | src/components/products-grid.tsx:97 | a number shown in the bar is one of the bar's numbers |
| ProductsGrid.Grid.TotalPages | src/components/products-grid.tsx:29 | the grid always has at least one page |
| ProductsGrid.Grid.Paginated | src/components/products-grid.tsx:35-37 | the current page shows at most a page of products |
| ProductsGrid.Grid.constructor | src/components/products-grid.tsx:19-28 | the first render uses the list, or empty, and the page size, or 8, starting at page 1 |
| ProductsGrid.Grid.Rerender | src/components/products-grid.tsx:19-29 | new props replace the list and page size; the page state survives |
| ProductsGrid.Grid.ClampEffect | src/components/products-grid.tsx:31-33 | the page is pulled into 1..totalPages and kept when it was in range |
| ProductsGrid.Grid.Previous | src/components/products-grid.tsx:83 | one page back, never below 1 |
| ProductsGrid.Grid.Next | src/components/products-grid.tsx:108 | one page on, never past the last page |
| ProductsGrid.Grid.Select | src/components/products-grid.tsx:97 | the chosen page becomes the current page |
| ProductsGrid.LongBarInRange | src/components/products-grid.tsx:44-53 | on a bar of more than seven pages, every number shown is a page between 1 and the total |
| ProductsGrid.Grid.Bar | src/components/products-grid.tsx:39-55 | the bar for the current state; every number on it is a page in range |

## Left out

- The network: `listProducts` (src/lib/api.ts) is not part of this model. So
  are the loading flag, the spinner and the `alive` guard of the load effect.
  `ReceiveProducts` takes the response as a parameter.
- The image optimiser (api/optimize-image.js) and the image URL resolver are
  not part of this model. Images are URLs as the backend sends them.
- Rendering, styling, the carousel's `alt` and `key` texts, and the grid's
  "Página … de …" status line (src/components/products-grid.tsx:117) are
  display only.
- Navigation (`navigate`, `navigate(-1)`) is modelled as the `Handoff` value.
  The mail client is the `Mail` value: the `mailto:` URL and
  `encodeURIComponent` are not modelled.
- `toLocaleString("pt-BR", { currency: "BRL" })` is the parameter `fmt`. Its
  output format is not modelled.
- Numbers are exact reals and integers, not IEEE doubles. Rounding in
  `Number(raw) / 100`, in `price * qty` and in the subtotal sum is not modelled.
- `Number()` on strings is modelled for the decimal subset:
  - covered: white space, an optional sign, digits with at most one point, `Infinity`;
  - not covered: hex, octal and binary prefixes, exponents, and numeric
    separators, which read as NaN here.
- Local storage holds values, not JSON text. An unreadable or missing entry
  is `None`. `JSON.parse` and `JSON.stringify` are not modelled.
- src/components/cart-sheet.tsx is not part of this model. Its subtotal is the
  same fold as the checkout page's (`Cart.Subtotal`).
- `ProductsGrid.PageCount`, `PageWindow` and the `Grid` class require a
  positive page size. Every caller passes 12 or leaves the default of 8; a
  zero or negative size is not modelled.
- `ProductsGrid.Grid.Select` requires a page of at least 1. The bar only
  offers such pages.
- `Checkout.CheckoutPage`: the persistence effect (src/pages/checkout.tsx:109-112)
  is folded into each updater. Each updater re-saves the cart at once.

## Findings

| source | as written | input that shows it | evidently intended | confidence | as-written member | corrected member |
|---|---|---|---|---|---|---|
| src/components/product-card.tsx:36-43 | the card's `normalizePrice` has no branch for a run of digits, so a cents price is read as whole reais | price `"23450"`: the card shows 23450, the cart charges 234.50 | a run of digits counts cents, as the function's own comment and the home page's `normalizePrice` (src/pages/home.tsx:52) have it | not executed | ProductCard.CardReadsCentsAsUnits | Home.CentsAgreeWithComma |

