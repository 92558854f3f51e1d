/** The checkout page: it takes over the cart, collects the customer's
    details, and composes the order e-mail addressed to the sales desk. */
module Checkout {
  import opened JsValues
  import opened Catalog
  import opened Cart
  import Home

  /** The four form fields. */
  datatype Customer = Customer(name: string, email: string, phone: string, note: string)

  /** The message handed to the mail client. */
  datatype Mail = Mail(to: string, subject: string, body: string)

  const SalesAddress: string := "vendas@bmimports.com.br"
  const Title: string := "🔔 NOVO PEDIDO / SOLICITAÇÃO DE ORÇAMENTO"
  const CustomerHeading: string := "— Dados do cliente"
  const ItemsHeading: string := "— Itens do pedido"
  const NotesHeading: string := "Observações:"
  const Closing: string := "Por favor, responder a este e-mail com a confirmação e próximos passos."

  // ---------------------------------------------------------------- initial cart

  /** The cart the page starts with: the items handed over by navigation when
      there are any, otherwise the saved `cart_items` entry (`None` when it is
      missing or unreadable, which reads as an empty cart). */
  function InitialItems(stateItems: Option<seq<CartItem>>, stored: Option<seq<CartItem>>): (items: seq<CartItem>)
    ensures stateItems.Some? && stateItems.value != [] ==> items == stateItems.value
    ensures (stateItems.None? || stateItems.value == []) && stored.Some? ==> items == stored.value
    ensures (stateItems.None? || stateItems.value == []) && stored.None? ==> items == []
  {
    if stateItems.Some? && |stateItems.value| > 0 then stateItems.value
    else if stored.Some? then stored.value
    else []
  }

  /** The home page saves the cart and hands it over at once, so the
      checkout page starts with exactly that cart, empty or not; after a
      reload, when the hand-off is gone, the saved copy brings it back. */
  lemma CartSurvivesNavigation(items: seq<CartItem>)
    ensures InitialItems(Some(items), Some(items)) == items
    ensures InitialItems(None, Some(items)) == items
  {
  }

  // ---------------------------------------------------------------- e-mail lines

  /** The text, or a dash in place of empty text. */
  function OrDash(s: string): (r: string)
    ensures r != ""
    ensures s != "" ==> r == s
    ensures s == "" ==> r == "-"
  {
    if s == "" then "-" else s
  }

  /** The category as the e-mail names it: "Pronta entrega" exactly for the
      ready catalog. */
  function CategoryName(v: Variant): (name: string)
    ensures name != ""
    ensures name == "Pronta entrega" <==> v == Ready
  {
    assert "Pronta entrega"[1] != "Importados"[1];
    match v
    case Ready => "Pronta entrega"
    case Imported => "Importados"
  }

  /** Name, e-mail and phone (each followed by a space, as the template has
      it), then the category when the catalog is known. */
  function CustomerLines(c: Customer, variant: Option<Variant>): (lines: seq<string>)
    ensures |lines| == 3 + (if variant.Some? then 1 else 0)
  {
    ["Nome: " + OrDash(c.name) + " ", "E-mail: " + OrDash(c.email) + " ", "Telefone: " + OrDash(c.phone) + " "]
      + CategoryLines(variant)
  }

  /** The notes block, present only for a non-empty note. */
  function NoteLines(note: string): (lines: seq<string>)
    ensures |lines| == if note == "" then 0 else 3
  {
    if note == "" then [] else ["", NotesHeading, note]
  }

  /** The line of the item at position `n`, counting from 1: the number and a
      point, the item's name, then its SKU, quantity, formatted unit price and
      formatted line total, each after its own label. */
  function ItemLine(n: int, item: CartItem, fmt: real -> string): (line: string)
    ensures |line| == |IntToString(n)| + |item.name| + |item.sku| + |IntToString(item.qty)|
      + |fmt(item.price)| + |fmt(LineTotal(item))| + 37
  {
    var digits, qty, unit, total := IntToString(n), IntToString(item.qty), fmt(item.price), fmt(LineTotal(item));
    digits + ". " + item.name + " | SKU: " + item.sku + " | Qtd: " + qty + " | Unit: " + unit + " | Total: " + total
  }

  /** Each field of an item line sits after its label, in the template's order. */
  lemma {:induction false} ItemLineLayout(n: int, item: CartItem, fmt: real -> string)
    ensures var qty, unit, total := IntToString(item.qty), fmt(item.price), fmt(LineTotal(item));
      Layout(ItemLine(n, item, fmt), IntToString(n), item.name, item.sku, qty, unit, total)
  {
    var digits, qty, unit, total := IntToString(n), IntToString(item.qty), fmt(item.price), fmt(LineTotal(item));
    LineLayout(digits, item.name, item.sku, qty, unit, total);
  }

  /** `line` is the number, ". ", the name, and the SKU, quantity, unit price
      and total, each after its label, with nothing else in between. */
  predicate Layout(line: string, digits: string, name: string, sku: string, qty: string, unit: string, total: string)
  {
    var s := |digits| + 2 + |name|;
    var q := s + 8 + |sku|;
    var u := q + 8 + |qty|;
    var t := u + 9 + |unit|;
    && |line| == t + 10 + |total|
    && line[..|digits|] == digits && line[|digits|..|digits| + 2] == ". "
    && line[|digits| + 2..s] == name
    && line[s..s + 8] == " | SKU: " && line[s + 8..q] == sku
    && line[q..q + 8] == " | Qtd: " && line[q + 8..u] == qty
    && line[u..u + 9] == " | Unit: " && line[u + 9..t] == unit
    && line[t..t + 10] == " | Total: " && line[t + 10..] == total
  }

  /** Every field of an item line sits where `Layout` says. */
  lemma {:induction false} LineLayout(digits: string, name: string, sku: string, qty: string, unit: string, total: string)
    ensures Layout(digits + ". " + name + " | SKU: " + sku + " | Qtd: " + qty + " | Unit: " + unit + " | Total: " + total,
                   digits, name, sku, qty, unit, total)
  {
    var p1 := digits + ". ";
    var p2 := p1 + name;
    var p3 := p2 + " | SKU: ";
    var p4 := p3 + sku;
    var p5 := p4 + " | Qtd: ";
    var p6 := p5 + qty;
    var p7 := p6 + " | Unit: ";
    var p8 := p7 + unit;
    var p9 := p8 + " | Total: ";
    var line := p9 + total;
    PieceAt(line, p9, total);
    PieceAt(line, p8, " | Total: ");
    PieceAt(line, p7, unit);
    PieceAt(line, p6, " | Unit: ");
    PieceAt(line, p5, qty);
    PieceAt(line, p4, " | Qtd: ");
    PieceAt(line, p3, sku);
    PieceAt(line, p2, " | SKU: ");
    PieceAt(line, p1, name);
    PieceAt(line, digits, ". ");
    PieceAt(line, [], digits);
  }

  /** If `pre + x` starts `whole`, then `x` sits in `whole` right after `pre`. */
  lemma PieceAt(whole: string, pre: string, x: string)
    requires |pre + x| <= |whole| && whole[..|pre + x|] == pre + x
    ensures whole[|pre|..|pre| + |x|] == x
    ensures whole[..|pre|] == pre
  {
    assert whole[|pre|..|pre| + |x|] == whole[..|pre + x|][|pre|..];
    assert whole[..|pre|] == whole[..|pre + x|][..|pre|];
  }

  /** The leading number of an item line reads back as its position. */
  lemma ItemLineNumber(n: nat, item: CartItem, fmt: real -> string)
    ensures FindFirst(ItemLine(n, item, fmt), '.') == Some(|IntToString(n)|)
    ensures ParseNumber(ItemLine(n, item, fmt)[..|IntToString(n)|]) == Finite(n as real)
  {
    var digits, line := IntToString(n), ItemLine(n, item, fmt);
    ItemLineLayout(n, item, fmt);
    assert line[..|digits|] == digits;
    assert line[|digits|] == '.' by { assert line[|digits|..|digits| + 2][0] == line[|digits|]; }
    Home.NoPointOrCommaInDigits(digits);
    FindFirstAt(line, '.', |digits|);
    IntToStringRoundTrip(n);
  }

  /** One line per item, in cart order, numbered from 1. */
  function ItemLines(items: seq<CartItem>, fmt: real -> string): (lines: seq<string>)
    ensures |lines| == |items|
  {
    seq(|items|, k requires 0 <= k < |items| => ItemLine(k + 1, items[k], fmt))
  }

  /** Numbering one more item appends exactly its line. */
  lemma ItemLinesStep(items: seq<CartItem>, i: nat, fmt: real -> string)
    requires i < |items|
    ensures ItemLines(items[..i + 1], fmt) == ItemLines(items[..i], fmt) + [ItemLine(i + 1, items[i], fmt)]
  {
    var longer, shorter := ItemLines(items[..i + 1], fmt), ItemLines(items[..i], fmt);
    forall j | 0 <= j < i ensures longer[j] == shorter[j] {
      assert items[..i + 1][j] == items[..i][j];
    }
  }

  function Footer(subtotalText: string): (lines: seq<string>)
    ensures |lines| == 4 && lines[0] == "" && lines[1] == "Subtotal: " + subtotalText
      && lines[2] == "" && lines[3] == Closing
  {
    ["", "Subtotal: " + subtotalText, "", Closing]
  }

  /** Where the item lines start: after the heading, the customer block, the
      category line and the notes block, when present. */
  function ItemsStart(c: Customer, variant: Option<Variant>): nat
  {
    8 + (if variant.Some? then 1 else 0) + (if c.note == "" then 0 else 3)
  }

  /** The title and the customer block. */
  function Head(c: Customer, variant: Option<Variant>): (lines: seq<string>)
    ensures |lines| == 6 + (if variant.Some? then 1 else 0)
    ensures lines[0] == Title
    ensures lines[3] == "Nome: " + OrDash(c.name) + " "
    ensures lines[4] == "E-mail: " + OrDash(c.email) + " "
    ensures lines[5] == "Telefone: " + OrDash(c.phone) + " "
    ensures variant.Some? ==> lines[6] == "Categoria: " + CategoryName(variant.value)
  {
    [Title, "", CustomerHeading] + CustomerLines(c, variant)
  }

  /** Every line before the first item line. */
  function Preamble(c: Customer, variant: Option<Variant>): (lines: seq<string>)
    ensures |lines| == ItemsStart(c, variant)
    ensures lines[ItemsStart(c, variant) - 1] == ItemsHeading
  {
    Head(c, variant) + NoteLines(c.note) + ["", ItemsHeading]
  }

  /** The category line, when the catalog is known. */
  function CategoryLines(variant: Option<Variant>): (lines: seq<string>)
    ensures |lines| == if variant.Some? then 1 else 0
  {
    if variant.Some? then ["Categoria: " + CategoryName(variant.value)] else []
  }

  /** The lines of the order e-mail, before they are joined. */
  function EmailLines(items: seq<CartItem>, c: Customer, variant: Option<Variant>, fmt: real -> string): (lines: seq<string>)
    ensures |lines| == ItemsStart(c, variant) + |items| + 4
  {
    Preamble(c, variant) + ItemLines(items, fmt) + Footer(fmt(Subtotal(items)))
  }

  /** The e-mail has twelve fixed lines, one per item, one for the category
      when known and three for a note when given; its first six lines are the
      title and the customer's details. */
  lemma {:induction false} EmailHead(items: seq<CartItem>, c: Customer, variant: Option<Variant>, fmt: real -> string)
    ensures |EmailLines(items, c, variant, fmt)| == 12 + |items| + (if variant.Some? then 1 else 0) + (if c.note == "" then 0 else 3)
    ensures EmailLines(items, c, variant, fmt)[0] == Title
    ensures EmailLines(items, c, variant, fmt)[3] == "Nome: " + OrDash(c.name) + " "
    ensures EmailLines(items, c, variant, fmt)[4] == "E-mail: " + OrDash(c.email) + " "
    ensures EmailLines(items, c, variant, fmt)[5] == "Telefone: " + OrDash(c.phone) + " "
  {
    var lines, pre, head := EmailLines(items, c, variant, fmt), Preamble(c, variant), Head(c, variant);
    assert forall k :: 0 <= k < 6 ==> lines[k] == pre[k] == head[k];
  }

  /** The e-mail is the preamble, then the item lines, then the footer. */
  lemma {:induction false} EmailParts(items: seq<CartItem>, c: Customer, variant: Option<Variant>, fmt: real -> string)
    ensures var lines, start := EmailLines(items, c, variant, fmt), ItemsStart(c, variant);
      |lines| == start + |items| + 4
      && lines[..start] == Preamble(c, variant)
      && lines[start..start + |items|] == ItemLines(items, fmt)
      && lines[start + |items|..] == Footer(fmt(Subtotal(items)))
  {
    var pre, mid, foot := Preamble(c, variant), ItemLines(items, fmt), Footer(fmt(Subtotal(items)));
    var lines := EmailLines(items, c, variant, fmt);
    assert lines == pre + mid + foot;
    assert lines[..|pre|] == pre;
    assert lines[|pre|..|pre| + |mid|] == mid;
    assert lines[|pre| + |mid|..] == foot;
  }

  lemma IndexLeft<T>(a: seq<T>, b: seq<T>, k: nat)
    requires k < |a|
    ensures (a + b)[k] == a[k]
  {
  }

  lemma IndexRight<T>(a: seq<T>, b: seq<T>, k: nat)
    requires k < |b|
    ensures (a + b)[|a| + k] == b[k]
  {
  }

  /** The e-mail has the preamble's lines, one per item, and four more. */
  lemma {:induction false} EmailLength(items: seq<CartItem>, c: Customer, variant: Option<Variant>, fmt: real -> string)
    ensures |EmailLines(items, c, variant, fmt)| == ItemsStart(c, variant) + |items| + 4
  {
  }

  /** Line `k` of the preamble is line `k` of the e-mail. */
  lemma {:induction false} PreambleLine(items: seq<CartItem>, c: Customer, variant: Option<Variant>, fmt: real -> string, k: nat)
    requires k < ItemsStart(c, variant)
    ensures k < |EmailLines(items, c, variant, fmt)|
    ensures EmailLines(items, c, variant, fmt)[k] == Preamble(c, variant)[k]
  {
    var pre, mid, foot := Preamble(c, variant), ItemLines(items, fmt), Footer(fmt(Subtotal(items)));
    IndexLeft(pre + mid, foot, k);
    IndexLeft(pre, mid, k);
  }

  /** Line 7 is the category line exactly when the catalog is known. */
  lemma {:induction false} EmailCategoryLine(items: seq<CartItem>, c: Customer, variant: Option<Variant>, fmt: real -> string)
    ensures var lines := EmailLines(items, c, variant, fmt);
      |lines| > 9 && (lines[6] != "" <==> variant.Some?)
    ensures var lines := EmailLines(items, c, variant, fmt);
      variant.Some? ==> lines[6] == "Categoria: " + CategoryName(variant.value)
  {
    PreambleLine(items, c, variant, fmt, 6);
    EmailLength(items, c, variant, fmt);
    var head, rest := Head(c, variant), NoteLines(c.note) + ["", ItemsHeading];
    if variant.None? {
      IndexRight(head, rest, 0);
    } else {
      IndexLeft(head, rest, 6);
    }
  }

  /** The notes block follows exactly when the note is not empty, and then it
      is a blank line, its heading and the note itself. */
  lemma {:induction false} EmailNotesBlock(items: seq<CartItem>, c: Customer, variant: Option<Variant>, fmt: real -> string)
    ensures var lines, cat := EmailLines(items, c, variant, fmt), if variant.Some? then 1 else 0;
      |lines| > 9 + cat && (lines[7 + cat] == NotesHeading <==> c.note != "")
    ensures var lines, cat := EmailLines(items, c, variant, fmt), if variant.Some? then 1 else 0;
      c.note != "" ==> |lines| > 9 + cat && lines[6 + cat] == "" && lines[8 + cat] == c.note
  {
    EmailLength(items, c, variant, fmt);
    var head, rest := Head(c, variant), NoteLines(c.note) + ["", ItemsHeading];
    assert ItemsHeading[0] != NotesHeading[0];
    PreambleLine(items, c, variant, fmt, |head| + 1);
    IndexRight(head, rest, 1);
    if c.note != "" {
      PreambleLine(items, c, variant, fmt, |head|);
      IndexRight(head, rest, 0);
      PreambleLine(items, c, variant, fmt, |head| + 2);
      IndexRight(head, rest, 2);
    }
  }

  /** The items heading is the line just before the item block. */
  lemma {:induction false} EmailItemsHeading(items: seq<CartItem>, c: Customer, variant: Option<Variant>, fmt: real -> string)
    ensures var lines := EmailLines(items, c, variant, fmt);
      |lines| > ItemsStart(c, variant) + |items| && lines[ItemsStart(c, variant) - 1] == ItemsHeading
  {
    PreambleLine(items, c, variant, fmt, ItemsStart(c, variant) - 1);
  }

  /** Item `k` sits on line `ItemsStart + k`, numbered `k + 1`. */
  lemma {:induction false} EmailItems(items: seq<CartItem>, c: Customer, variant: Option<Variant>, fmt: real -> string)
    ensures ItemsStart(c, variant) + |items| <= |EmailLines(items, c, variant, fmt)|
    ensures forall k :: 0 <= k < |items| ==>
      EmailLines(items, c, variant, fmt)[ItemsStart(c, variant) + k] == ItemLine(k + 1, items[k], fmt)
  {
    ItemBlock(items, c, variant, fmt);
    ItemsAtOffset(EmailLines(items, c, variant, fmt), ItemsStart(c, variant), items, fmt);
  }

  /** The item lines of the e-mail, in one block after the preamble. */
  lemma {:induction false} ItemBlock(items: seq<CartItem>, c: Customer, variant: Option<Variant>, fmt: real -> string)
    ensures ItemsStart(c, variant) + |items| <= |EmailLines(items, c, variant, fmt)|
    ensures EmailLines(items, c, variant, fmt)[ItemsStart(c, variant)..ItemsStart(c, variant) + |items|] == ItemLines(items, fmt)
  {
    EmailParts(items, c, variant, fmt);
  }

  /** Where the item block sits in a list of lines, item k's line is k places in. */
  lemma ItemsAtOffset(lines: seq<string>, start: nat, items: seq<CartItem>, fmt: real -> string)
    requires start + |items| <= |lines| && lines[start..start + |items|] == ItemLines(items, fmt)
    ensures forall k :: 0 <= k < |items| ==> lines[start + k] == ItemLine(k + 1, items[k], fmt)
  {
    forall k | 0 <= k < |items| ensures lines[start + k] == ItemLine(k + 1, items[k], fmt) {
      assert lines[start + k] == lines[start..start + |items|][k];
    }
  }

  /** The last lines give the subtotal and the closing request. */
  lemma {:induction false} EmailFooter(items: seq<CartItem>, c: Customer, variant: Option<Variant>, fmt: real -> string)
    ensures var lines := EmailLines(items, c, variant, fmt);
      |lines| >= 4 && lines[|lines| - 3] == "Subtotal: " + fmt(Subtotal(items)) && lines[|lines| - 1] == Closing
  {
    EmailParts(items, c, variant, fmt);
    var lines, tail := EmailLines(items, c, variant, fmt), ItemsStart(c, variant) + |items|;
    assert lines[|lines| - 3] == lines[tail..][1];
    assert lines[|lines| - 1] == lines[tail..][3];
  }

  lemma PushSix<T>(a: T, b: T, c: T, d: T, e: T, f: T)
    ensures [] + [a] + [b] + [c] + [d] + [e] + [f] == [a, b, c, d, e, f]
  {
  }

  lemma PushThree<T>(s: seq<T>, a: T, b: T, c: T)
    ensures s + [a] + [b] + [c] == s + [a, b, c]
  {
  }

  lemma PushFour<T>(s: seq<T>, a: T, b: T, c: T, d: T)
    ensures s + [a] + [b] + [c] + [d] == s + [a, b, c, d]
  {
  }

  lemma Regroup<T>(a: T, b: T, c: T, d: T, e: T, f: T, rest: seq<T>, more: seq<T>, x: T, y: T)
    ensures [a, b, c, d, e, f] + rest + more + [x] + [y] == [a, b, c] + ([d, e, f] + rest) + more + [x, y]
  {
  }

  /** The pushes before the items give exactly the preamble. */
  lemma PreambleByPushes(c: Customer, variant: Option<Variant>, customer: seq<string>, category: seq<string>, lines: seq<string>)
    requires customer == [Title, "", CustomerHeading, "Nome: " + OrDash(c.name) + " ",
      "E-mail: " + OrDash(c.email) + " ", "Telefone: " + OrDash(c.phone) + " "]
    requires category == customer + CategoryLines(variant)
    requires lines == category + NoteLines(c.note) + [""] + [ItemsHeading]
    ensures lines == Preamble(c, variant)
  {
    Regroup(Title, "", CustomerHeading, "Nome: " + OrDash(c.name) + " ",
      "E-mail: " + OrDash(c.email) + " ", "Telefone: " + OrDash(c.phone) + " ",
      CategoryLines(variant), NoteLines(c.note), "", ItemsHeading);
  }

  /** `buildEmailText`: the lines are pushed one by one, the items in a
      `forEach`, and joined with newlines. */
  method BuildEmailText(items: seq<CartItem>, c: Customer, variant: Option<Variant>, fmt: real -> string)
    returns (body: string)
    ensures body == Join(EmailLines(items, c, variant, fmt), '\n')
  {
    var nameLine := "Nome: " + OrDash(c.name) + " ";
    var emailLine := "E-mail: " + OrDash(c.email) + " ";
    var phoneLine := "Telefone: " + OrDash(c.phone) + " ";
    var lines: seq<string> := [];
    lines := lines + [Title];
    lines := lines + [""];
    lines := lines + [CustomerHeading];
    lines := lines + [nameLine];
    lines := lines + [emailLine];
    lines := lines + [phoneLine];
    PushSix(Title, "", CustomerHeading, nameLine, emailLine, phoneLine);
    ghost var customer := lines;
    if variant.Some? {
      lines := lines + ["Categoria: " + CategoryName(variant.value)];
    }
    assert lines == customer + CategoryLines(variant);
    ghost var category := lines;
    if c.note != "" {
      lines := lines + [""];
      lines := lines + [NotesHeading];
      lines := lines + [c.note];
      PushThree(category, "", NotesHeading, c.note);
    }
    assert lines == category + NoteLines(c.note);
    lines := lines + [""];
    lines := lines + [ItemsHeading];
    PreambleByPushes(c, variant, customer, category, lines);
    ghost var preamble := lines;
    var i := 0;
    while i < |items|
      invariant 0 <= i <= |items|
      invariant lines == preamble + ItemLines(items[..i], fmt)
    {
      var line := ItemLine(i + 1, items[i], fmt);
      ghost var done := ItemLines(items[..i], fmt);
      ItemLinesStep(items, i, fmt);
      Associative(preamble, done, [line]);
      lines := lines + [line];
      i := i + 1;
    }
    assert items[..i] == items;
    ghost var listed := lines;
    lines := lines + [""];
    lines := lines + ["Subtotal: " + fmt(Subtotal(items))];
    lines := lines + [""];
    lines := lines + [Closing];
    PushFour(listed, "", "Subtotal: " + fmt(Subtotal(items)), "", Closing);
    assert lines == EmailLines(items, c, variant, fmt);
    body := Join(lines, '\n');
  }

  /** When no line contains a newline (no multi-line note, for instance),
      splitting the body at newlines gives back exactly the lines. */
  lemma BodySplitsIntoLines(items: seq<CartItem>, c: Customer, variant: Option<Variant>, fmt: real -> string)
    requires forall k :: 0 <= k < |EmailLines(items, c, variant, fmt)| ==> '\n' !in EmailLines(items, c, variant, fmt)[k]
    ensures Split(Join(EmailLines(items, c, variant, fmt), '\n'), '\n') == EmailLines(items, c, variant, fmt)
  {
    EmailFooter(items, c, variant, fmt);
    SplitJoin(EmailLines(items, c, variant, fmt), '\n');
  }

  // ---------------------------------------------------------------- sending

  /** The subject: an order for the ready catalog, a quote request otherwise,
      followed by the customer's name or "Cliente". */
  function Subject(variant: Option<Variant>, name: string): (subject: string)
    ensures var who := if name == "" then "Cliente" else name;
      |subject| >= |who| && subject[|subject| - |who|..] == who
    ensures variant == Some(Ready) ==> |subject| >= 9 && subject[..9] == "Pedido - "
    ensures variant != Some(Ready) ==> |subject| >= 27 && subject[..27] == "Solicitação de orçamento - "
    ensures |subject| == (if variant == Some(Ready) then 9 else 27) + |if name == "" then "Cliente" else name|
  {
    var opening := if variant == Some(Ready) then "Pedido - " else "Solicitação de orçamento - ";
    var who := if name == "" then "Cliente" else name;
    assert (opening + who)[..|opening|] == opening;
    assert (opening + who)[|opening + who| - |who|..] == who;
    opening + who
  }

  /** `handleSend`: nothing happens with an empty cart; otherwise one message
      to the sales desk with the subject above and the composed body. */
  function Compose(items: seq<CartItem>, c: Customer, variant: Option<Variant>, fmt: real -> string): (mail: Option<Mail>)
    ensures mail.None? <==> items == []
    ensures mail.Some? ==> mail.value.to == SalesAddress
    ensures mail.Some? ==> mail.value.subject == Subject(variant, c.name)
    ensures mail.Some? ==> mail.value.body == Join(EmailLines(items, c, variant, fmt), '\n')
  {
    if |items| == 0 then None
    else Some(Mail(SalesAddress, Subject(variant, c.name), Join(EmailLines(items, c, variant, fmt), '\n')))
  }

  /** The send button is enabled only with items in the cart and both a name
      and an e-mail filled in. */
  function SendEnabled(items: seq<CartItem>, c: Customer): (enabled: bool)
    ensures enabled <==> items != [] && c.name != "" && c.email != ""
  {
    !(|items| == 0 || c.name == "" || c.email == "")
  }

  /** An enabled button always produces a message, and its subject names
      the customer rather than "Cliente". */
  lemma {:induction false} EnabledSendComposes(items: seq<CartItem>, c: Customer, variant: Option<Variant>, fmt: real -> string)
    requires SendEnabled(items, c)
    ensures Compose(items, c, variant, fmt).Some?
    ensures var s := Compose(items, c, variant, fmt).value.subject;
      |s| >= |c.name| && s[|s| - |c.name|..] == c.name
  {
  }

  // ---------------------------------------------------------------- the page

  class CheckoutPage {
    var items: seq<CartItem>
    var customer: Customer
    const variant: Option<Variant>
    /** The `cart_items` entry of local storage, kept equal to the cart by the
        page's effect. */
    var saved: Option<seq<CartItem>>

    ghost predicate Valid()
      reads this
    {
      saved == Some(items)
    }

    constructor(stateItems: Option<seq<CartItem>>, variant: Option<Variant>, stored: Option<seq<CartItem>>)
      ensures Valid()
      ensures items == InitialItems(stateItems, stored)
      ensures customer == Customer("", "", "", "")
      ensures this.variant == variant
    {
      items := InitialItems(stateItems, stored);
      customer := Customer("", "", "", "");
      this.variant := variant;
      saved := Some(InitialItems(stateItems, stored));
    }

    function Subtotal(): (total: real)
      reads this
      ensures items == [] ==> total == 0.0
      ensures (forall k :: 0 <= k < |items| ==> items[k].price >= 0.0 && items[k].qty >= 0) ==> total >= 0.0
    {
      if forall k :: 0 <= k < |items| ==> items[k].price >= 0.0 && items[k].qty >= 0 then
        SubtotalNonNegative(items);
        Cart.Subtotal(items)
      else Cart.Subtotal(items)
    }

    function CanSend(): (enabled: bool)
      reads this
      ensures enabled <==> items != [] && customer.name != "" && customer.email != ""
    {
      SendEnabled(items, customer)
    }

    method Remove(id: Num)
      requires Valid()
      modifies this
      ensures Valid()
      ensures items == Removed(old(items), id)
      ensures customer == old(customer)
    {
      items := Removed(items, id);
      saved := Some(items);
    }

    method Inc(id: Num)
      requires Valid()
      modifies this
      ensures Valid()
      ensures items == Incremented(old(items), id)
      ensures customer == old(customer)
    {
      items := Incremented(items, id);
      saved := Some(items);
    }

    method Dec(id: Num)
      requires Valid()
      modifies this
      ensures Valid()
      ensures items == Decremented(old(items), id)
      ensures customer == old(customer)
    {
      items := Decremented(items, id);
      saved := Some(items);
    }

    /** The form's `onChange` handlers. */
    method Edit(c: Customer)
      requires Valid()
      modifies this
      ensures Valid()
      ensures customer == c
      ensures items == old(items)
    {
      customer := c;
    }

    /** `handleSend`. */
    method Send(fmt: real -> string) returns (mail: Option<Mail>)
      ensures mail == Compose(items, customer, variant, fmt)
    {
      if |items| == 0 {
        return None;
      }
      var subject := Subject(variant, customer.name);
      var body := BuildEmailText(items, customer, variant, fmt);
      mail := Some(Mail(SalesAddress, subject, body));
    }
  }
}
