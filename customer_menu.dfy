/**
 * The AR menu page a customer reaches from a restaurant's QR code: a dish
 * carousel, a quantity picker, size and extra-cheese options, and an order
 * built line by line and then submitted with a table number.
 *
 * Prices are decimal strings in the page, read with `parseFloat` and written
 * back with `toFixed(2)`; here they are whole cents.
 */
module CustomerMenu {
  import opened Common
  import opened Seqs
  import opened Text

  /** The fields of a served dish the page reads; `priceCents` is its price in cents. */
  datatype MenuDish = MenuDish(id: string, name: string, priceCents: int)

  /** One line of the order being built. */
  datatype OrderLine = OrderLine(
    dishId: string, dishName: string, quantity: int, priceCents: int, specialInstructions: Option<string>)

  /** The page's state. */
  datatype Form = Form(
    dishIndex: int, quantity: int, tableNumber: string, specialInstructions: string,
    selectedSize: string, extraCheese: bool, orderItems: seq<OrderLine>)

  const InitialForm := Form(0, 1, "", "", "large", false, [])

  /** The family size costs eight more. */
  const FamilySurchargeCents := 800

  /** `handleNextDish`'s index: one further, from the last back to the first. */
  function NextIndex(i: int, n: nat): (r: int)
    ensures 0 <= i < n ==> 0 <= r < n && r == (i + 1) % n
  {
    if i < n - 1 then i + 1 else 0
  }

  /** `handlePreviousDish`'s index: one back, from the first round to the last. */
  function PreviousIndex(i: int, n: nat): (r: int)
    ensures 0 <= i < n ==> 0 <= r < n && r == (i - 1) % n
    ensures n == 0 && i <= 0 ==> r == -1
  {
    if i > 0 then i - 1 else n - 1
  }

  /** Next and previous undo each other on every valid index. */
  lemma NextPreviousInverse(i: int, n: nat)
    requires 0 <= i < n
    ensures NextIndex(PreviousIndex(i, n), n) == i
    ensures PreviousIndex(NextIndex(i, n), n) == i
  {
  }

  /** Moving through the carousel also resets the quantity and the note. */
  function OnNextDish(f: Form, dishCount: nat): (g: Form)
    ensures g == f.(dishIndex := NextIndex(f.dishIndex, dishCount), quantity := 1, specialInstructions := "")
  {
    f.(dishIndex := NextIndex(f.dishIndex, dishCount), quantity := 1, specialInstructions := "")
  }

  function OnPreviousDish(f: Form, dishCount: nat): (g: Form)
    ensures g == f.(dishIndex := PreviousIndex(f.dishIndex, dishCount), quantity := 1, specialInstructions := "")
  {
    f.(dishIndex := PreviousIndex(f.dishIndex, dishCount), quantity := 1, specialInstructions := "")
  }

  /** The minus button: never below one. */
  function Minus(q: int): (r: int)
    ensures r >= 1
    ensures q > 1 ==> r == q - 1
    ensures q <= 1 ==> r == 1
  {
    if 1 >= q - 1 then 1 else q - 1
  }

  /** The plus button. */
  function Plus(q: int): int {
    q + 1
  }

  /** Minus undoes plus on every quantity the picker can show. */
  lemma MinusUndoesPlus(q: int)
    requires q >= 1
    ensures Minus(Plus(q)) == q
  {
  }

  /** `dishes[currentDishIndex]`, undefined outside the list. */
  function CurrentDish(dishes: seq<MenuDish>, i: int): (d: Option<MenuDish>)
    ensures d.Some? <==> 0 <= i < |dishes|
    ensures d.Some? ==> d.value == dishes[i]
  {
    if 0 <= i < |dishes| then Some(dishes[i]) else None
  }

  /** The parts joined with `sep` between each two. */
  function Join(parts: seq<string>, sep: string): string {
    if parts == [] then ""
    else if |parts| == 1 then parts[0]
    else parts[0] + sep + Join(parts[1..], sep)
  }

  /** The pieces of a line's note, in order: the size label if any, the typed note if any, the cheese. */
  function NoteParts(sizeLabel: Option<string>, typed: string, extraCheese: bool): seq<string> {
    (if sizeLabel.Some? then [sizeLabel.value] else [])
    + (if typed != "" then [typed] else [])
    + (if extraCheese then ["Extra cheese"] else [])
  }

  /** "Small size", "Family size", ...; a large dish has no size label. */
  function SizeLabel(size: string): (l: Option<string>)
    ensures l.None? <==> size == "large"
    ensures l.Some? ==> |l.value| == |size| + 5 && l.value[..|size|] == Capitalize(size) && l.value[|size|..] == " size"
  {
    if size != "large" then Some(Capitalize(size) + " size") else None
  }

  /**
   * The note a line should carry: the size label, then the customer's
   * trimmed note if any, then "Extra cheese" if chosen, separated by ", ".
   */
  function ExpectedNote(size: string, note: string, extraCheese: bool): string {
    Join(NoteParts(SizeLabel(size), Trim(note), extraCheese), ", ")
  }

  /** The note is empty, and the line carries none, exactly when nothing was chosen or typed. */
  lemma ExpectedNoteEmpty(size: string, note: string, extraCheese: bool)
    ensures ExpectedNote(size, note, extraCheese) == "" <==> size == "large" && Trim(note) == "" && !extraCheese
  {
    var parts := NoteParts(SizeLabel(size), Trim(note), extraCheese);
    if parts != [] {
      JoinNonEmpty(parts, ", ");
    }
  }

  lemma {:induction false} JoinNonEmpty(parts: seq<string>, sep: string)
    requires parts != [] && parts[0] != ""
    ensures Join(parts, sep) != ""
  {
    if |parts| > 1 {
      assert |Join(parts, sep)| >= |parts[0]|;
    }
  }

  /**
   * `handleAddToOrder`. Without a current dish or with a blank table number
   * nothing changes. Otherwise one line is appended: the dish, the chosen
   * quantity, the unit price with the family surcharge, and the composed note
   * (none when empty); then the options are reset.
   */
  method AddToOrder(f: Form, dishes: seq<MenuDish>) returns (g: Form)
    ensures CurrentDish(dishes, f.dishIndex).None? || Trim(f.tableNumber) == "" ==> g == f
    ensures CurrentDish(dishes, f.dishIndex).Some? && Trim(f.tableNumber) != "" ==>
      g == f.(quantity := 1, specialInstructions := "", selectedSize := "large", extraCheese := false,
              orderItems := f.orderItems + [ExpectedLine(f, dishes[f.dishIndex])])
  {
    var current := CurrentDish(dishes, f.dishIndex);
    if current.None? || Trim(f.tableNumber) == "" {
      return f;
    }
    var d := current.value;
    var price, instructions := PriceAndNote(d.priceCents, f.selectedSize, f.specialInstructions, f.extraCheese);
    var line := OrderLine(d.id, d.name, f.quantity, price, if instructions != "" then Some(instructions) else None);
    assert line == ExpectedLine(f, d);
    g := f.(quantity := 1, specialInstructions := "", selectedSize := "large", extraCheese := false,
            orderItems := f.orderItems + [line]);
  }

  /**
   * The line `handleAddToOrder` appends for dish `d`: the chosen quantity, the
   * unit price with the family surcharge, and the composed note, none when empty.
   */
  function ExpectedLine(f: Form, d: MenuDish): OrderLine {
    var note := ExpectedNote(f.selectedSize, f.specialInstructions, f.extraCheese);
    OrderLine(d.id, d.name, f.quantity,
      d.priceCents + (if f.selectedSize == "family" then FamilySurchargeCents else 0),
      if note == "" then None else Some(note))
  }

  /**
   * The middle of `handleAddToOrder`: the unit price, raised by the surcharge
   * for the family size, and the note, built up from the trimmed text by
   * putting the size label in front and the cheese behind.
   */
  method PriceAndNote(basePrice: int, size: string, note: string, extraCheese: bool)
    returns (price: int, instructions: string)
    ensures price == basePrice + (if size == "family" then FamilySurchargeCents else 0)
    ensures instructions == ExpectedNote(size, note, extraCheese)
  {
    price := basePrice;
    instructions := Trim(note);
    ghost var typed := instructions;
    var sizeLabel := Capitalize(size) + " size";
    if size == "family" {
      price := price + FamilySurchargeCents;
      instructions := if instructions != "" then sizeLabel + ", " + instructions else sizeLabel;
    } else if size != "large" {
      instructions := if instructions != "" then sizeLabel + ", " + instructions else sizeLabel;
    }
    ghost var sized := instructions;
    if extraCheese {
      instructions := if instructions != "" then instructions + ", Extra cheese" else "Extra cheese";
    }
    ComposedNote(SizeLabel(size), typed, extraCheese, sized, instructions);
  }

  /** The step-by-step composition in `PriceAndNote` yields the joined parts. */
  lemma ComposedNote(sizeLabel: Option<string>, typed: string, extraCheese: bool, sized: string, result: string)
    requires sizeLabel.Some? ==> sizeLabel.value != ""
    requires sized == if sizeLabel.None? then typed else if typed != "" then sizeLabel.value + ", " + typed else sizeLabel.value
    requires result == if !extraCheese then sized else if sized != "" then sized + ", Extra cheese" else "Extra cheese"
    ensures result == Join(NoteParts(sizeLabel, typed, extraCheese), ", ")
  {
    var parts := NoteParts(sizeLabel, typed, extraCheese);
    assert ", Extra cheese" == ", " + "Extra cheese";
    if sizeLabel.Some? && typed != "" && extraCheese {
      assert parts == [sizeLabel.value, typed, "Extra cheese"];
      assert parts[1..] == [typed, "Extra cheese"];
      assert Join(parts[1..], ", ") == typed + ", " + "Extra cheese";
      assert Join(parts, ", ") == sizeLabel.value + ", " + (typed + ", " + "Extra cheese");
    } else if sizeLabel.Some? && typed != "" {
      assert parts == [sizeLabel.value, typed];
    } else if sizeLabel.Some? && extraCheese {
      assert parts == [sizeLabel.value, "Extra cheese"];
    } else if typed != "" && extraCheese {
      assert parts == [typed, "Extra cheese"];
    } else if sizeLabel.Some? {
      assert parts == [sizeLabel.value];
    } else if typed != "" {
      assert parts == [typed];
    } else if extraCheese {
      assert parts == ["Extra cheese"];
    } else {
      assert parts == [];
    }
  }

  /** The request `handlePlaceOrder` submits. */
  datatype OrderRequest = OrderRequest(
    restaurantId: Option<string>, tableNumber: string, items: seq<OrderLine>,
    totalCents: int, specialInstructions: Option<string>)

  /** `totalOrderValue`: the sum of unit price times quantity. */
  function TotalValue(items: seq<OrderLine>): int {
    Sum(items, (l: OrderLine) => l.priceCents * l.quantity)
  }

  /** Appending a line adds its price times quantity to the total. */
  lemma TotalValueAppend(items: seq<OrderLine>, l: OrderLine)
    ensures TotalValue(items + [l]) == TotalValue(items) + l.priceCents * l.quantity
  {
    var f := (l: OrderLine) => l.priceCents * l.quantity;
    SumAppend(items, [l], f);
    SumSingle(l, f);
  }

  /**
   * `handlePlaceOrder`: refused with a blank table number or no lines;
   * otherwise the trimmed table number, the lines, their total, and the
   * trimmed note (none when blank).
   */
  function PlaceOrder(f: Form, restaurantId: Option<string>): (r: Option<OrderRequest>)
    ensures r.None? <==> Trim(f.tableNumber) == "" || f.orderItems == []
    ensures r.Some? ==> r.value.tableNumber == Trim(f.tableNumber) && r.value.items == f.orderItems
    ensures r.Some? ==> r.value.restaurantId == restaurantId && r.value.totalCents == TotalValue(f.orderItems)
    ensures r.Some? ==> (r.value.specialInstructions.None? <==> Trim(f.specialInstructions) == "")
    ensures r.Some? && r.value.specialInstructions.Some? ==> r.value.specialInstructions.value == Trim(f.specialInstructions)
  {
    if Trim(f.tableNumber) == "" then None
    else if |f.orderItems| == 0 then None
    else
      var note := Trim(f.specialInstructions);
      Some(OrderRequest(restaurantId, Trim(f.tableNumber), f.orderItems, TotalValue(f.orderItems),
        if note != "" then Some(note) else None))
  }
}
