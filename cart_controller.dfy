/** controllers/cartController.js: the four cart endpoints. Each one loads the
    user's cart document, changes its `items` in place (push, `quantity +=`,
    field assignments, splice), recomputes `total` as the fold over the lines,
    and saves. */
module CartController {
  import opened Common
  import opened CartModel
  import ProductModel
  import Db

  /** The merge key of addToCart: product, size, colour (compared exactly),
      customText and design. */
  predicate SameLine(a: CartItem, b: CartItem)
  {
    a.product == b.product && a.size == b.size && a.color == b.color &&
    a.customText == b.customText && a.design == b.design
  }

  /** The findIndex callback of addToCart. */
  function SameLineAs(line: CartItem): CartItem -> bool
  {
    (it: CartItem) => SameLine(it, line)
  }

  /** The findIndex callback of updateCartItem and removeFromCart. */
  function HasId(itemId: Id): CartItem -> bool
  {
    (it: CartItem) => it.id == itemId
  }

  /** Line `i` is the first line of `items` sharing `line`'s merge key. */
  predicate FirstMatch(items: seq<CartItem>, line: CartItem, i: nat)
  {
    i < |items| && SameLine(items[i], line) &&
    forall j :: 0 <= j < i ==> !SameLine(items[j], line)
  }

  /** `availableColors.map(c => c.toLowerCase()).includes(color.toLowerCase())`. */
  predicate ColorOffered(colors: seq<string>, color: string)
    ensures ColorOffered(colors, color) <==>
      exists i :: 0 <= i < |colors| && Lower(colors[i]) == Lower(color)
  {
    var lowered := seq(|colors|, i requires 0 <= i < |colors| => Lower(colors[i]));
    assert forall i :: 0 <= i < |colors| ==> lowered[i] == Lower(colors[i]);
    Lower(color) in lowered
  }

  /** The checks addToCart makes before it touches the cart, in their order:
      the product exists, the size is one it offers (exact match), the colour is
      one it offers (ignoring case). */
  function CheckRequest(products: map<Id, ProductModel.Product>, productId: Id, size: string, color: string)
    : (r: Option<Error>)
    ensures productId !in products ==> r == Some(NotFound("Product not found"))
    ensures productId in products && size !in products[productId].availableSizes ==>
      r == Some(BadRequest("Invalid size for this product"))
    ensures (productId in products && size in products[productId].availableSizes &&
             !ColorOffered(products[productId].availableColors, color)) ==>
      r == Some(BadRequest("Invalid color for this product"))
    ensures r == None <==>
      productId in products && size in products[productId].availableSizes &&
      exists i :: 0 <= i < |products[productId].availableColors| &&
        Lower(products[productId].availableColors[i]) == Lower(color)
  {
    if productId !in products then Some(NotFound("Product not found"))
    else if size !in products[productId].availableSizes then Some(BadRequest("Invalid size for this product"))
    else if !ColorOffered(products[productId].availableColors, color) then Some(BadRequest("Invalid color for this product"))
    else None
  }

  /** The path a design upload is stored under. */
  function DesignPath(filename: string): string
  {
    "/designs/" + filename
  }

  /** The line addToCart builds: the request's choices, `Number(quantity)` and
      the product's current price. It passes the line schema exactly when the
      request's size, colour and quantity do, and it carries a design exactly
      when a file came. */
  function NewLine(id: Id, productId: Id, size: string, color: string, customText: Option<string>,
                   quantity: int, designFile: Option<string>, price: int): (it: CartItem)
    ensures ItemValid(it) <==> size in SizeEnum && color != "" && quantity >= 1
    ensures it.design.Some? <==> designFile.Some?
    ensures Subtotal(it) == price * quantity
  {
    CartItem(id, productId, size, color,
             if designFile.Some? then Some(DesignPath(designFile.value)) else None,
             customText, quantity, price)
  }

  /** The lines after addToCart: the first line with the same merge key gets
      `line.quantity` more; with no such line, `line` is pushed. */
  function MergeOrAppend(items: seq<CartItem>, line: CartItem): (r: seq<CartItem>)
    ensures |r| >= |items|
  {
    match FindIndex(items, SameLineAs(line))
    case Some(i) => items[i := items[i].(quantity := items[i].quantity + line.quantity)]
    case None => items + [line]
  }

  /** The lines MergeOrAppend leaves: only the first line sharing the merge key
      changes, and only in its quantity; the length stays the same exactly when
      such a line exists; with none, `line` is appended after the old lines. */
  lemma MergeOrAppendLines(items: seq<CartItem>, line: CartItem)
    ensures (exists j :: 0 <= j < |items| && SameLine(items[j], line)) <==>
      |MergeOrAppend(items, line)| == |items|
    ensures (forall j :: 0 <= j < |items| ==> !SameLine(items[j], line)) ==>
      MergeOrAppend(items, line) == items + [line]
    ensures forall j :: 0 <= j < |items| ==>
      MergeOrAppend(items, line)[j] ==
        if FirstMatch(items, line, j)
        then items[j].(quantity := items[j].quantity + line.quantity)
        else items[j]
  {
    match FindIndex(items, SameLineAs(line))
    case Some(i) =>
      assert FirstMatch(items, line, i);
    case None =>
  }

  /** When the findIndex finds line `i`, MergeOrAppend adds the quantity there. */
  lemma {:induction false} MergeAt(items: seq<CartItem>, line: CartItem, i: nat)
    requires FindIndex(items, SameLineAs(line)) == Some(i)
    ensures i < |items|
    ensures MergeOrAppend(items, line) == items[i := items[i].(quantity := items[i].quantity + line.quantity)]
  {
  }

  /** When the findIndex finds nothing, MergeOrAppend pushes the line. */
  lemma {:induction false} AppendWhenNew(items: seq<CartItem>, line: CartItem)
    requires FindIndex(items, SameLineAs(line)) == None
    ensures MergeOrAppend(items, line) == items + [line]
  {
  }

  /** A merged quantity is added at the price the line was first added at, not
      at the product's current price; an appended line adds its own subtotal. */
  lemma MergeOrAppendTotal(items: seq<CartItem>, line: CartItem)
    ensures forall i: nat :: FirstMatch(items, line, i) ==>
      Total(MergeOrAppend(items, line)) == Total(items) + items[i].priceAtAddition * line.quantity
    ensures (forall j :: 0 <= j < |items| ==> !SameLine(items[j], line)) ==>
      Total(MergeOrAppend(items, line)) == Total(items) + Subtotal(line)
  {
    forall i: nat | FirstMatch(items, line, i)
      ensures Total(MergeOrAppend(items, line)) == Total(items) + items[i].priceAtAddition * line.quantity
    {
      assert FindIndex(items, SameLineAs(line)) == Some(i);
      MergeAt(items, line, i);
      TotalReplace(items, i, items[i].(quantity := items[i].quantity + line.quantity));
      SubtotalAddQuantity(items[i], line.quantity);
    }
    if forall j :: 0 <= j < |items| ==> !SameLine(items[j], line) {
      AppendWhenNew(items, line);
      TotalAppend(items, line);
    }
  }

  /** Merging or appending a line that passes the line schema into lines that
      all pass it leaves lines that all pass it: addToCart's save never fails
      for a valid request. */
  lemma MergeKeepsSchema(user: Id, items: seq<CartItem>, line: CartItem, total: int)
    requires SchemaValid(Cart(user, items, total))
    requires ItemValid(line)
    ensures SchemaValid(Cart(user, MergeOrAppend(items, line), total))
  {
    var r := MergeOrAppend(items, line);
    MergeOrAppendLines(items, line);
    forall k | 0 <= k < |r|
      ensures ItemValid(r[k])
    {
      if k >= |items| {
        assert r == items + [line];
      }
    }
  }

  /** Two requests that differ only in the case of the colour both pass the
      colour check, yet the second becomes a line of its own. */
  lemma CaseVariantColorsNotMerged()
    ensures var tee := ProductModel.Product("Tee", "", Some(1500), ["Medium"], ["Red"], "Regular", []);
            var first := NewLine(1, 7, "Medium", "Red", None, 1, None, 1500);
            var second := NewLine(2, 7, "Medium", "red", None, 1, None, 1500);
            CheckRequest(map[7 := tee], 7, "Medium", "Red") == None &&
            CheckRequest(map[7 := tee], 7, "Medium", "red") == None &&
            MergeOrAppend([first], second) == [first, second]
  {
    assert Lower("Red") == "red" by {
      assert LowerChar('R') == 'r';
    }
    assert Lower("red") == "red";
    var tee := ProductModel.Product("Tee", "", Some(1500), ["Medium"], ["Red"], "Regular", []);
    assert ColorOffered(tee.availableColors, "Red") && ColorOffered(tee.availableColors, "red") by {
      assert Lower(tee.availableColors[0]) == "red";
    }
    var first := NewLine(1, 7, "Medium", "Red", None, 1, None, 1500);
    var second := NewLine(2, 7, "Medium", "red", None, 1, None, 1500);
    assert !SameLine(first, second);
    MergeOrAppendLines([first], second);
    assert MergeOrAppend([first], second) == [first] + [second];
  }

  /** The design upload of an updateCartItem request. */
  datatype Upload = NoFile | File(filename: string) | UploadError(message: string)

  /** The fields updateCartItem writes into a line: a new design when a file
      came, quantity, size and colour only when the value sent is truthy
      (non-zero, non-empty), customText whenever it was sent. */
  function Patch(it: CartItem, upload: Upload, quantity: Option<int>, size: string, color: string,
                 customText: Option<string>): (r: CartItem)
    ensures r.id == it.id && r.product == it.product && r.priceAtAddition == it.priceAtAddition
    ensures upload.File? ==> r.design == Some(DesignPath(upload.filename))
    ensures !upload.File? ==> r.design == it.design
    ensures quantity.Some? && quantity.value != 0 ==> r.quantity == quantity.value
    ensures quantity.None? || quantity.value == 0 ==> r.quantity == it.quantity
    ensures size != "" ==> r.size == size
    ensures size == "" ==> r.size == it.size
    ensures color != "" ==> r.color == color
    ensures color == "" ==> r.color == it.color
    ensures customText.Some? ==> r.customText == customText
    ensures customText.None? ==> r.customText == it.customText
  {
    it.(design := if upload.File? then Some(DesignPath(upload.filename)) else it.design,
        quantity := if quantity.Some? && quantity.value != 0 then quantity.value else it.quantity,
        size := if size != "" then size else it.size,
        color := if color != "" then color else it.color,
        customText := if customText.Some? then customText else it.customText)
  }

  /** A request that sends nothing truthy and no customText leaves the line as it was;
      in particular a quantity of 0 is ignored. */
  lemma PatchIgnoresFalsy(it: CartItem, customText: Option<string>)
    ensures Patch(it, NoFile, Some(0), "", "", None) == it
    ensures Patch(it, NoFile, None, "", "", customText).quantity == it.quantity
  {
  }

  /** Sending the same update twice is the same as sending it once. */
  lemma PatchIdempotent(it: CartItem, upload: Upload, quantity: Option<int>, size: string, color: string,
                        customText: Option<string>)
    ensures var once := Patch(it, upload, quantity, size, color, customText);
            Patch(once, upload, quantity, size, color, customText) == once
  {
  }

  /** The cart document a request works on: Mongoose's in-memory copy of one
      Cart, whose fields the handler assigns before `save()`. */
  class CartDocument {
    var user: Id
    var items: seq<CartItem>
    var total: int

    /** The total is the fold over the lines, so the document is ready to save. */
    ghost predicate TotalFresh()
      reads this
    {
      total == Total(items)
    }

    function Value(): Cart
      reads this
    {
      Cart(user, items, total)
    }

    /** `Cart.findOne(...)`: a copy of the stored cart. */
    constructor Load(c: Cart)
      ensures Value() == c
    {
      user, items, total := c.user, c.items, c.total;
    }

    /** `new Cart({ user, items })`: total takes its schema default. */
    constructor Create(user: Id, items: seq<CartItem>)
      ensures Value() == Cart(user, items, DefaultTotal)
    {
      this.user, this.items, this.total := user, items, DefaultTotal;
    }

    /** addToCart lines 66-78: `quantity +=` on the first matching line, else push. */
    method AddLine(line: CartItem)
      modifies this
      ensures items == MergeOrAppend(old(items), line)
      ensures user == old(user) && total == old(total)
    {
      var k := FindIndex(items, SameLineAs(line));
      if k.Some? {
        var i := k.value;
        MergeAt(items, line, i);
        items := items[i := items[i].(quantity := items[i].quantity + line.quantity)];
      } else {
        AppendWhenNew(items, line);
        items := items + [line];
      }
    }

    /** updateCartItem lines 124-139: the field assignments on line `i`. */
    method PatchLine(i: nat, upload: Upload, quantity: Option<int>, size: string, color: string,
                     customText: Option<string>)
      requires i < |items|
      modifies this
      ensures items == old(items)[i := Patch(old(items[i]), upload, quantity, size, color, customText)]
      ensures user == old(user) && total == old(total)
    {
      var it := items[i];
      if upload.File? {
        it := it.(design := Some(DesignPath(upload.filename)));
      }
      if quantity.Some? && quantity.value != 0 {
        it := it.(quantity := quantity.value);
      }
      if size != "" {
        it := it.(size := size);
      }
      if color != "" {
        it := it.(color := color);
      }
      it := it.(customText := if customText.Some? then customText else it.customText);
      items := items[i := it];
    }

    /** removeFromCart line 169: `items.splice(i, 1)`. */
    method RemoveLine(i: nat)
      requires i < |items|
      modifies this
      ensures items == RemoveAt(old(items), i)
      ensures user == old(user) && total == old(total)
    {
      items := items[..i] + items[i + 1..];
    }

    /** `cart.total = cart.items.reduce(...)`. */
    method RecomputeTotal()
      modifies this
      ensures TotalFresh()
      ensures user == old(user) && items == old(items)
    {
      total := Total(items);
    }
  }

  /** GET /api/cart: the user's cart, created empty (no lines, total 0) when
      there is none. */
  method GetCart(db: Db.Database, user: Id) returns (c: Cart)
    requires db.Valid()
    modifies db
    ensures db.Valid()
    ensures user in old(db.carts) ==> c == old(db.carts)[user] && db.carts == old(db.carts)
    ensures user !in old(db.carts) ==> c == Cart(user, [], 0) && db.carts == old(db.carts)[user := c]
    ensures db.products == old(db.products) && db.orders == old(db.orders) && db.nextId == old(db.nextId)
  {
    if user in db.carts {
      return db.carts[user];
    }
    var doc := new CartDocument.Create(user, []);
    var saved := db.SaveCart(doc.Value());
    c := doc.Value();
  }

  /** POST /api/cart. Checks the request against the product, then merges the
      new line into the cart or appends it (creating the cart if needed),
      recomputes the total and saves; the save rejects a cart with a line whose
      quantity is below 1. The new line's ObjectId is the next fresh one. */
  method AddToCart(db: Db.Database, user: Id, productId: Id, size: string, color: string,
                   customText: Option<string>, quantity: int, designFile: Option<string>)
    returns (r: Result<Cart>)
    requires db.Valid()
    modifies db
    ensures db.Valid()
    ensures db.products == old(db.products) && db.orders == old(db.orders)
    ensures CheckRequest(old(db.products), productId, size, color).Some? ==>
      r == Err(CheckRequest(old(db.products), productId, size, color).value) &&
      db.carts == old(db.carts) && db.nextId == old(db.nextId)
    ensures CheckRequest(old(db.products), productId, size, color).None? ==> db.nextId == old(db.nextId) + 1
    ensures CheckRequest(old(db.products), productId, size, color).None? ==>
      var line := NewLine(old(db.nextId), productId, size, color, customText, quantity, designFile,
                          old(db.products)[productId].price.value);
      var items := if user in old(db.carts) then MergeOrAppend(old(db.carts)[user].items, line) else [line];
      var c := Cart(user, items, Total(items));
      (SchemaValid(c) ==> r == Ok(c) && db.carts == old(db.carts)[user := c]) &&
      (!SchemaValid(c) ==> r == Err(ValidationFailed) && db.carts == old(db.carts))
  {
    var check := CheckRequest(db.products, productId, size, color);
    if check.Some? {
      return Err(check.value);
    }
    var product := db.products[productId];
    var id := db.NewIds(1);
    var line := NewLine(id, productId, size, color, customText, quantity, designFile, product.price.value);
    var doc: CartDocument;
    if user in db.carts {
      doc := new CartDocument.Load(db.carts[user]);
      doc.AddLine(line);
    } else {
      doc := new CartDocument.Create(user, [line]);
    }
    doc.RecomputeTotal();
    r := db.SaveCart(doc.Value());
  }

  /** PUT /api/cart/:itemId. Patches the line with that id (see Patch), with no
      check against the product's sizes or colours, recomputes the total and
      saves; a save the schema rejects answers 500. */
  method UpdateCartItem(db: Db.Database, user: Id, itemId: Id, upload: Upload, quantity: Option<int>,
                        size: string, color: string, customText: Option<string>)
    returns (r: Result<Cart>)
    requires db.Valid()
    modifies db
    ensures db.Valid()
    ensures db.products == old(db.products) && db.orders == old(db.orders) && db.nextId == old(db.nextId)
    ensures upload.UploadError? ==> r == Err(BadRequest(upload.message)) && db.carts == old(db.carts)
    ensures !upload.UploadError? && user !in old(db.carts) ==>
      r == Err(NotFound("Cart not found")) && db.carts == old(db.carts)
    ensures !upload.UploadError? && user in old(db.carts) ==>
      var items := old(db.carts)[user].items;
      match FindIndex(items, HasId(itemId))
      case None => r == Err(NotFound("Item not found in cart")) && db.carts == old(db.carts)
      case Some(i) =>
        var patched := items[i := Patch(items[i], upload, quantity, size, color, customText)];
        var c := Cart(user, patched, Total(patched));
        (SchemaValid(c) ==> r == Ok(c) && db.carts == old(db.carts)[user := c]) &&
        (!SchemaValid(c) ==> r == Err(ServerError("Server error while updating cart item")) &&
                             db.carts == old(db.carts))
  {
    if upload.UploadError? {
      return Err(BadRequest(upload.message));
    }
    if user !in db.carts {
      return Err(NotFound("Cart not found"));
    }
    var doc := new CartDocument.Load(db.carts[user]);
    var k := FindIndex(doc.items, HasId(itemId));
    if k.None? {
      return Err(NotFound("Item not found in cart"));
    }
    doc.PatchLine(k.value, upload, quantity, size, color, customText);
    doc.RecomputeTotal();
    var saved := db.SaveCart(doc.Value());
    if saved.Err? {
      return Err(ServerError("Server error while updating cart item"));
    }
    r := saved;
  }

  /** DELETE /api/cart/:itemId. Splices out the first line with that id, keeps
      the others in order, recomputes the total and saves; an unknown id
      changes nothing. */
  method RemoveFromCart(db: Db.Database, user: Id, itemId: Id) returns (r: Result<Cart>)
    requires db.Valid()
    modifies db
    ensures db.Valid()
    ensures db.products == old(db.products) && db.orders == old(db.orders) && db.nextId == old(db.nextId)
    ensures user !in old(db.carts) ==> r == Err(NotFound("Cart not found")) && db.carts == old(db.carts)
    ensures user in old(db.carts) ==>
      var items := old(db.carts)[user].items;
      match FindIndex(items, HasId(itemId))
      case None => r == Err(NotFound("Item not found in cart")) && db.carts == old(db.carts)
      case Some(i) =>
        var rest := RemoveAt(items, i);
        r == Ok(Cart(user, rest, Total(rest))) && db.carts == old(db.carts)[user := r.value] &&
        r.value.total == old(db.carts)[user].total - Subtotal(items[i])
  {
    if user !in db.carts {
      return Err(NotFound("Cart not found"));
    }
    var doc := new CartDocument.Load(db.carts[user]);
    var k := FindIndex(doc.items, HasId(itemId));
    if k.None? {
      return Err(NotFound("Item not found in cart"));
    }
    TotalRemove(doc.items, k.value);
    doc.RemoveLine(k.value);
    doc.RecomputeTotal();
    r := db.SaveCart(doc.Value());
  }
}
