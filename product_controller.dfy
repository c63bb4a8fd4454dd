/** controllers/productController.js: creating and updating products, and the
    bookkeeping of each product's `images` list (which image is primary).
    Cloudinary's delete call is a parameter that either succeeds or fails. */
module ProductController {
  import opened Common
  import opened ProductModel
  import Db

  /** A file multer stored on Cloudinary: its URL and its public id. */
  datatype UploadedFile = UploadedFile(path: string, filename: string)

  /** The `req.files.map` of createProduct (`firstIsPrimary`) and of
      updateProduct (not): image k gets the k-th fresh id after `base`. */
  function ImagesFrom(files: seq<UploadedFile>, base: Id, firstIsPrimary: bool): (r: seq<Image>)
    ensures |r| == |files|
    ensures forall k :: 0 <= k < |files| ==>
      r[k].id == base + k && r[k].url == files[k].path && r[k].cloudinaryId == files[k].filename
    ensures forall k :: 0 <= k < |files| ==> (r[k].isPrimary <==> firstIsPrimary && k == 0)
  {
    seq(|files|, k requires 0 <= k < |files| =>
      Image(base + k, files[k].path, files[k].filename, firstIsPrimary && k == 0))
  }

  /** `a || b` on strings: an empty `a` falls back to `b`, so the result is
      empty only when both are, and a present value is kept as it is. */
  function Or(a: string, b: string): (r: string)
    ensures r == "" <==> a == "" && b == ""
    ensures a != "" ==> r == a
    ensures a == "" ==> r == b
  {
    if a != "" then a else b
  }

  /** The findIndex callback and `images.id(...)` lookup by image id. */
  function ImageHasId(imageId: Id): Image -> bool
  {
    (img: Image) => img.id == imageId
  }

  /** The image list after deleteProductImage removed image `i`: the others in
      order, and when the removed image was primary the new first image is
      promoted. Only that one flag can differ from a plain splice. */
  function AfterDelete(images: seq<Image>, i: nat): (r: seq<Image>)
    requires i < |images|
    ensures |r| == |images| - 1
    ensures forall j :: 0 <= j < |r| ==> r[j].(isPrimary := false) == RemoveAt(images, i)[j].(isPrimary := false)
    ensures forall j :: 0 < j < |r| ==> r[j] == RemoveAt(images, i)[j]
    ensures !images[i].isPrimary ==> r == RemoveAt(images, i)
    ensures images[i].isPrimary && |r| > 0 ==> r[0].isPrimary
    ensures AtMostOnePrimary(images) ==> AtMostOnePrimary(r)
    ensures AtMostOnePrimary(images) && images[i].isPrimary && |r| > 0 ==> OnlyPrimary(r, 0)
  {
    var rest := RemoveAt(images, i);
    if images[i].isPrimary && |rest| > 0 then rest[0 := rest[0].(isPrimary := true)] else rest
  }

  /** Appending images that are not primary keeps at most one primary. */
  lemma AppendNonPrimary(images: seq<Image>, added: seq<Image>)
    requires AtMostOnePrimary(images)
    requires forall k :: 0 <= k < |added| ==> !added[k].isPrimary
    ensures AtMostOnePrimary(images + added)
  {
  }

  /** The images of a new product: with files, exactly the first is primary;
      with none, the list is empty. */
  lemma CreatedImages(files: seq<UploadedFile>, base: Id)
    ensures |files| == 0 ==> ImagesFrom(files, base, true) == []
    ensures |files| > 0 ==> OnlyPrimary(ImagesFrom(files, base, true), 0)
    ensures AtMostOnePrimary(ImagesFrom(files, base, true))
  {
  }

  /** setPrimaryImage's `images.forEach(img => { img.isPrimary = false; })`. */
  method ClearPrimaryFlags(images: seq<Image>) returns (r: seq<Image>)
    ensures |r| == |images|
    ensures forall j :: 0 <= j < |images| ==> r[j] == images[j].(isPrimary := false)
  {
    r := images;
    var i := 0;
    while i < |r|
      invariant 0 <= i <= |r| == |images|
      invariant forall j :: 0 <= j < i ==> r[j] == images[j].(isPrimary := false)
      invariant forall j :: i <= j < |r| ==> r[j] == images[j]
    {
      r := r[i := r[i].(isPrimary := false)];
      i := i + 1;
    }
  }

  /** deleteProduct's `for (const image of product.images) await deleteFromCloudinary(...)`
      inside one try: the calls go in order and the first failure ends the loop.
      The result is the public ids the loop asked Cloudinary to delete. */
  method DeleteFromCloud(images: seq<Image>, destroy: string -> bool) returns (attempted: seq<string>)
    ensures |attempted| <= |images|
    ensures forall j :: 0 <= j < |attempted| ==> attempted[j] == images[j].cloudinaryId
    ensures forall j :: 0 <= j < |attempted| - 1 ==> destroy(attempted[j])
    ensures |attempted| < |images| ==> |attempted| > 0 && !destroy(attempted[|attempted| - 1])
    ensures (forall j :: 0 <= j < |images| ==> destroy(images[j].cloudinaryId)) ==> |attempted| == |images|
  {
    attempted := [];
    var i := 0;
    while i < |images|
      invariant 0 <= i <= |images| && |attempted| == i
      invariant forall j :: 0 <= j < i ==> attempted[j] == images[j].cloudinaryId && destroy(attempted[j])
    {
      attempted := attempted + [images[i].cloudinaryId];
      if !destroy(images[i].cloudinaryId) {
        return;
      }
      i := i + 1;
    }
  }

  /** POST /api/products. Images from the uploaded files, the first one
      primary; a falsy `stylee` becomes "Regular"; the save rejects a product
      without name or price, or with a size outside the enum. The product takes
      the next fresh key and its images the ids after it. */
  method CreateProduct(db: Db.Database, name: string, description: string, price: Option<int>,
                       availableSizes: seq<string>, availableColors: seq<string>, stylee: string,
                       files: seq<UploadedFile>)
    returns (r: Result<Product>)
    requires db.Valid()
    modifies db
    ensures db.Valid()
    ensures db.carts == old(db.carts) && db.orders == old(db.orders)
    ensures db.nextId == old(db.nextId) + 1 + |files|
    ensures var p := Product(name, description, price, availableSizes, availableColors, Or(stylee, "Regular"),
                             ImagesFrom(files, old(db.nextId) + 1, true));
      (SchemaValid(p) ==> r == Ok(p) && db.products == old(db.products)[old(db.nextId) := p]) &&
      (!SchemaValid(p) ==> r == Err(ValidationFailed) && db.products == old(db.products))
    ensures old(db.nextId) !in old(db.products)
    ensures r.Ok? ==> (|files| == 0 ==> r.value.images == []) &&
                      (|files| > 0 ==> OnlyPrimary(r.value.images, 0))
  {
    var key := db.NewIds(1 + |files|);
    var images := ImagesFrom(files, key + 1, true);
    CreatedImages(files, key + 1);
    var product := Product(name, description, price, availableSizes, availableColors,
                           Or(stylee, "Regular"), images);
    r := db.SaveProduct(key, product);
  }

  /** PUT /api/products/:id. Uploaded files are appended after the existing
      images, none of them primary; every scalar field keeps its old value
      when the new one is falsy (for the price: absent or 0). */
  method UpdateProduct(db: Db.Database, key: Id, name: string, description: string, price: Option<int>,
                       availableSizes: Option<seq<string>>, availableColors: Option<seq<string>>,
                       stylee: string, files: seq<UploadedFile>)
    returns (r: Result<Product>)
    requires db.Valid()
    modifies db
    ensures db.Valid()
    ensures db.carts == old(db.carts) && db.orders == old(db.orders)
    ensures key !in old(db.products) ==>
      r == Err(NotFound("Product not found")) && db.products == old(db.products) && db.nextId == old(db.nextId)
    ensures key in old(db.products) ==> db.nextId == old(db.nextId) + |files|
    ensures key in old(db.products) ==>
      var old_ := old(db.products)[key];
      var images := if |files| > 0 then old_.images + ImagesFrom(files, old(db.nextId), false) else old_.images;
      var p := Product(Or(name, old_.name), Or(description, old_.description),
                       if price.Some? && price.value != 0 then price else old_.price,
                       if availableSizes.Some? then availableSizes.value else old_.availableSizes,
                       if availableColors.Some? then availableColors.value else old_.availableColors,
                       Or(stylee, old_.stylee), images);
      (SchemaValid(p) ==> r == Ok(p) && db.products == old(db.products)[key := p]) &&
      (!SchemaValid(p) ==> r == Err(ValidationFailed) && db.products == old(db.products))
  {
    if key !in db.products {
      return Err(NotFound("Product not found"));
    }
    var product := db.products[key];
    if |files| > 0 {
      var base := db.NewIds(|files|);
      var added := ImagesFrom(files, base, false);
      AppendNonPrimary(product.images, added);
      product := product.(images := product.images + added);
    }
    product := product.(name := Or(name, product.name));
    product := product.(description := Or(description, product.description));
    product := product.(price := if price.Some? && price.value != 0 then price else product.price);
    product := product.(availableSizes := if availableSizes.Some? then availableSizes.value else product.availableSizes);
    product := product.(availableColors := if availableColors.Some? then availableColors.value else product.availableColors);
    product := product.(stylee := Or(stylee, product.stylee));
    r := db.SaveProduct(key, product);
  }

  /** DELETE /api/products/:id/images/:imageId. Unknown product or image: 404,
      no change. A failed Cloudinary delete: 500, nothing removed. Otherwise
      the first image with that id is removed (see AfterDelete). */
  method DeleteProductImage(db: Db.Database, key: Id, imageId: Id, destroyed: bool) returns (r: Result<Product>)
    requires db.Valid()
    modifies db
    ensures db.Valid()
    ensures db.carts == old(db.carts) && db.orders == old(db.orders) && db.nextId == old(db.nextId)
    ensures key !in old(db.products) ==> r == Err(NotFound("Product not found")) && db.products == old(db.products)
    ensures key in old(db.products) ==>
      var images := old(db.products)[key].images;
      match FindIndex(images, ImageHasId(imageId))
      case None => r == Err(NotFound("Image not found")) && db.products == old(db.products)
      case Some(i) =>
        (!destroyed ==> r == Err(ServerError("Error deleting image")) && db.products == old(db.products)) &&
        (destroyed ==> r == Ok(old(db.products)[key].(images := AfterDelete(images, i))) &&
                       db.products == old(db.products)[key := r.value])
  {
    if key !in db.products {
      return Err(NotFound("Product not found"));
    }
    var product := db.products[key];
    var k := FindIndex(product.images, ImageHasId(imageId));
    if k.None? {
      return Err(NotFound("Image not found"));
    }
    var i := k.value;
    if !destroyed {
      return Err(ServerError("Error deleting image"));
    }
    var wasPrimary := product.images[i].isPrimary;
    var images := RemoveAt(product.images, i);
    if wasPrimary && |images| > 0 {
      images := images[0 := images[0].(isPrimary := true)];
    }
    product := product.(images := images);
    r := db.SaveProduct(key, product);
  }

  /** PATCH /api/products/:id/images/:imageId/primary. Every flag is cleared
      on the loaded copy, then the first image with that id is made primary
      and saved; an unknown id answers 404 before the save, so the stored
      product keeps its flags. */
  method SetPrimaryImage(db: Db.Database, key: Id, imageId: Id) returns (r: Result<Product>)
    requires db.Valid()
    modifies db
    ensures db.Valid()
    ensures db.carts == old(db.carts) && db.orders == old(db.orders) && db.nextId == old(db.nextId)
    ensures key !in old(db.products) ==> r == Err(NotFound("Product not found")) && db.products == old(db.products)
    ensures key in old(db.products) ==>
      var images := old(db.products)[key].images;
      match FindIndex(images, ImageHasId(imageId))
      case None => r == Err(NotFound("Image not found")) && db.products == old(db.products)
      case Some(i) =>
        r.Ok? && db.products == old(db.products)[key := r.value] &&
        r.value.(images := images) == old(db.products)[key] &&
        |r.value.images| == |images| && OnlyPrimary(r.value.images, i) &&
        forall j :: 0 <= j < |images| ==> r.value.images[j].(isPrimary := false) == images[j].(isPrimary := false)
  {
    if key !in db.products {
      return Err(NotFound("Product not found"));
    }
    var product := db.products[key];
    var cleared := ClearPrimaryFlags(product.images);
    var k := FindIndex(cleared, ImageHasId(imageId));
    assert forall j :: 0 <= j < |cleared| ==> cleared[j].id == product.images[j].id;
    if k.None? {
      return Err(NotFound("Image not found"));
    }
    var i := k.value;
    var images := cleared[i := cleared[i].(isPrimary := true)];
    assert OnlyPrimary(images, i);
    OnlyPrimaryIsAtMostOne(images, i);
    product := product.(images := images);
    r := db.SaveProduct(key, product);
  }

  /** DELETE /api/products/:id. Asks Cloudinary to delete the images in order,
      stopping at the first failure (which is only logged), then removes the
      product in any case. */
  method DeleteProduct(db: Db.Database, key: Id, destroy: string -> bool)
    returns (r: Result<string>, attempted: seq<string>)
    requires db.Valid()
    modifies db
    ensures db.Valid()
    ensures db.carts == old(db.carts) && db.orders == old(db.orders) && db.nextId == old(db.nextId)
    ensures key !in old(db.products) ==>
      r == Err(NotFound("Product not found")) && attempted == [] && db.products == old(db.products)
    ensures key in old(db.products) ==>
      r == Ok("Product removed") && db.products == old(db.products) - {key} &&
      |attempted| <= |old(db.products)[key].images| &&
      (forall j :: 0 <= j < |attempted| ==> attempted[j] == old(db.products)[key].images[j].cloudinaryId) &&
      (forall j :: 0 <= j < |attempted| - 1 ==> destroy(attempted[j])) &&
      (|attempted| < |old(db.products)[key].images| ==>
         |attempted| > 0 && !destroy(attempted[|attempted| - 1])) &&
      ((forall j :: 0 <= j < |old(db.products)[key].images| ==>
          destroy(old(db.products)[key].images[j].cloudinaryId)) ==>
         |attempted| == |old(db.products)[key].images|)
  {
    if key !in db.products {
      return Err(NotFound("Product not found")), [];
    }
    attempted := DeleteFromCloud(db.products[key].images, destroy);
    db.products := db.products - {key};
    r := Ok("Product removed");
  }
}
