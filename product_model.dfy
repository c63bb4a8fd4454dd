/** The Product collection (models/Product.js) together with the `images`
    list that productController.js keeps on every product. */
module ProductModel {
  import opened Common

  /** One entry of `product.images`: a Cloudinary URL and public id, and the primary flag. */
  datatype Image = Image(id: Id, url: string, cloudinaryId: string, isPrimary: bool)

  /** A product document. A missing string field is "" (the value Mongoose's
      `required` and JavaScript's `||` both treat as absent); a missing price is None. */
  datatype Product = Product(
    name: string,
    description: string,
    price: Option<int>,
    availableSizes: seq<string>,
    availableColors: seq<string>,
    stylee: string,
    images: seq<Image>)

  /** What `save()` checks: name, price and stylee present, every size in the enum. */
  predicate SchemaValid(p: Product)
  {
    p.name != "" && p.price.Some? && p.stylee != "" &&
    forall i :: 0 <= i < |p.availableSizes| ==> p.availableSizes[i] in SizeEnum
  }

  /** No two images of a list are both primary. */
  predicate AtMostOnePrimary(images: seq<Image>)
  {
    forall i, j :: 0 <= i < j < |images| && images[i].isPrimary ==> !images[j].isPrimary
  }

  /** Image `k` is the primary one and no other is. */
  predicate OnlyPrimary(images: seq<Image>, k: nat)
  {
    k < |images| && forall i :: 0 <= i < |images| ==> (images[i].isPrimary <==> i == k)
  }

  /** A list with a single primary image has at most one. */
  lemma OnlyPrimaryIsAtMostOne(images: seq<Image>, k: nat)
    requires OnlyPrimary(images, k)
    ensures AtMostOnePrimary(images)
  {
  }
}
