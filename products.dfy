/**
 * The `/sync_product` handler: the generic run instantiated for products.
 * `parseFloat` is a parameter of the handler: the model does not interpret
 * the price, it only says which source field the price is parsed from.
 */
module Products {
  import opened Js
  import opened Wrappers
  import opened Failures
  import opened Delta
  import opened SyncRun

  /** A product as the source system returns it. */
  datatype SourceProduct = SourceProduct(
    id_producto: int,
    sku: string,
    nombre: string,
    id_categoria: int,
    precio: JsValue,
    stock: int,
    activo: JsValue)

  /** A product in the destination's vocabulary, as fetched from and posted to it. */
  datatype Product = Product(
    productID: int,
    sku: string,
    productName: string,
    categoryID: int,
    price: JsValue,
    stock: int,
    isActive: bool)

  /** The field rename into the destination's vocabulary, with `parseFloat` applied to the price. */
  function ToProduct(parseFloat: JsValue -> JsValue, p: SourceProduct): Product {
    Product(p.id_producto, p.sku, p.nombre, p.id_categoria, parseFloat(p.precio), p.stock, Truthy(p.activo))
  }

  const ProductLabels: Labels := Labels(
    "sincronizados",
    "No hay productos nuevos para sincronizar.",
    "Error sincronizando productos",
    "productosDestino.map is not a function",
    "productosOrigen.filter is not a function")

  function ProductPipeline(parseFloat: JsValue -> JsValue): Pipeline<SourceProduct, Product> {
    Pipeline((p: SourceProduct) => p.id_producto, (d: Product) => d.productID,
             (p: SourceProduct) => ToProduct(parseFloat, p), ProductLabels)
  }

  /** `GET /sync_product`. */
  function SyncProducts(parseFloat: JsValue -> JsValue,
                        source: Result<Payload<SourceProduct>, Failure>,
                        dest: Result<Payload<Product>, Failure>,
                        reply: seq<Product> -> Result<JsValue, Failure>): (o: Outcome<Product>)
    ensures o.body.Failed? ==> o.body.message == "Error sincronizando productos" && o.body.Status() == 500
    ensures o.body.NothingNew? ==> o.body.message == "No hay productos nuevos para sincronizar."
    ensures o.body.Synced? ==> o.body.countField == "sincronizados" && o.body.count >= 1
  {
    Sync(ProductPipeline(parseFloat), source, dest, reply)
  }

  /** The ids of the destination's products. */
  ghost function DestinationIds(dest: seq<Product>): set<int> {
    set d | d in dest :: d.productID
  }

  /** `d` is `p` in the destination's vocabulary, field by field. */
  ghost predicate RenamedFrom(parseFloat: JsValue -> JsValue, d: Product, p: SourceProduct) {
    && d.productID == p.id_producto
    && d.sku == p.sku
    && d.productName == p.nombre
    && d.categoryID == p.id_categoria
    && d.price == parseFloat(p.precio)
    && d.stock == p.stock
    && d.isActive == Truthy(p.activo)
  }

  /**
   * The products written are exactly the source products whose `id_producto`
   * is not a destination `productID`, each renamed field by field.
   */
  lemma ProductDelta(parseFloat: JsValue -> JsValue, src: seq<SourceProduct>, dest: seq<Product>)
    ensures forall d | d in Pending(ProductPipeline(parseFloat), src, dest) ::
              d.productID !in DestinationIds(dest) &&
              exists p | p in src :: RenamedFrom(parseFloat, d, p)
    ensures forall p | p in src && p.id_producto !in DestinationIds(dest) ::
              exists d | d in Pending(ProductPipeline(parseFloat), src, dest) :: RenamedFrom(parseFloat, d, p)
  {
    var pl := ProductPipeline(parseFloat);
    assert IdSet(dest, pl.destKey) == DestinationIds(dest);
    NewRecordsExact(src, dest, pl.sourceKey, pl.destKey, pl.toDest);
    var r := Pending(pl, src, dest);
    forall d | d in r
      ensures exists p | p in src :: RenamedFrom(parseFloat, d, p)
    {
      var i :| 0 <= i < |r| && r[i] == d;
      var p :| p in src && p.id_producto !in IdSet(dest, pl.destKey) && r[i] == pl.toDest(p);
      assert RenamedFrom(parseFloat, d, p);
    }
    forall p | p in src && p.id_producto !in DestinationIds(dest)
      ensures exists d | d in r :: RenamedFrom(parseFloat, d, p)
    {
      assert pl.toDest(p) in r && RenamedFrom(parseFloat, pl.toDest(p), p);
    }
  }

  /**
   * Running the product sync again, once the destination holds the products
   * a run would post, finds no new products and posts nothing.
   */
  lemma ProductSyncIdempotent(parseFloat: JsValue -> JsValue, src: seq<SourceProduct>, dest: seq<Product>,
                              reply: seq<Product> -> Result<JsValue, Failure>)
    ensures SyncProducts(parseFloat, Ok(Arr(src)), Ok(Arr(dest + Pending(ProductPipeline(parseFloat), src, dest))), reply) ==
            Outcome([GetSource, GetDestination], NothingNew("No hay productos nuevos para sincronizar."), None)
  {
    var pl := ProductPipeline(parseFloat);
    assert KeepsKey(pl.sourceKey, pl.destKey, pl.toDest);
    SecondRunIsNoOp(pl, src, dest, reply);
  }
}
