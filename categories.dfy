/** The `/sync_category` handler: the generic run instantiated for categories. */
module Categories {
  import opened Js
  import opened Wrappers
  import opened Failures
  import opened Delta
  import opened SyncRun

  /** A category as the source system returns it. */
  datatype SourceCategory = SourceCategory(id_categoria: int, nombre: string, activo: JsValue)

  /** A category in the destination's vocabulary, as fetched from and posted to it. */
  datatype Category = Category(categoryID: int, categoryName: string, isActive: bool)

  /** The field rename into the destination's vocabulary. */
  function ToCategory(c: SourceCategory): Category {
    Category(c.id_categoria, c.nombre, Truthy(c.activo))
  }

  const CategoryLabels: Labels := Labels(
    "sincronizadas",
    "No hay categorías nuevas para sincronizar.",
    "Error sincronizando categorías",
    "categoriasDestino.map is not a function",
    "categoriasOrigen.filter is not a function")

  function CategoryPipeline(): Pipeline<SourceCategory, Category> {
    Pipeline((c: SourceCategory) => c.id_categoria, (d: Category) => d.categoryID, ToCategory, CategoryLabels)
  }

  /** `GET /sync_category`. */
  function SyncCategories(source: Result<Payload<SourceCategory>, Failure>,
                          dest: Result<Payload<Category>, Failure>,
                          reply: seq<Category> -> Result<JsValue, Failure>): (o: Outcome<Category>)
    ensures o.body.Failed? ==> o.body.message == "Error sincronizando categorías" && o.body.Status() == 500
    ensures o.body.NothingNew? ==> o.body.message == "No hay categorías nuevas para sincronizar."
    ensures o.body.Synced? ==> o.body.countField == "sincronizadas" && o.body.count >= 1
  {
    Sync(CategoryPipeline(), source, dest, reply)
  }

  /** The ids of the destination's categories. */
  ghost function DestinationIds(dest: seq<Category>): set<int> {
    set d | d in dest :: d.categoryID
  }

  /**
   * The categories written are exactly the source categories whose
   * `id_categoria` is not a destination `categoryID`, each renamed field by
   * field: `categoryID` from `id_categoria`, `categoryName` from `nombre`,
   * `isActive` from the truthiness of `activo`.
   */
  lemma CategoryDelta(src: seq<SourceCategory>, dest: seq<Category>)
    ensures forall d | d in Pending(CategoryPipeline(), src, dest) ::
              d.categoryID !in DestinationIds(dest) &&
              exists c | c in src :: d.categoryID == c.id_categoria && d.categoryName == c.nombre && d.isActive == Truthy(c.activo)
    ensures forall c | c in src && c.id_categoria !in DestinationIds(dest) ::
              Category(c.id_categoria, c.nombre, Truthy(c.activo)) in Pending(CategoryPipeline(), src, dest)
  {
    var p := CategoryPipeline();
    assert IdSet(dest, p.destKey) == DestinationIds(dest);
    NewRecordsExact(src, dest, p.sourceKey, p.destKey, p.toDest);
    var r := Pending(p, src, dest);
    forall d | d in r
      ensures exists c | c in src :: d.categoryID == c.id_categoria && d.categoryName == c.nombre && d.isActive == Truthy(c.activo)
    {
      var i :| 0 <= i < |r| && r[i] == d;
      var c :| c in src && c.id_categoria !in IdSet(dest, p.destKey) && r[i] == ToCategory(c);
    }
  }

  /**
   * Running the category sync again, once the destination holds the
   * categories a run would post, finds no new categories and posts nothing.
   */
  lemma CategorySyncIdempotent(src: seq<SourceCategory>, dest: seq<Category>,
                               reply: seq<Category> -> Result<JsValue, Failure>)
    ensures SyncCategories(Ok(Arr(src)), Ok(Arr(dest + Pending(CategoryPipeline(), src, dest))), reply) ==
            Outcome([GetSource, GetDestination], NothingNew("No hay categorías nuevas para sincronizar."), None)
  {
    var p := CategoryPipeline();
    assert KeepsKey(p.sourceKey, p.destKey, p.toDest);
    SecondRunIsNoOp(p, src, dest, reply);
  }

  /**
   * Books (id 1, active) and Toys (id 2, inactive) upstream, category 1
   * downstream: one POST carrying Toys as inactive, and a count of 1.
   */
  lemma OneMissingCategory(reply: seq<Category> -> Result<JsValue, Failure>)
    requires reply([Category(2, "Toys", false)]).Ok?
    ensures var o := SyncCategories(
                       Ok(Arr([SourceCategory(1, "Books", Number(1.0)), SourceCategory(2, "Toys", Number(0.0))])),
                       Ok(Arr([Category(1, "Books", true)])),
                       reply);
            && o.calls == [GetSource, GetDestination, Post([Category(2, "Toys", false)])]
            && o.body == Synced("sincronizadas", 1, reply([Category(2, "Toys", false)]).value)
  {
    var src := [SourceCategory(1, "Books", Number(1.0)), SourceCategory(2, "Toys", Number(0.0))];
    var dest := [Category(1, "Books", true)];
    var p := CategoryPipeline();
    assert IdSet(dest, p.destKey) == {1};
    assert Unmatched(src, p.sourceKey, {1}) == [src[1]] by {
      assert Unmatched(src[1..], p.sourceKey, {1}) == [src[1]] + Unmatched(src[2..], p.sourceKey, {1});
    }
    assert MapAll([src[1]], p.toDest) == [Category(2, "Toys", false)];
  }

  /**
   * When every source category's id is already a destination id, the run
   * answers "nothing new" and issues no POST.
   */
  lemma CategoriesAllPresent(src: seq<SourceCategory>, dest: seq<Category>,
                             reply: seq<Category> -> Result<JsValue, Failure>)
    requires forall c | c in src :: c.id_categoria in DestinationIds(dest)
    ensures SyncCategories(Ok(Arr(src)), Ok(Arr(dest)), reply) ==
            Outcome([GetSource, GetDestination], NothingNew("No hay categorías nuevas para sincronizar."), None)
  {
    var p := CategoryPipeline();
    assert IdSet(dest, p.destKey) == DestinationIds(dest);
    AllMatchedIsEmpty(src, p.sourceKey, IdSet(dest, p.destKey));
  }
}
