/** What each /api/products handler answers and what the product list is
    afterwards, as functions of the list before the request. */
module Routes {
  import opened Text
  import opened Catalog

  /** The JSON a handler sends. */
  datatype Body =
    | ProductJson(product: Product)
    | ProductListJson(products: seq<Product>)
    | ErrorJson(error: string)
    | NoContent

  datatype Response = Response(status: nat, body: Body)

  /** A handler's reply together with the product list it leaves behind. */
  datatype Outcome = Outcome(response: Response, products: seq<Product>)

  const NotFound := Response(404, ErrorJson("Product not found"))
  const MissingFields := Response(400, ErrorJson("Missing required fields"))
  const NothingToDo := Response(400, ErrorJson("Nothing to update"))
  const Deleted := Response(204, NoContent)

  /** The result of findProductOr404: the record found, or the 404 reply. */
  datatype Lookup = Found(index: nat) | Missing(response: Response)

  function FindOr404(ps: seq<Product>, id: string): (r: Lookup)
    ensures r.Missing? <==> !AnyWithId(ps, id)
    ensures r.Missing? ==> r.response == NotFound
    ensures r.Found? ==> r.index < |ps| && ps[r.index].id == id
    ensures r.Found? ==> forall k :: 0 <= k < r.index ==> ps[k].id != id
  {
    match FindIndex(ps, id)
    case None => Missing(NotFound)
    case Some(i) => Found(i)
  }

  /** GET /api/products/:id */
  function GetRoute(ps: seq<Product>, id: string): (r: Response)
    ensures r.status == 200 || r.status == 404
    ensures r.status == 404 <==> !AnyWithId(ps, id)
    ensures r.status == 404 ==> r == NotFound
    ensures r.status == 200 ==> r.body == ProductJson(ps[FindIndex(ps, id).value])
  {
    match FindOr404(ps, id)
    case Missing(resp) => resp
    case Found(i) => Response(200, ProductJson(ps[i]))
  }

  /** POST /api/products, newId standing for the id nanoid draws. */
  function PostRoute(ps: seq<Product>, b: Payload, newId: string): (r: Outcome)
    ensures r.response.status == 400 <==> MissingRequired(b)
    ensures MissingRequired(b) ==> r == Outcome(MissingFields, ps)
    ensures !MissingRequired(b) ==> && r.response == Response(201, ProductJson(NewProduct(b, newId)))
                                    && |r.products| == |ps| + 1
                                    && r.products[..|ps|] == ps
                                    && r.products[|ps|] == NewProduct(b, newId)
  {
    if MissingRequired(b) then Outcome(MissingFields, ps)
    else
      var p := NewProduct(b, newId);
      Outcome(Response(201, ProductJson(p)), ps + [p])
  }

  /** PATCH /api/products/:id */
  function PatchRoute(ps: seq<Product>, id: string, b: Payload): (r: Outcome)
    ensures r.response.status == 404 <==> !AnyWithId(ps, id)
    ensures !AnyWithId(ps, id) ==> r == Outcome(NotFound, ps)
    ensures AnyWithId(ps, id) && NothingToUpdate(b) ==> r == Outcome(NothingToDo, ps)
    ensures |r.products| == |ps|
    ensures r.response.status == 200 ==> r.response.body.ProductJson? && r.response.body.product.id == id
  {
    match FindOr404(ps, id)
    case Missing(resp) => Outcome(resp, ps)
    case Found(i) =>
      if NothingToUpdate(b) then Outcome(NothingToDo, ps)
      else
        var p := ApplyPatch(ps[i], b);
        Outcome(Response(200, ProductJson(p)), ps[i := p])
  }

  /** A successful PATCH replaces the record products.find lands on by its
      patched copy, replies with that copy, and leaves every other record
      where and as it was. */
  lemma PatchUpdatesFound(ps: seq<Product>, id: string, b: Payload)
    requires AnyWithId(ps, id) && !NothingToUpdate(b)
    ensures var i := FindIndex(ps, id).value;
            && PatchRoute(ps, id, b).response == Response(200, ProductJson(ApplyPatch(ps[i], b)))
            && PatchRoute(ps, id, b).products[i] == ApplyPatch(ps[i], b)
            && forall k :: 0 <= k < |ps| && k != i ==> PatchRoute(ps, id, b).products[k] == ps[k]
  {
  }

  /** DELETE /api/products/:id */
  function DeleteRoute(ps: seq<Product>, id: string): (r: Outcome)
    ensures r.response.status == 404 <==> !AnyWithId(ps, id)
    ensures !AnyWithId(ps, id) ==> r == Outcome(NotFound, ps)
    ensures AnyWithId(ps, id) ==> r.response == Deleted && |r.products| < |ps|
    ensures AnyWithId(ps, id) ==> r.products == Without(ps, id)
    ensures !AnyWithId(r.products, id)
  {
    if !AnyWithId(ps, id) then Outcome(NotFound, ps)
    else Outcome(Deleted, Without(ps, id))
  }

  // ---------- what every handler preserves ----------

  /** POST with a fresh id keeps the ids distinct. */
  lemma PostKeepsIdsUnique(ps: seq<Product>, b: Payload, newId: string)
    requires UniqueIds(ps) && !AnyWithId(ps, newId)
    ensures UniqueIds(PostRoute(ps, b, newId).products)
  {
    if !MissingRequired(b) {
      var r := PostRoute(ps, b, newId).products;
      assert forall k :: 0 <= k < |ps| ==> r[k] == ps[k];
    }
  }

  /** PATCH never changes an id, so it keeps the ids distinct. */
  lemma PatchKeepsIdsUnique(ps: seq<Product>, id: string, b: Payload)
    requires UniqueIds(ps)
    ensures UniqueIds(PatchRoute(ps, id, b).products)
  {
    if AnyWithId(ps, id) && !NothingToUpdate(b) {
      var i := FindIndex(ps, id).value;
      PatchUpdatesFound(ps, id, b);
    }
  }

  /** DELETE keeps the ids distinct. */
  lemma DeleteKeepsIdsUnique(ps: seq<Product>, id: string)
    requires UniqueIds(ps)
    ensures UniqueIds(DeleteRoute(ps, id).products)
  {
    if AnyWithId(ps, id) {
      var i := FindIndex(ps, id).value;
      WithoutUnique(ps, id, i);
      var r := ps[..i] + ps[i + 1..];
      assert forall k :: 0 <= k < |r| ==> r[k] == ps[if k < i then k else k + 1];
    }
  }

  /** POST stores its text fields trimmed, so a list whose text is trimmed
      stays so. */
  lemma PostKeepsTrimmed(ps: seq<Product>, b: Payload, newId: string)
    requires AllTextTrimmed(ps)
    ensures AllTextTrimmed(PostRoute(ps, b, newId).products)
  {
    if !MissingRequired(b) {
      var r := PostRoute(ps, b, newId).products;
      assert forall k :: 0 <= k < |ps| ==> r[k] == ps[k];
    }
  }

  /** PATCH trims the text fields it writes. */
  lemma PatchKeepsTrimmedList(ps: seq<Product>, id: string, b: Payload)
    requires AllTextTrimmed(ps)
    ensures AllTextTrimmed(PatchRoute(ps, id, b).products)
  {
    if AnyWithId(ps, id) && !NothingToUpdate(b) {
      var i := FindIndex(ps, id).value;
      PatchUpdatesFound(ps, id, b);
      PatchKeepsTrimmed(ps[i], b);
    }
  }

  /** DELETE only drops records. */
  lemma DeleteKeepsTrimmed(ps: seq<Product>, id: string)
    requires AllTextTrimmed(ps)
    ensures AllTextTrimmed(DeleteRoute(ps, id).products)
  {
    if AnyWithId(ps, id) {
      var r := Without(ps, id);
      forall k | 0 <= k < |r| ensures TextTrimmed(r[k]) {
        WithoutCounts(ps, id, r[k]);
        assert r[k] in multiset(r);
        assert r[k] in ps;
      }
    }
  }

  // ---------- what one request tells about the next ----------

  /** With unique ids, GET answers with the one record carrying the id. */
  lemma GetUnique(ps: seq<Product>, id: string, i: nat)
    requires UniqueIds(ps) && i < |ps| && ps[i].id == id
    ensures GetRoute(ps, id) == Response(200, ProductJson(ps[i]))
  {
  }

  /** GET right after a successful POST returns the record just created,
      provided the drawn id is new. */
  lemma GetAfterPost(ps: seq<Product>, b: Payload, newId: string)
    requires !MissingRequired(b) && !AnyWithId(ps, newId)
    ensures GetRoute(PostRoute(ps, b, newId).products, newId) == Response(200, ProductJson(NewProduct(b, newId)))
  {
    var after := PostRoute(ps, b, newId).products;
    assert after[|ps|].id == newId;
  }

  /** After DELETE, GET on the same id is 404, whatever DELETE answered. */
  lemma GetAfterDelete(ps: seq<Product>, id: string)
    ensures GetRoute(DeleteRoute(ps, id).products, id) == NotFound
  {
  }

  /** After a successful PATCH, GET on the same id returns what PATCH
      returned. */
  lemma GetAfterPatch(ps: seq<Product>, id: string, b: Payload)
    requires AnyWithId(ps, id) && !NothingToUpdate(b)
    ensures GetRoute(PatchRoute(ps, id, b).products, id) == PatchRoute(ps, id, b).response
  {
    var r := PatchRoute(ps, id, b);
    var i := FindIndex(ps, id).value;
    PatchUpdatesFound(ps, id, b);
    assert r.products[i].id == id;
  }

  /** PATCH is idempotent: sending the same body twice gives the same reply
      and the same list as sending it once. */
  lemma PatchIdempotent(ps: seq<Product>, id: string, b: Payload)
    ensures PatchRoute(PatchRoute(ps, id, b).products, id, b) == PatchRoute(ps, id, b)
  {
    if AnyWithId(ps, id) && !NothingToUpdate(b) {
      var r := PatchRoute(ps, id, b);
      var i := FindIndex(ps, id).value;
      PatchUpdatesFound(ps, id, b);
      PatchIdempotentRecord(ps[i], b);
      GetAfterPatch(ps, id, b);
      assert FindIndex(r.products, id) == Some(i);
      PatchUpdatesFound(r.products, id, b);
      assert r.products[i := ApplyPatch(r.products[i], b)] == r.products;
    }
  }

  /** With unique ids, a successful DELETE removes exactly the one record
      and keeps the others in their order. */
  lemma DeleteRemovesOne(ps: seq<Product>, id: string, i: nat)
    requires UniqueIds(ps) && i < |ps| && ps[i].id == id
    ensures DeleteRoute(ps, id) == Outcome(Deleted, ps[..i] + ps[i + 1..])
  {
    WithoutUnique(ps, id, i);
  }

  /** A POST whose name is whitespace only passes the presence test (the
      test runs before trimming) and stores an empty name. */
  lemma BlankNameAccepted(ps: seq<Product>, b: Payload, newId: string)
    requires b.name.Some? && b.name.value != [] && AllWhitespace(b.name.value)
    requires Truthy(b.category) && Truthy(b.description) && b.price.Some? && b.stock.Some?
    ensures PostRoute(ps, b, newId).response.status == 201
    ensures PostRoute(ps, b, newId).products[|ps|].name == ""
  {
    TrimEmptyIffBlank(b.name.value);
  }

  /** A rating of 0 and an absent rating give POST the same outcome,
      whether or not the body passes the presence test. */
  lemma PostRatingZeroAsAbsent(ps: seq<Product>, b: Payload, newId: string)
    requires b.rating == Some(0.0)
    ensures PostRoute(ps, b, newId) == PostRoute(ps, b.(rating := None), newId)
  {
  }

  /** A POST of a mug with no rating or image on a list of ten records:
      201, the defaults for rating and image, and eleven records afterwards. */
  lemma PostMugExample(ps: seq<Product>, newId: string)
    requires |ps| == 10
    ensures var b := Payload(Some("Mug"), Some("Kitchen"), Some("Ceramic mug"), Some(300.0), Some(5.0), None, None);
            && PostRoute(ps, b, newId).response.status == 201
            && PostRoute(ps, b, newId).products[10] == Product(newId, "Mug", "Kitchen", "Ceramic mug", 300.0, 5.0, 0.0, PlaceholderImage)
            && |PostRoute(ps, b, newId).products| == 11
  {
    var b := Payload(Some("Mug"), Some("Kitchen"), Some("Ceramic mug"), Some(300.0), Some(5.0), None, None);
    assert |"Mug"| == 3 && |"Kitchen"| == 7 && |"Ceramic mug"| == 11;
    assert !MissingRequired(b);
    assert Trimmed("Mug") && Trimmed("Kitchen") && Trimmed("Ceramic mug");
    TrimFixesTrimmed("Mug");
    TrimFixesTrimmed("Kitchen");
    TrimFixesTrimmed("Ceramic mug");
    assert NewProduct(b, newId) == Product(newId, "Mug", "Kitchen", "Ceramic mug", 300.0, 5.0, 0.0, PlaceholderImage);
  }
}
