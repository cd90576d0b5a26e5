/** The product records held by the store, the request bodies that create and
    patch them, and the lookups the handlers run over the ordered list. */
module Catalog {
  import opened Text

  datatype Option<T> = None | Some(value: T)

  /** One catalog record. JSON numbers are modelled as exact reals. */
  datatype Product = Product(
    id: string,
    name: string,
    category: string,
    description: string,
    price: real,
    stock: real,
    rating: real,
    image: string)

  /** A POST or PATCH body: each of the seven fields may be absent (None). */
  datatype Payload = Payload(
    name: Option<string>,
    category: Option<string>,
    description: Option<string>,
    price: Option<real>,
    stock: Option<real>,
    rating: Option<real>,
    image: Option<string>)

  const PlaceholderImage := "https://via.placeholder.com/150?text=Product"

  /** JavaScript truthiness of a string field: present and not "". */
  predicate Truthy(s: Option<string>) {
    s.Some? && s.value != ""
  }

  /** JavaScript truthiness of a numeric field: present and not 0. */
  predicate TruthyNumber(x: Option<real>) {
    x.Some? && x.value != 0.0
  }

  // ---------- lookups ----------

  /** products.find(p => p.id === id), as the position of the record found:
      the first record carrying the id, or None when no record does. */
  function FindIndex(ps: seq<Product>, id: string): (r: Option<nat>)
    ensures r.None? <==> forall k :: 0 <= k < |ps| ==> ps[k].id != id
    ensures r.Some? ==> r.value < |ps| && ps[r.value].id == id
    ensures r.Some? ==> forall k :: 0 <= k < r.value ==> ps[k].id != id
  {
    if ps == [] then None
    else if ps[0].id == id then Some(0)
    else match FindIndex(ps[1..], id)
      case None => None
      case Some(k) => Some(k + 1)
  }

  /** products.some(p => p.id === id). */
  function AnyWithId(ps: seq<Product>, id: string): (r: bool)
    ensures r <==> exists k :: 0 <= k < |ps| && ps[k].id == id
  {
    if ps == [] then false else ps[0].id == id || AnyWithId(ps[1..], id)
  }

  /** products.filter(p => p.id !== id). */
  function Without(ps: seq<Product>, id: string): (r: seq<Product>)
    ensures |r| <= |ps|
    ensures AnyWithId(ps, id) ==> |r| < |ps|
    ensures forall k :: 0 <= k < |r| ==> r[k].id != id
  {
    if ps == [] then []
    else (if ps[0].id != id then [ps[0]] else []) + Without(ps[1..], id)
  }

  /** No two records share an id. */
  predicate UniqueIds(ps: seq<Product>) {
    forall i, j :: 0 <= i < j < |ps| ==> ps[i].id != ps[j].id
  }

  /** The stored text fields carry no surrounding whitespace. */
  predicate TextTrimmed(p: Product) {
    Trimmed(p.name) && Trimmed(p.category) && Trimmed(p.description)
  }

  predicate AllTextTrimmed(ps: seq<Product>) {
    forall k :: 0 <= k < |ps| ==> TextTrimmed(ps[k])
  }

  // ---------- building and patching a record ----------

  /** The 400 test of POST: a falsy name, category or description, or an
      absent price or stock. A body that passes carries every field the new
      record needs; an empty text field fails; a price or stock of 0 counts
      as present. */
  predicate MissingRequired(b: Payload): (r: bool)
    ensures !r ==> b.name.Some? && b.category.Some? && b.description.Some? && b.price.Some? && b.stock.Some?
    ensures b.name == Some("") || b.category == Some("") || b.description == Some("") ==> r
    ensures b.price == Some(0.0) && b.stock == Some(0.0) ==> (r <==> !Truthy(b.name) || !Truthy(b.category) || !Truthy(b.description))
  {
    !Truthy(b.name) || !Truthy(b.category) || !Truthy(b.description) || b.price.None? || b.stock.None?
  }

  /** The presence test does not look at rating or image, and a zero price
      or stock passes it like any other number. */
  lemma PresenceIgnoresOptional(b: Payload, rating: Option<real>, image: Option<string>, price: real, stock: real)
    requires b.price.Some? && b.stock.Some?
    ensures MissingRequired(b) == MissingRequired(b.(rating := rating, image := image))
    ensures MissingRequired(b) == MissingRequired(b.(price := Some(price), stock := Some(stock)))
  {
  }

  /** The record POST appends for a body that passed the presence test. */
  function NewProduct(b: Payload, id: string): (p: Product)
    requires !MissingRequired(b)
    ensures p.id == id && TextTrimmed(p)
    ensures p.name == Trim(b.name.value) && p.category == Trim(b.category.value)
    ensures p.description == Trim(b.description.value)
    ensures p.price == b.price.value && p.stock == b.stock.value
    ensures p.rating == (if b.rating.Some? then b.rating.value else 0.0)
    ensures p.image == PlaceholderImage <==> !Truthy(b.image) || b.image.value == PlaceholderImage
    ensures Truthy(b.image) ==> p.image == b.image.value
  {
    Product(
      id,
      Trim(b.name.value),
      Trim(b.category.value),
      Trim(b.description.value),
      b.price.value,
      b.stock.value,
      if TruthyNumber(b.rating) then b.rating.value else 0.0,
      if Truthy(b.image) then b.image.value else PlaceholderImage)
  }

  /** The 400 test of PATCH: all seven fields absent. Such a body would
      leave every record as it is (see NothingToUpdateIffNoEffect). */
  predicate NothingToUpdate(b: Payload): (r: bool)
    ensures r ==> b == Payload(None, None, None, None, None, None, None)
  {
    && b.name.None? && b.category.None? && b.description.None?
    && b.price.None? && b.stock.None? && b.rating.None? && b.image.None?
  }

  /** A record after PATCH has assigned every field present in the body: it
      keeps the id and every field the body leaves out, and stores the text
      fields trimmed and the rest (the image included) as given. */
  function ApplyPatch(p: Product, b: Payload): (q: Product)
    ensures q.id == p.id
    ensures q.name == (if b.name.Some? then Trim(b.name.value) else p.name)
    ensures q.category == (if b.category.Some? then Trim(b.category.value) else p.category)
    ensures q.description == (if b.description.Some? then Trim(b.description.value) else p.description)
    ensures q.price == (if b.price.Some? then b.price.value else p.price)
    ensures q.stock == (if b.stock.Some? then b.stock.value else p.stock)
    ensures q.rating == (if b.rating.Some? then b.rating.value else p.rating)
    ensures q.image == (if b.image.Some? then b.image.value else p.image)
  {
    var p := if b.name.Some? then p.(name := Trim(b.name.value)) else p;
    var p := if b.category.Some? then p.(category := Trim(b.category.value)) else p;
    var p := if b.description.Some? then p.(description := Trim(b.description.value)) else p;
    var p := if b.price.Some? then p.(price := b.price.value) else p;
    var p := if b.stock.Some? then p.(stock := b.stock.value) else p;
    var p := if b.rating.Some? then p.(rating := b.rating.value) else p;
    if b.image.Some? then p.(image := b.image.value) else p
  }

  /** PATCH rejects a body exactly when applying it would change no record:
      any one field present changes some record. */
  lemma NothingToUpdateIffNoEffect(b: Payload)
    ensures NothingToUpdate(b) <==> forall p :: ApplyPatch(p, b) == p
  {
    if !NothingToUpdate(b) {
      var p := ChangedBy(b);
      assert ApplyPatch(p, b) != p;
    }
  }

  /** A record that a body with at least one field present changes: it
      differs from the body in the first field the body carries. */
  function ChangedBy(b: Payload): (p: Product)
    requires !NothingToUpdate(b)
    ensures ApplyPatch(p, b) != p
  {
    var p := Product("", "", "", "", 0.0, 0.0, 0.0, "");
    if b.name.Some? then p.(name := if Trim(b.name.value) == "" then "x" else "")
    else if b.category.Some? then p.(category := if Trim(b.category.value) == "" then "x" else "")
    else if b.description.Some? then p.(description := if Trim(b.description.value) == "" then "x" else "")
    else if b.price.Some? then p.(price := b.price.value + 1.0)
    else if b.stock.Some? then p.(stock := b.stock.value + 1.0)
    else if b.rating.Some? then p.(rating := b.rating.value + 1.0)
    else p.(image := if b.image.value == "" then "x" else "")
  }

  /** Applying the same body twice gives the record it gave once. */
  lemma PatchIdempotentRecord(p: Product, b: Payload)
    ensures ApplyPatch(ApplyPatch(p, b), b) == ApplyPatch(p, b)
  {
  }

  /** A patched record keeps its text fields trimmed. */
  lemma PatchKeepsTrimmed(p: Product, b: Payload)
    requires TextTrimmed(p)
    ensures TextTrimmed(ApplyPatch(p, b))
  {
  }

  // ---------- properties of the lookups ----------

  /** filter distributes over concatenation: the records that survive keep
      their relative order. */
  lemma {:induction false} WithoutConcat(a: seq<Product>, b: seq<Product>, id: string)
    ensures Without(a + b, id) == Without(a, id) + Without(b, id)
  {
    if a == [] {
      assert a + b == b;
    } else {
      var head := if a[0].id != id then [a[0]] else [];
      calc {
        Without(a + b, id);
        { assert (a + b)[0] == a[0] && (a + b)[1..] == a[1..] + b; }
        head + Without(a[1..] + b, id);
        { WithoutConcat(a[1..], b, id); }
        head + (Without(a[1..], id) + Without(b, id));
        (head + Without(a[1..], id)) + Without(b, id);
      }
    }
  }

  /** filter keeps every record with another id exactly as often as it occurs
      and drops every record with this id. */
  lemma {:induction false} WithoutCounts(ps: seq<Product>, id: string, p: Product)
    ensures multiset(Without(ps, id))[p] == if p.id == id then 0 else multiset(ps)[p]
  {
    if ps != [] {
      assert ps == [ps[0]] + ps[1..];
      WithoutCounts(ps[1..], id, p);
    }
  }

  /** filter with an id no record carries is the identity. */
  lemma {:induction false} WithoutAbsent(ps: seq<Product>, id: string)
    requires forall k :: 0 <= k < |ps| ==> ps[k].id != id
    ensures Without(ps, id) == ps
  {
    if ps != [] {
      WithoutAbsent(ps[1..], id);
    }
  }

  /** With unique ids, filtering out an id that is present removes exactly
      the one record at its position. */
  lemma WithoutUnique(ps: seq<Product>, id: string, i: nat)
    requires UniqueIds(ps) && i < |ps| && ps[i].id == id
    ensures Without(ps, id) == ps[..i] + ps[i + 1..]
    ensures |Without(ps, id)| == |ps| - 1
  {
    var before, after := ps[..i], ps[i + 1..];
    assert ps == before + ([ps[i]] + after);
    assert forall k :: 0 <= k < |before| ==> before[k].id != id by {
      forall k | 0 <= k < |before| ensures before[k].id != id {
        assert before[k] == ps[k];
      }
    }
    assert forall k :: 0 <= k < |after| ==> after[k].id != id by {
      forall k | 0 <= k < |after| ensures after[k].id != id {
        assert after[k] == ps[i + 1 + k];
      }
    }
    WithoutAbsent(before, id);
    WithoutAbsent(after, id);
    assert Without([ps[i]], id) == [];
    WithoutConcat([ps[i]], after, id);
    WithoutConcat(before, [ps[i]] + after, id);
    calc {
      Without(ps, id);
      Without(before + ([ps[i]] + after), id);
      Without(before, id) + Without([ps[i]] + after, id);
      before + ([] + after);
      { assert [] + after == after; }
      before + after;
    }
  }
}
