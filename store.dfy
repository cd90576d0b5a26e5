/** The server's product list as an object, with one method per
    /api/products handler. Each method changes the list in place as the
    handler does and is proved to agree with the route function of the same
    request. */
module Server {
  import opened Text
  import opened Catalog
  import opened Routes

  /** The k-th of the ten records the list starts with; id stands for the
      id nanoid draws for it. */
  function SeedProduct(k: nat, id: string): (p: Product)
    requires k < 10
    ensures p.id == id
  {
    if k == 0 then
      Product(id, "Ноутбук ASUS", "Электроника", "Мощный ноутбук для работы и игр", 75000.0, 10.0, 4.5, "https://via.placeholder.com/150?text=Notebook")
    else if k == 1 then
      Product(id, "Смартфон Samsung", "Электроника", "Последняя модель с отличной камерой", 45000.0, 15.0, 4.7, "https://via.placeholder.com/150?text=Phone")
    else if k == 2 then
      Product(id, "Книга \"JavaScript для начинающих\"", "Книги", "Изучение JavaScript с нуля", 1200.0, 30.0, 4.8, "https://via.placeholder.com/150?text=Book")
    else if k == 3 then
      Product(id, "Футболка хлопковая", "Одежда", "Качественная футболка из хлопка", 800.0, 50.0, 4.2, "https://via.placeholder.com/150?text=T-shirt")
    else if k == 4 then
      Product(id, "Кофеварка", "Техника", "Автоматическая кофеварка для дома", 12000.0, 5.0, 4.6, "https://via.placeholder.com/150?text=Coffee")
    else if k == 5 then
      Product(id, "Планшет Apple iPad", "Электроника", "10-дюймовый планшет с ретина-экраном", 35000.0, 8.0, 4.9, "https://via.placeholder.com/150?text=iPad")
    else if k == 6 then
      Product(id, "Наушники Sony", "Электроника", "Беспроводные наушники с шумоподавлением", 8000.0, 12.0, 4.6, "https://via.placeholder.com/150?text=Headphones")
    else if k == 7 then
      Product(id, "Кроссовки Nike", "Одежда", "Спортивная обувь для бега", 5500.0, 20.0, 4.4, "https://via.placeholder.com/150?text=Nike")
    else if k == 8 then
      Product(id, "Рюкзак", "Аксессуары", "Водонепроницаемый рюкзак для ноутбука", 2500.0, 15.0, 4.3, "https://via.placeholder.com/150?text=Backpack")
    else
      Product(id, "Микроволновка", "Техника", "Компактная микроволновая печь", 6000.0, 7.0, 4.2, "https://via.placeholder.com/150?text=Microwave")
  }

  /** The list at process start, ids[k] standing for the k-th drawn id. */
  function SeedProducts(ids: seq<string>): (ps: seq<Product>)
    requires |ids| == 10
    ensures |ps| == 10
    ensures forall k :: 0 <= k < 10 ==> ps[k] == SeedProduct(k, ids[k])
  {
    seq(10, k requires 0 <= k < 10 => SeedProduct(k, ids[k]))
  }

  class Store {
    /** The module-level `products` array, in insertion order. */
    var products: seq<Product>

    /** No two records share an id. */
    ghost predicate Valid()
      reads this
    {
      UniqueIds(products)
    }

    /** Process start: the seed list, given ten distinct drawn ids. */
    constructor (seedIds: seq<string>)
      requires |seedIds| == 10
      requires forall i, j :: 0 <= i < j < 10 ==> seedIds[i] != seedIds[j]
      ensures Valid() && products == SeedProducts(seedIds)
    {
      products := SeedProducts(seedIds);
    }

    /** GET /api/products: the whole list, in order. */
    method List() returns (resp: Response)
      ensures resp.status == 200 && resp.body == ProductListJson(products)
    {
      resp := Response(200, ProductListJson(products));
    }

    /** GET /api/products/:id */
    method Get(id: string) returns (resp: Response)
      ensures resp == GetRoute(products, id)
      ensures resp.status == 200 ==> resp.body.ProductJson? && resp.body.product.id == id
    {
      var found := FindOr404(products, id);
      if found.Missing? {
        return found.response;
      }
      resp := Response(200, ProductJson(products[found.index]));
    }

    /** POST /api/products, newId standing for nanoid(6); the source never
        checks that the drawn id is new, so freshness is the caller's part. */
    method Create(b: Payload, newId: string) returns (resp: Response)
      requires Valid() && !AnyWithId(products, newId)
      modifies this
      ensures Valid()
      ensures Outcome(resp, products) == PostRoute(old(products), b, newId)
    {
      if MissingRequired(b) {
        return MissingFields;
      }
      var p := NewProduct(b, newId);
      products := products + [p];
      resp := Response(201, ProductJson(p));
      PostKeepsIdsUnique(old(products), b, newId);
    }

    /** PATCH /api/products/:id: assigns the present fields one at a time to
        the record found, which is the one held in the list. */
    method Update(id: string, b: Payload) returns (resp: Response)
      requires Valid()
      modifies this
      ensures Valid()
      ensures Outcome(resp, products) == PatchRoute(old(products), id, b)
    {
      var found := FindOr404(products, id);
      if found.Missing? {
        return found.response;
      }
      if NothingToUpdate(b) {
        return NothingToDo;
      }
      var i := found.index;
      var p := products[i];
      if b.name.Some? { p := p.(name := Trim(b.name.value)); }
      if b.category.Some? { p := p.(category := Trim(b.category.value)); }
      if b.description.Some? { p := p.(description := Trim(b.description.value)); }
      if b.price.Some? { p := p.(price := b.price.value); }
      if b.stock.Some? { p := p.(stock := b.stock.value); }
      if b.rating.Some? { p := p.(rating := b.rating.value); }
      if b.image.Some? { p := p.(image := b.image.value); }
      products := products[i := p];
      resp := Response(200, ProductJson(p));
      PatchKeepsIdsUnique(old(products), id, b);
    }

    /** DELETE /api/products/:id: checks existence, then rebuilds the list
        without the id. */
    method Delete(id: string) returns (resp: Response)
      requires Valid()
      modifies this
      ensures Valid()
      ensures Outcome(resp, products) == DeleteRoute(old(products), id)
      ensures resp == Deleted ==>
        exists i :: 0 <= i < |old(products)| && products == old(products)[..i] + old(products)[i + 1..]
    {
      var present := AnyWithId(products, id);
      if !present {
        return NotFound;
      }
      var i := FindIndex(products, id).value;
      DeleteRemovesOne(products, id, i);
      products := Without(products, id);
      resp := Deleted;
      DeleteKeepsIdsUnique(old(products), id);
    }
  }
}
