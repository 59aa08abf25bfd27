/** The catalogue handlers: the filter, sort and limit the product listing
    builds from its query string, the field-by-field product update, product
    deletion, and the "similar products" selection. */
module ProductRoutes {
  import opened Wrappers
  import opened Store
  import Js
  import Lists

  // ---------------------------------------------------------------------
  // GET /api/products: building the query

  /** The listing's query-string parameters; `None` is an absent parameter. */
  datatype QueryParams = QueryParams(
    collection: Option<string>, size: Option<string>, color: Option<string>,
    gender: Option<string>, minPrice: Option<string>, maxPrice: Option<string>,
    sortBy: Option<string>, search: Option<string>, category: Option<string>,
    material: Option<string>, brand: Option<string>, limit: Option<string>)

  /** A price bound: `$gte` and `$lte`, each present or not. */
  datatype PriceRange = PriceRange(gte: Option<Js.Num>, lte: Option<Js.Num>)

  /** The filter document handed to the database; `None` leaves a field
      unconstrained. Lists are `$in` membership sets and `search` is the
      case-insensitive pattern tried on name, description and tags. */
  datatype ProductQuery = ProductQuery(
    collections: Option<string>, category: Option<string>,
    material: Option<seq<string>>, sizes: Option<seq<string>>, colors: Option<seq<string>>,
    gender: Option<string>, brand: Option<seq<string>>, search: Option<string>,
    price: Option<PriceRange>)

  datatype SortOption = NoSort | ByPrice(ascending: bool) | ByRatingDescending

  /** A present, non-empty parameter: what `if (x)` accepts for a string. */
  predicate Given(p: Option<string>) {
    p.Some? && p.value != ""
  }

  /** A comma list turned into a membership set that joins back into the
      parameter it came from. */
  predicate ListFrom(q: Option<seq<string>>, p: Option<string>) {
    (q.Some? <==> Given(p)) &&
    (q.Some? ==> Js.Join(q.value, ',') == p.value && forall v :: v in q.value ==> ',' !in v)
  }

  /** `if (x && x.toLowerCase() !== 'all') query.f = x`. */
  method ExactUnlessAll(p: Option<string>) returns (f: Option<string>)
    ensures f.Some? <==> Given(p) && Js.ToLower(p.value) != "all"
    ensures f.Some? ==> f == p
  {
    f := None;
    if Given(p) && Js.ToLower(p.value) != "all" {
      f := p;
    }
  }

  /** `if (x) query.f = { $in: x.split(',') }`. */
  method CommaList(p: Option<string>) returns (f: Option<seq<string>>)
    ensures ListFrom(f, p)
  {
    f := None;
    if Given(p) {
      f := Some(Js.Split(p.value, ','));
      Js.JoinSplit(p.value, ',');
    }
  }

  /** `if (x) query.f = x`. */
  method Exact(p: Option<string>) returns (f: Option<string>)
    ensures f.Some? <==> Given(p)
    ensures f.Some? ==> f == p
  {
    f := None;
    if Given(p) {
      f := p;
    }
  }

  /** The price bound: present when either end is given, even as "". */
  method PriceBound(minPrice: Option<string>, maxPrice: Option<string>) returns (f: Option<PriceRange>)
    ensures f.Some? <==> minPrice.Some? || maxPrice.Some?
    ensures f.Some? ==>
      (f.value.gte.Some? <==> minPrice.Some?) &&
      (f.value.lte.Some? <==> maxPrice.Some?) &&
      (minPrice.Some? ==> f.value.gte.value == Js.ToNumber(minPrice.value)) &&
      (maxPrice.Some? ==> f.value.lte.value == Js.ToNumber(maxPrice.value))
  {
    f := None;
    if minPrice.Some? || maxPrice.Some? {
      var range := PriceRange(None, None);
      if minPrice.Some? {
        range := range.(gte := Some(Js.ToNumber(minPrice.value)));
      }
      if maxPrice.Some? {
        range := range.(lte := Some(Js.ToNumber(maxPrice.value)));
      }
      f := Some(range);
    }
  }

  /** The query is assembled one conditional assignment at a time. */
  method BuildQuery(params: QueryParams) returns (q: ProductQuery)
    ensures q.collections.Some? <==> Given(params.collection) && Js.ToLower(params.collection.value) != "all"
    ensures q.collections.Some? ==> q.collections == params.collection
    ensures q.category.Some? <==> Given(params.category) && Js.ToLower(params.category.value) != "all"
    ensures q.category.Some? ==> q.category == params.category
    ensures ListFrom(q.material, params.material)
    ensures ListFrom(q.sizes, params.size)
    ensures ListFrom(q.colors, params.color)
    ensures ListFrom(q.brand, params.brand)
    ensures q.gender.Some? <==> Given(params.gender)
    ensures q.gender.Some? ==> q.gender == params.gender
    ensures q.search.Some? <==> Given(params.search)
    ensures q.search.Some? ==> q.search == params.search
    ensures q.price.Some? <==> params.minPrice.Some? || params.maxPrice.Some?
    ensures q.price.Some? ==>
      (q.price.value.gte.Some? <==> params.minPrice.Some?) &&
      (q.price.value.lte.Some? <==> params.maxPrice.Some?) &&
      (params.minPrice.Some? ==> q.price.value.gte.value == Js.ToNumber(params.minPrice.value)) &&
      (params.maxPrice.Some? ==> q.price.value.lte.value == Js.ToNumber(params.maxPrice.value))
  {
    var collections := ExactUnlessAll(params.collection);
    var category := ExactUnlessAll(params.category);
    var material := CommaList(params.material);
    var sizes := CommaList(params.size);
    var colors := CommaList(params.color);
    var gender := Exact(params.gender);
    var brand := CommaList(params.brand);
    var search := Exact(params.search);
    var price := PriceBound(params.minPrice, params.maxPrice);
    q := ProductQuery(collections, category, material, sizes, colors, gender, brand, search, price);
  }

  /** The `sortBy` switch: three known keys, and no sort for anything else. */
  function SortFor(sortBy: Option<string>): (r: SortOption)
    ensures r == ByPrice(true) <==> sortBy == Some("priceAsc")
    ensures r == ByPrice(false) <==> sortBy == Some("priceDesc")
    ensures r == ByRatingDescending <==> sortBy == Some("popularity")
    ensures r == NoSort <==> sortBy !in {Some("priceAsc"), Some("priceDesc"), Some("popularity")}
  {
    match sortBy
    case Some("priceAsc") => ByPrice(true)
    case Some("priceDesc") => ByPrice(false)
    case Some("popularity") => ByRatingDescending
    case _ => NoSort
  }

  /** `limit ? parseInt(limit) : 0`. */
  function ResultLimit(limit: Option<string>): (r: Js.Num)
    ensures !Given(limit) ==> r == Js.Finite(0)
    ensures r.Finite? && Given(limit) ==> exists i | 0 <= i < |limit.value| :: Js.IsDigit(limit.value[i])
  {
    if Given(limit) then Js.ParseInt(limit.value) else Js.Finite(0)
  }

  /** A limit that starts with decimal digits is the number they spell,
      whatever follows them ("10abc" is 10), unless a lone "0" is followed
      by an "x". */
  lemma LimitDigits(digits: string, rest: string)
    requires |digits| > 0 && Js.AllDigits(digits)
    requires |rest| > 0 ==> !Js.IsDigit(rest[0])
    requires !(digits == "0" && |rest| > 0 && (rest[0] == 'x' || rest[0] == 'X'))
    ensures ResultLimit(Some(digits + rest)) == Js.Finite(Js.DigitsValue(digits))
  {
    Js.LeadingDigitsParse(digits, rest);
  }

  /** A limit written "0x..." is read in base 16: "0x10" is 16. */
  lemma LimitHex(h: string)
    requires |h| > 0 && forall i :: 0 <= i < |h| ==> Js.IsHexDigit(h[i])
    ensures ResultLimit(Some("0x" + h)) == Js.Finite(Js.HexValue(h))
  {
    Js.HexParse(h);
  }

  /** `?limit=0x10` asks for sixteen products. */
  lemma LimitHexSixteen()
    ensures ResultLimit(Some("0x10")) == Js.Finite(16)
  {
    var h := "10";
    assert h[..1] == "1" && h[..1][..0] == "";
    assert Js.HexValue(h) == 16;
    assert "0x" + h == "0x10";
    LimitHex(h);
  }

  /** A price parameter that is present but empty still bounds the price:
      `Number("")` is 0. */
  lemma EmptyMinPriceBounds(params: QueryParams)
    requires params.minPrice == Some("")
    ensures Js.ToNumber(params.minPrice.value) == Js.Finite(0)
  {
  }

  // ---------------------------------------------------------------------
  // PUT /api/products/:id: the field-by-field update

  /** The update's body. Strings are "" and numbers 0 when absent or falsy;
      arrays, objects and the two flags are `None` when absent. */
  datatype ProductUpdate = ProductUpdate(
    name: string, description: string, price: Cents, discountPrice: Cents,
    countInStock: int, category: string, brand: string,
    sizes: Option<seq<string>>, colors: Option<seq<string>>, collections: string,
    meterial: string, gender: string, images: Option<seq<Image>>,
    isFeatured: Option<bool>, isPublished: Option<bool>, tags: Option<seq<string>>,
    dimentions: Option<Dimensions>, weight: int, sku: string)

  /** `x || fallback` for strings, numbers and optional values. */
  function OrStr(x: string, fallback: string): string { if x != "" then x else fallback }
  function OrNum(x: int, fallback: int): int { if x != 0 then x else fallback }
  function OrOpt<T>(x: Option<T>, fallback: T): T { if x.Some? then x.value else fallback }

  /** The product after the update: every truthy field replaces the stored
      one, and each flag is replaced whenever it is given. */
  function ApplyUpdate(p: Product, u: ProductUpdate): Product {
    p.(name := OrStr(u.name, p.name),
       description := OrStr(u.description, p.description),
       price := OrNum(u.price, p.price),
       discountPrice := OrNum(u.discountPrice, p.discountPrice),
       countInStock := OrNum(u.countInStock, p.countInStock),
       category := OrStr(u.category, p.category),
       brand := OrStr(u.brand, p.brand),
       sizes := OrOpt(u.sizes, p.sizes),
       colors := OrOpt(u.colors, p.colors),
       collections := OrStr(u.collections, p.collections),
       meterial := OrStr(u.meterial, p.meterial),
       gender := OrStr(u.gender, p.gender),
       images := OrOpt(u.images, p.images),
       isFeatured := OrOpt(u.isFeatured, p.isFeatured),
       isPublished := OrOpt(u.isPublished, p.isPublished),
       tags := OrOpt(u.tags, p.tags),
       dimentions := if u.dimentions.Some? then u.dimentions else p.dimentions,
       weight := OrNum(u.weight, p.weight),
       sku := OrStr(u.sku, p.sku))
  }

  /** PUT /api/products/:id. */
  function UpdateProduct(s: Backend, id: Id, u: ProductUpdate): Outcome<Product> {
    var i := Lists.IndexOf(s.products, ProductIdOf, id);
    if i == -1 then Outcome(s, Fail(404, "Product not found"))
    else
      var p := ApplyUpdate(s.products[i], u);
      Outcome(s.(products := s.products[i := p]), Ok(200, p))
  }

  /** DELETE /api/products/:id. */
  function DeleteProduct(s: Backend, id: Id): Outcome<()> {
    var i := Lists.IndexOf(s.products, ProductIdOf, id);
    if i == -1 then Outcome(s, Fail(404, "Product not found"))
    else Outcome(s.(products := Lists.RemoveAt(s.products, i)), Ok(200, ()))
  }

  /** The update handler overwrites the fetched product one field at a time. */
  method HandleUpdateProduct(db: Database, id: Id, u: ProductUpdate) returns (reply: Reply<Product>)
    modifies db
    ensures var o := UpdateProduct(old(db.State()), id, u);
            db.State() == o.state && reply == o.reply
  {
    var i := Lists.FindIndex(db.products, ProductIdOf, id);
    if i == -1 {
      return Fail(404, "Product not found");
    }
    var product := db.products[i];
    product := product.(name := OrStr(u.name, product.name));
    product := product.(description := OrStr(u.description, product.description));
    product := product.(price := OrNum(u.price, product.price));
    product := product.(discountPrice := OrNum(u.discountPrice, product.discountPrice));
    product := product.(countInStock := OrNum(u.countInStock, product.countInStock));
    product := product.(category := OrStr(u.category, product.category));
    product := product.(brand := OrStr(u.brand, product.brand));
    product := product.(sizes := OrOpt(u.sizes, product.sizes));
    product := product.(colors := OrOpt(u.colors, product.colors));
    product := product.(collections := OrStr(u.collections, product.collections));
    product := product.(meterial := OrStr(u.meterial, product.meterial));
    product := product.(gender := OrStr(u.gender, product.gender));
    product := product.(images := OrOpt(u.images, product.images));
    product := product.(isFeatured := OrOpt(u.isFeatured, product.isFeatured));
    product := product.(isPublished := OrOpt(u.isPublished, product.isPublished));
    product := product.(tags := OrOpt(u.tags, product.tags));
    product := product.(dimentions := if u.dimentions.Some? then u.dimentions else product.dimentions);
    product := product.(weight := OrNum(u.weight, product.weight));
    product := product.(sku := OrStr(u.sku, product.sku));
    db.products := db.products[i := product];
    reply := Ok(200, product);
  }

  method HandleDeleteProduct(db: Database, id: Id) returns (reply: Reply<()>)
    modifies db
    ensures var o := DeleteProduct(old(db.State()), id);
            db.State() == o.state && reply == o.reply
  {
    var i := Lists.FindIndex(db.products, ProductIdOf, id);
    if i == -1 {
      return Fail(404, "Product not found");
    }
    db.products := db.products[..i] + db.products[i + 1..];
    reply := Ok(200, ());
  }

  /** The body that gives no field. */
  const NoChange := ProductUpdate("", "", 0, 0, 0, "", "", None, None, "", "", "", None,
                                  None, None, None, None, 0, "")

  /** An update that gives nothing changes nothing, and applying the same
      update twice is the same as once. */
  lemma ApplyUpdateLaws(p: Product, u: ProductUpdate)
    ensures ApplyUpdate(p, NoChange) == p
    ensures ApplyUpdate(ApplyUpdate(p, u), u) == ApplyUpdate(p, u)
    ensures ApplyUpdate(p, u).id == p.id
  {
  }

  /** Falsy values keep the stored field: a price, discount, stock or
      weight of 0 cannot be written, nor an empty name. The flags are
      written whenever given, false included. */
  lemma FalsyKeepsField(p: Product, u: ProductUpdate)
    ensures u.price == 0 ==> ApplyUpdate(p, u).price == p.price
    ensures u.countInStock == 0 ==> ApplyUpdate(p, u).countInStock == p.countInStock
    ensures u.name == "" ==> ApplyUpdate(p, u).name == p.name
    ensures u.price != 0 ==> ApplyUpdate(p, u).price == u.price
    ensures u.isFeatured == Some(false) ==> !ApplyUpdate(p, u).isFeatured
    ensures u.isPublished == Some(false) ==> !ApplyUpdate(p, u).isPublished
    ensures u.isFeatured == None ==> ApplyUpdate(p, u).isFeatured == p.isFeatured
  {
  }

  /** Update and delete answer 404 for an unknown id and change nothing;
      otherwise only the first product with that id changes, in place, or is
      removed with the others kept in order. */
  lemma UpdateDeleteEffect(s: Backend, id: Id, u: ProductUpdate)
    ensures var i := Lists.IndexOf(s.products, ProductIdOf, id);
            var up := UpdateProduct(s, id, u);
            var del := DeleteProduct(s, id);
            (i == -1 ==> up.reply.Fail? && up.reply.code == 404 && up.state == s &&
                         del.reply.Fail? && del.reply.code == 404 && del.state == s) &&
            (i >= 0 ==> up.reply.Ok? && |up.state.products| == |s.products| &&
                        up.state.products[i] == ApplyUpdate(s.products[i], u) &&
                        (forall j :: 0 <= j < |s.products| && j != i ==> up.state.products[j] == s.products[j]) &&
                        del.reply.Ok? && |del.state.products| == |s.products| - 1 &&
                        (forall j :: 0 <= j < i ==> del.state.products[j] == s.products[j]) &&
                        (forall j :: i <= j < |del.state.products| ==> del.state.products[j] == s.products[j + 1])) &&
            up.state.carts == s.carts && del.state.carts == s.carts
  {
  }

  // ---------------------------------------------------------------------
  // GET /api/products/similar/:id

  /** The products other than `id` with the given gender and category, in
      store order. */
  function SameKind(ps: seq<Product>, id: Id, gender: string, category: string): (r: seq<Product>)
    ensures |r| <= |ps|
    ensures forall p :: p in r <==> p in ps && p.id != id && p.gender == gender && p.category == category
  {
    if |ps| == 0 then []
    else
      var rest := SameKind(ps[1..], id, gender, category);
      assert forall p :: p in ps <==> p == ps[0] || p in ps[1..];
      if ps[0].id != id && ps[0].gender == gender && ps[0].category == category then [ps[0]] + rest else rest
  }

  /** The first four of those in store order, or all of them when there are
      fewer than four. */
  function Similar(s: Backend, id: Id): (r: Reply<seq<Product>>)
    ensures var i := Lists.IndexOf(s.products, ProductIdOf, id);
            (r.Fail? <==> i == -1) &&
            (r.Fail? ==> r == Fail(404, "Product not found")) &&
            (r.Ok? ==> var all := SameKind(s.products, id, s.products[i].gender, s.products[i].category);
                       |r.value| == (if |all| < 4 then |all| else 4) && r.value == all[..|r.value|]) &&
            (r.Ok? ==> |r.value| <= 4 &&
                       forall p :: p in r.value ==>
                         p in s.products && p.id != id &&
                         p.gender == s.products[i].gender && p.category == s.products[i].category)
  {
    var i := Lists.IndexOf(s.products, ProductIdOf, id);
    if i == -1 then Fail(404, "Product not found")
    else
      var all := SameKind(s.products, id, s.products[i].gender, s.products[i].category);
      var r := if |all| <= 4 then all else all[..4];
      assert forall p :: p in r ==> p in all;
      Ok(200, r)
  }

  /** When there are at least four such products, exactly four come back. */
  lemma SimilarTakesFour(s: Backend, id: Id)
    requires var i := Lists.IndexOf(s.products, ProductIdOf, id);
             i >= 0 && |SameKind(s.products, id, s.products[i].gender, s.products[i].category)| >= 4
    ensures Similar(s, id).Ok? && |Similar(s, id).value| == 4
  {
  }
}
