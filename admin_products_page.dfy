/** The administrator's product table: search, form validation, saving a
    new or edited product, and deletion. The page keeps its products in
    component state; every change replaces the whole list. */
module AdminProductsPage {
  import opened Wrappers
  import Js
  import Lists
  import Store

  /** A row of the table. An `id` of 0 is a product not yet saved. Price and
      stock are `None` when the field is empty or not a number. */
  datatype PageProduct = PageProduct(
    id: int, name: string, category: string, price: Option<int>, stock: Option<int>,
    size: string, color: string, brand: string, material: string, images: seq<Store.Image>)

  function IdOf(p: PageProduct): int { p.id }

  /** Whether a row matches the search term: name, category or brand
      contains it, ignoring case. */
  predicate Matches(p: PageProduct, term: string) {
    Js.IncludesIgnoringCase(p.name, term) || Js.IncludesIgnoringCase(p.category, term) ||
    Js.IncludesIgnoringCase(p.brand, term)
  }

  /** The rows shown for a search term, in table order. */
  function Filtered(products: seq<PageProduct>, term: string): (r: seq<PageProduct>)
    ensures |r| <= |products|
    ensures forall p :: p in r <==> p in products && Matches(p, term)
  {
    if |products| == 0 then []
    else
      var rest := Filtered(products[1..], term);
      assert forall p :: p in products <==> p == products[0] || p in products[1..];
      if Matches(products[0], term) then [products[0]] + rest else rest
  }

  /** An empty search shows every row, in order. */
  lemma {:induction false} EmptySearchShowsAll(products: seq<PageProduct>)
    ensures Filtered(products, "") == products
  {
    if |products| > 0 {
      Js.IncludesEmpty(Js.ToLower(products[0].name));
      EmptySearchShowsAll(products[1..]);
    }
  }

  /** Filtering keeps the table order: the rows of `a + b` shown are those
      of `a` followed by those of `b`. */
  lemma {:induction false} FilteredAppend(a: seq<PageProduct>, b: seq<PageProduct>, term: string)
    ensures Filtered(a + b, term) == Filtered(a, term) + Filtered(b, term)
  {
    if |a| > 0 {
      assert (a + b)[1..] == a[1..] + b;
      FilteredAppend(a[1..], b, term);
    } else {
      assert a + b == b;
    }
  }

  /** The form's error messages are collected one check at a time; the
      form is valid when none was recorded. A missing form fails every check. */
  method ValidateForm(form: Option<PageProduct>) returns (errors: map<string, string>, valid: bool)
    ensures "name" in errors <==> form.None? || form.value.name == ""
    ensures "category" in errors <==> form.None? || form.value.category == ""
    ensures "price" in errors <==> form.None? || form.value.price.None? || form.value.price.value <= 0
    ensures "stock" in errors <==> form.None? || form.value.stock.None? || form.value.stock.value <= 0
    ensures errors.Keys <= {"name", "category", "price", "stock"}
    ensures valid <==> errors == map[]
  {
    errors := map[];
    if form.None? || form.value.name == "" {
      errors := errors["name" := "Name is required"];
    }
    if form.None? || form.value.category == "" {
      errors := errors["category" := "Category is required"];
    }
    if form.None? || form.value.price.None? || form.value.price.value == 0 || form.value.price.value <= 0 {
      errors := errors["price" := "Valid price is required"];
    }
    if form.None? || form.value.stock.None? || form.value.stock.value == 0 || form.value.stock.value < 0 {
      errors := errors["stock" := "Valid stock quantity is required"];
    }
    valid := |errors.Keys| == 0;
    if !valid {
      assert errors.Keys != {};
    }
  }

  /** What the validation accepts: a name, a category, a positive price and
      a positive stock. A stock of 0 is refused: it is falsy. */
  predicate FormValid(form: Option<PageProduct>) {
    form.Some? && form.value.name != "" && form.value.category != "" &&
    form.value.price.Some? && form.value.price.value > 0 &&
    form.value.stock.Some? && form.value.stock.value > 0
  }

  /** `Math.max(...ids, 0)`. */
  function MaxId(products: seq<PageProduct>): (m: int)
    ensures m >= 0
    ensures forall p :: p in products ==> p.id <= m
    ensures m == 0 || exists p :: p in products && p.id == m
  {
    if |products| == 0 then 0
    else
      var rest := MaxId(products[1..]);
      assert forall p :: p in products ==> p == products[0] || p in products[1..];
      if products[0].id > rest then products[0].id else rest
  }

  /** `products.map(p => p.id === x.id ? x : p)`. */
  function ReplaceById(products: seq<PageProduct>, x: PageProduct): (r: seq<PageProduct>)
    ensures |r| == |products|
    ensures forall j :: 0 <= j < |r| ==> r[j] == if products[j].id == x.id then x else products[j]
  {
    seq(|products|, j requires 0 <= j < |products| => if products[j].id == x.id then x else products[j])
  }

  /** Saving the form: nothing changes for an invalid form; a form with an
      id replaces every row with that id; a form without one is appended
      with the next id. */
  function Save(products: seq<PageProduct>, form: Option<PageProduct>): seq<PageProduct> {
    if !FormValid(form) then products
    else if form.value.id != 0 then ReplaceById(products, form.value)
    else products + [form.value.(id := MaxId(products) + 1)]
  }

  /** The three outcomes of saving. */
  lemma SaveEffect(products: seq<PageProduct>, form: Option<PageProduct>)
    ensures var r := Save(products, form);
            (!FormValid(form) ==> r == products) &&
            (FormValid(form) && form.value.id != 0 ==>
               |r| == |products| &&
               forall j :: 0 <= j < |r| ==> r[j] == if products[j].id == form.value.id then form.value else products[j]) &&
            (FormValid(form) && form.value.id == 0 ==>
               |r| == |products| + 1 && r[..|products|] == products &&
               r[|products|] == form.value.(id := r[|products|].id) &&
               forall p :: p in products ==> p.id != r[|products|].id)
  {
    if FormValid(form) && form.value.id == 0 {
      var r := Save(products, form);
      assert r[..|products|] == products;
    }
  }

  /** A new product's id is positive and, when all ids are, larger than
      every id in the table, so a run of saves keeps ids distinct. */
  lemma NewIdsStayDistinct(products: seq<PageProduct>, form: Option<PageProduct>)
    requires forall i, j :: 0 <= i < j < |products| ==> products[i].id != products[j].id
    requires FormValid(form) && form.value.id == 0
    ensures var r := Save(products, form);
            r[|r| - 1].id > 0 &&
            forall i, j :: 0 <= i < j < |r| ==> r[i].id != r[j].id
  {
    var r := Save(products, form);
    assert forall i :: 0 <= i < |products| ==> r[i] == products[i] && products[i] in products;
  }

  /** `products.filter(p => p.id !== id)`. */
  function Delete(products: seq<PageProduct>, id: int): seq<PageProduct> {
    Lists.RemoveKey(products, IdOf, id)
  }

  /** Deleting keeps exactly the rows with another id, in order. */
  lemma DeleteEffect(products: seq<PageProduct>, id: int, rest: seq<PageProduct>)
    ensures forall p :: p in Delete(products, id) <==> p in products && p.id != id
    ensures Delete(products + rest, id) == Delete(products, id) + Delete(rest, id)
  {
    Lists.RemoveKeyMembers(products, IdOf, id);
    Lists.RemoveKeyAppend(products, rest, IdOf, id);
  }
}
