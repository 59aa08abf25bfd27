/** The catalogue's filter sidebar. The URL's query string is the source
    of truth: the sidebar reads its filters from the parameters, and every
    control writes one parameter back, keeping the others. */
module FilterSidebar {
  import Js
  import Lists

  /** The URL's query parameters. */
  type Params = map<string, string>

  /** The sidebar's filters. */
  datatype Filters = Filters(
    category: string, gender: string, color: seq<string>, size: seq<string>,
    material: seq<string>, brand: seq<string>, minPrice: int, maxPrice: int)

  /** The filters before any parameter is read. */
  const Initial := Filters("", "", [], [], [], [], 0, 100)

  /** `params.k`, with "" for a missing key. */
  function Get(params: Params, k: string): string {
    if k in params then params[k] else ""
  }

  /** `params.k ? params.k.split(",") : []`. */
  function ListParam(params: Params, k: string): seq<string> {
    var v := Get(params, k);
    if v != "" then Js.Split(v, ',') else []
  }

  /** `Number(params.k) || fallback`. */
  function NumberParam(params: Params, k: string, fallback: int): int {
    var n := if k in params then Js.ToNumber(params[k]) else Js.NaN;
    if n.Truthy() then n.value else fallback
  }

  /** The filters read from the parameters. */
  function Parse(params: Params): Filters {
    Filters(Get(params, "category"), Get(params, "gender"),
            ListParam(params, "color"), ListParam(params, "size"),
            ListParam(params, "material"), ListParam(params, "brand"),
            NumberParam(params, "minPrice", 0), NumberParam(params, "maxPrice", 100))
  }

  /** The price range shown under the slider: the same two bounds. */
  function PriceRange(params: Params): (int, int) {
    (NumberParam(params, "minPrice", 0), NumberParam(params, "maxPrice", 100))
  }

  /** Missing parameters give the initial filters; a maximum price of 0 is
      read as 100, because 0 is falsy. */
  lemma ParseDefaults(params: Params)
    ensures params == map[] ==> Parse(params) == Initial
    ensures "maxPrice" in params && Js.ToNumber(params["maxPrice"]) == Js.Finite(0) ==> Parse(params).maxPrice == 100
    ensures "minPrice" !in params ==> Parse(params).minPrice == 0
    ensures PriceRange(params) == (Parse(params).minPrice, Parse(params).maxPrice)
  {
  }

  /** A check box: a value already chosen is removed wherever it occurs, and
      a new one is appended. */
  function Toggle(list: seq<string>, v: string): (r: seq<string>)
    ensures v in list ==> v !in r
    ensures v !in list ==> r == list + [v]
  {
    if v in list then
      Lists.RemoveKeyMembers(list, Same, v);
      Lists.RemoveKey(list, Same, v)
    else list + [v]
  }

  function Same(s: string): string { s }

  /** Toggling removes or adds nothing but the toggled value. */
  lemma ToggleKeepsOthers(list: seq<string>, v: string)
    ensures forall x :: x != v ==> (x in Toggle(list, v) <==> x in list)
  {
    if v in list {
      Lists.RemoveKeyMembers(list, Same, v);
    }
  }

  /** Unchecking takes the value out where it stood and keeps the values
      before and after it in their order. */
  lemma ToggleRemovesInPlace(before: seq<string>, v: string, after: seq<string>)
    requires v !in before && v !in after
    ensures Toggle(before + [v] + after, v) == before + after
  {
    var list := before + [v] + after;
    assert list[|before|] == v;
    assert forall j :: 0 <= j < |before| ==> Same(before[j]) != v by {
      forall j | 0 <= j < |before| ensures Same(before[j]) != v { assert before[j] in before; }
    }
    assert forall j :: 0 <= j < |after| ==> Same(after[j]) != v by {
      forall j | 0 <= j < |after| ensures Same(after[j]) != v { assert after[j] in after; }
    }
    Lists.RemoveKeyOnce(before, v, after, Same, v);
  }

  /** Checking and unchecking a value not chosen before gives the list back. */
  lemma ToggleTwice(list: seq<string>, v: string)
    requires v !in list
    ensures Toggle(Toggle(list, v), v) == list
  {
    var once := list + [v];
    assert v in once;
    Lists.RemoveKeyAppend(list, [v], Same, v);
    Lists.RemoveKeyAbsent(list, Same, v);
    assert Lists.RemoveKey([v], Same, v) == [] by {
      assert [v][1..] == [];
    }
  }

  /** A control writes its key, joining lists with commas, and keeps every
      other parameter. */
  function Select(params: Params, k: string, value: string): (r: Params)
    ensures r.Keys == params.Keys + {k} && r[k] == value
    ensures forall other :: other in params && other != k ==> r[other] == params[other]
  {
    params[k := value]
  }

  /** Clicking a colour box: the colour list from the parameters, toggled
      and written back. */
  function ToggleColor(params: Params, color: string): Params {
    Select(params, "color", Js.Join(Toggle(Parse(params).color, color), ','))
  }

  /** A list written by a control is read back unchanged, provided its
      values are non-empty and contain no comma, as the sidebar's colours,
      sizes, materials and brands do. */
  lemma WriteThenRead(params: Params, k: string, list: seq<string>)
    requires forall v :: v in list ==> v != "" && ',' !in v
    ensures ListParam(Select(params, k, Js.Join(list, ',')), k) == list
  {
    Js.JoinEmpty(list, ',');
    if |list| > 0 {
      Js.SplitJoin(list, ',');
    }
  }

  /** After clicking a colour box, reading the parameters gives the toggled
      list, and nothing else in the filters moves. */
  lemma ToggleColorRoundTrip(params: Params, color: string)
    requires color != "" && ',' !in color
    requires forall v :: v in Parse(params).color ==> v != ""
    ensures var f := Parse(ToggleColor(params, color));
            f.color == Toggle(Parse(params).color, color) &&
            f == Parse(params).(color := f.color)
  {
    var before := Parse(params).color;
    var after := Toggle(before, color);
    ToggleKeepsOthers(before, color);
    forall v | v in after ensures v != "" && ',' !in v {
      if v != color {
        assert v in before;
        Js.SplitNoSeparator(Get(params, "color"), ',', v);
      }
    }
    WriteThenRead(params, "color", after);
  }

  /** Moving the slider to `v` (a range input yields a run of digits):
      the range shown becomes [0, v] and the maximum price parameter
      becomes `v`; the other parameters stay. */
  function Slide(params: Params, v: string): (r: ((int, int), Params))
    requires |v| > 0 && Js.AllDigits(v)
    ensures r.0 == (0, Js.DigitsValue(v))
    ensures r.1.Keys == params.Keys + {"maxPrice"} && r.1["maxPrice"] == v
    ensures forall k :: k in params && k != "maxPrice" ==> r.1[k] == params[k]
  {
    Js.DigitsParse(v);
    var n := Js.ToNumber(v);
    ((0, n.value), Select(params, "maxPrice", v))
  }

  /** Once the parameters change, the sidebar re-reads them: a positive
      slider value is kept, but sliding to 0 snaps the range back to
      [min, 100], because 0 is falsy. */
  lemma SlideThenRead(params: Params, v: string)
    requires |v| > 0 && Js.AllDigits(v)
    ensures var after := Slide(params, v).1;
            PriceRange(after).1 == (if Js.DigitsValue(v) == 0 then 100 else Js.DigitsValue(v)) &&
            PriceRange(after).0 == PriceRange(params).0
  {
    Js.DigitsParse(v);
  }

  /** A radio button writes its value, which is read straight back, and no
      other filter moves. */
  lemma SelectRadio(params: Params, k: string, value: string)
    requires k == "category" || k == "gender"
    ensures var f := Parse(Select(params, k, value));
            (k == "category" ==> f == Parse(params).(category := value)) &&
            (k == "gender" ==> f == Parse(params).(gender := value))
  {
  }
}
