/** The dashboard screen: the category filter toggle, the per-chip
    "is selected" test, the typing flag the search field drives, and the
    formatting of the fetched food list. Prices are integer cents. */
module Dashboard {

  import SearchInput

  /** `number | undefined`. */
  datatype Option<T> = None | Some(value: T)

  /** A food as GET /foods returns it. */
  datatype ListedFood = ListedFood(
    id: int,
    name: string,
    description: string,
    price: int,
    thumbnailUrl: string)

  /** A food as the screen lists it: the fetched fields plus the display price. */
  datatype Food = Food(
    id: int,
    name: string,
    description: string,
    price: int,
    thumbnailUrl: string,
    formattedPrice: string)

  datatype Category = Category(id: int, title: string, imageUrl: string)

  // ---------------------------------------------------------------------
  // Category selection

  /** JavaScript truthiness of a `number | undefined`: undefined and 0 are falsy. */
  predicate Truthy(selected: Option<int>) {
    selected.Some? && selected.value != 0
  }

  /** handleSelectCategory exactly as written: the guard `selectedCategory && ...`
      is false for a selected id of 0, so that id is selected again instead of cleared. */
  function SelectCategoryAsWritten(selected: Option<int>, id: int): (r: Option<int>)
    ensures r == None <==> selected == Some(id) && id != 0
    ensures r != None ==> r == Some(id)
  {
    if Truthy(selected) && selected.value == id then None else Some(id)
  }

  /** A selected category 0 cannot be cleared by tapping it again. */
  lemma ZeroCannotBeDeselected()
    ensures SelectCategoryAsWritten(Some(0), 0) == Some(0)
    ensures SelectCategoryAsWritten(SelectCategoryAsWritten(None, 0), 0) != None
  {
  }

  /** The toggle as intended: tapping the selected category clears the
      filter, tapping any other category selects it. */
  function SelectCategory(selected: Option<int>, id: int): (r: Option<int>)
    ensures r == None <==> selected == Some(id)
    ensures r != None ==> r == Some(id)
  {
    if selected.Some? && selected.value == id then None else Some(id)
  }

  /** The two differ exactly on re-tapping a selected category 0. */
  lemma AsWrittenDiffersOnlyAtZero(selected: Option<int>, id: int)
    ensures SelectCategoryAsWritten(selected, id) != SelectCategory(selected, id)
      <==> selected == Some(0) && id == 0
  {
  }

  /** `category.id === selectedCategory`: undefined equals no id. */
  predicate IsSelected(categoryId: int, selected: Option<int>) {
    selected == Some(categoryId)
  }

  /** At most one distinct category id is shown as selected. */
  lemma AtMostOneSelected(a: int, b: int, selected: Option<int>)
    requires IsSelected(a, selected) && IsSelected(b, selected)
    ensures a == b
  {
  }

  /** The ids of the chips drawn as selected. */
  function SelectedIds(categories: seq<Category>, selected: Option<int>): set<int> {
    set c | c in categories && IsSelected(c.id, selected) :: c.id
  }

  lemma SelectedIdsAtMostOne(categories: seq<Category>, selected: Option<int>)
    ensures |SelectedIds(categories, selected)| <= 1
    ensures selected == None ==> SelectedIds(categories, selected) == {}
    ensures forall c :: c in categories && Some(c.id) == selected ==>
      SelectedIds(categories, selected) == {c.id}
  {
    var ids := SelectedIds(categories, selected);
    if selected.Some? {
      assert ids <= {selected.value};
      if ids != {} {
        assert ids == {selected.value};
      }
    } else {
      assert ids == {};
    }
  }

  /** Tapping a chip toggles that chip and deselects every other one. */
  lemma SelectCategoryToggles(selected: Option<int>, id: int, other: int)
    requires other != id
    ensures IsSelected(id, SelectCategory(selected, id)) <==> !IsSelected(id, selected)
    ensures !IsSelected(other, SelectCategory(selected, id))
  {
  }

  /** Tapping the same category twice from no selection clears the filter again;
      as written that holds for every id but 0. */
  lemma SelectTwiceReturnsToNone(id: int)
    ensures SelectCategory(SelectCategory(None, id), id) == None
    ensures id != 0 ==> SelectCategoryAsWritten(SelectCategoryAsWritten(None, id), id) == None
  {
  }

  // ---------------------------------------------------------------------
  // Food list

  /** The food as listed: every fetched field, plus formatValue(price). */
  function Formatted(f: ListedFood, format: int -> string): Food {
    Food(f.id, f.name, f.description, f.price, f.thumbnailUrl, format(f.price))
  }

  /** The fetched fields of a listed food (its display price dropped). */
  function Unformatted(f: Food): ListedFood {
    ListedFood(f.id, f.name, f.description, f.price, f.thumbnailUrl)
  }

  /** formattedFoods: the response, element by element, with formattedPrice added. */
  function FormatFoods(response: seq<ListedFood>, format: int -> string): (r: seq<Food>)
    ensures |r| == |response|
    ensures forall i :: 0 <= i < |response| ==>
      Unformatted(r[i]) == response[i] && r[i].formattedPrice == format(response[i].price)
  {
    if response == [] then [] else [Formatted(response[0], format)] + FormatFoods(response[1..], format)
  }

  function UnformatAll(foods: seq<Food>): seq<ListedFood> {
    if foods == [] then [] else [Unformatted(foods[0])] + UnformatAll(foods[1..])
  }

  /** Dropping the display price gives back the response exactly: same length,
      same order, same fields. */
  lemma {:induction false} FormatFoodsKeepsResponse(response: seq<ListedFood>, format: int -> string)
    ensures UnformatAll(FormatFoods(response, format)) == response
  {
    if response != [] {
      var r := FormatFoods(response, format);
      assert r[1..] == FormatFoods(response[1..], format);
      FormatFoodsKeepsResponse(response[1..], format);
    }
  }

  // ---------------------------------------------------------------------
  // The screen's state

  class Screen {
    var foods: seq<Food>
    var categories: seq<Category>
    var selectedCategory: Option<int>
    var typing: bool
    var searchValue: string

    constructor ()
      ensures foods == [] && categories == []
      ensures selectedCategory == None && !typing && searchValue == ""
    {
      foods := [];
      categories := [];
      selectedCategory := None;
      typing := false;
      searchValue := "";
    }

    /** Completion of loadFoods: the list is replaced wholesale. */
    method LoadFoods(response: seq<ListedFood>, format: int -> string)
      modifies this`foods
      ensures foods == FormatFoods(response, format)
      ensures UnformatAll(foods) == response
    {
      foods := FormatFoods(response, format);
      FormatFoodsKeepsResponse(response, format);
    }

    /** Completion of loadCategories. */
    method LoadCategories(response: seq<Category>)
      modifies this`categories
      ensures categories == response
    {
      categories := response;
    }

    method HandleSelectCategory(id: int)
      modifies this`selectedCategory
      ensures selectedCategory == SelectCategory(old(selectedCategory), id)
      ensures IsSelected(id, selectedCategory) <==> !IsSelected(id, old(selectedCategory))
    {
      if selectedCategory.Some? && selectedCategory.value == id {
        selectedCategory := None;
      } else {
        selectedCategory := Some(id);
      }
    }

    /** The search field's onChangeText. */
    method ChangeSearchValue(value: string)
      modifies this`searchValue
      ensures searchValue == value
    {
      searchValue := value;
    }

    /** The handlers passed as onFocusEnter and onFocusExit. */
    method Receive(callback: SearchInput.Callback)
      modifies this`typing
      ensures typing <==> callback == SearchInput.FocusEnter
    {
      match callback
      case FocusEnter => typing := true;
      case FocusExit => typing := false;
    }
  }
}
