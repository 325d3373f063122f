/** The category picker: a fixed list of names with a single checkmark. */
module CategoryPicker {
  import opened Wrappers
  import opened Geo

  const Categories: seq<string> := [
    "No Category", "Apple Store", "Bar", "Bookstore", "Club", "Grocery Store",
    "Historic Building", "House", "Icecream Vendor", "Landmark", "Park"]

  /** The list has eleven names, no two alike. */
  lemma CategoriesDistinct()
    ensures |Categories| == 11
    ensures forall i, j :: 0 <= i < j < |Categories| ==> Categories[i] != Categories[j]
  {
  }

  /** The loop of `viewDidLoad`: the first index holding `target`, stopping at the first match. */
  method FirstMatch(names: seq<string>, target: string) returns (found: Option<nat>)
    ensures found.Some? ==> found.value < |names| && names[found.value] == target
    ensures found.Some? ==> forall k :: 0 <= k < found.value ==> names[k] != target
    ensures found.None? <==> forall k :: 0 <= k < |names| ==> names[k] != target
  {
    for i := 0 to |names|
      invariant forall k :: 0 <= k < i ==> names[k] != target
    {
      if names[i] == target {
        return Some(i);
      }
    }
    return None;
  }

  /** `numberOfRowsInSection`: one row per category, whatever the section. */
  function NumberOfRows(section: int): (n: nat)
    ensures n == |Categories| == 11
  {
    CategoriesDistinct();
    |Categories|
  }

  /** `cellForRowAt`: a row carries the checkmark exactly when its name is the selected one. */
  predicate IsChecked(selectedCategoryName: string, row: nat)
    requires row < |Categories|
    ensures IsChecked(selectedCategoryName, row) ==>
      forall k :: 0 <= k < |Categories| && k != row ==> Categories[k] != selectedCategoryName
    ensures selectedCategoryName !in Categories ==> !IsChecked(selectedCategoryName, row)
  {
    CategoriesDistinct();
    Categories[row] == selectedCategoryName
  }

  /** The names are distinct, so at most one row is checked. */
  lemma AtMostOneChecked(selectedCategoryName: string, i: nat, j: nat)
    requires i < |Categories| && j < |Categories|
    requires IsChecked(selectedCategoryName, i) && IsChecked(selectedCategoryName, j)
    ensures i == j
  {
    CategoriesDistinct();
  }

  /** `CategoryPickerViewController`. An empty `IndexPath()` is `None`. */
  class Picker {
    var selectedCategoryName: string
    var selectedIndexPath: Option<IndexPath>

    /** Opened from the details screen, which passes its category name. */
    constructor (categoryName: string)
      ensures selectedCategoryName == categoryName && selectedIndexPath == None
    {
      selectedCategoryName := categoryName;
      selectedIndexPath := None;
    }

    /** `viewDidLoad`: selects the row of the current name, or leaves the selection as it was. */
    method ViewDidLoad()
      modifies this
      ensures selectedCategoryName == old(selectedCategoryName)
      ensures selectedCategoryName in Categories ==>
        selectedIndexPath.Some? && selectedIndexPath.value.section == 0 &&
        selectedIndexPath.value.row < |Categories| &&
        Categories[selectedIndexPath.value.row] == selectedCategoryName
      ensures selectedCategoryName !in Categories ==> selectedIndexPath == old(selectedIndexPath)
    {
      var found := FirstMatch(Categories, selectedCategoryName);
      if found.Some? {
        selectedIndexPath := Some(IndexPath(0, found.value));
      }
    }

    /**
     * `didSelectRowAt`: a row other than the selected one becomes the selection; the
     * selected row changes nothing. Reading the row of an empty index path traps, so a
     * selection must exist.
     */
    method DidSelectRow(indexPath: IndexPath)
      requires selectedIndexPath.Some?
      modifies this
      ensures selectedCategoryName == old(selectedCategoryName)
      ensures indexPath.row != old(selectedIndexPath.value.row) ==> selectedIndexPath == Some(indexPath)
      ensures indexPath.row == old(selectedIndexPath.value.row) ==> selectedIndexPath == old(selectedIndexPath)
    {
      if indexPath.row != selectedIndexPath.value.row {
        selectedIndexPath := Some(indexPath);
      }
    }

    /** `prepare(for:)` of the "PickedCategory" segue: the tapped cell's name becomes the selected name. */
    method PrepareForPickedCategory(tapped: Option<IndexPath>)
      requires tapped.Some? ==> tapped.value.row < |Categories|
      modifies this
      ensures selectedIndexPath == old(selectedIndexPath)
      ensures tapped.Some? ==> selectedCategoryName == Categories[tapped.value.row]
      ensures tapped.None? ==> selectedCategoryName == old(selectedCategoryName)
    {
      if tapped.Some? {
        selectedCategoryName := Categories[tapped.value.row];
      }
    }
  }
}
