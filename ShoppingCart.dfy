/**
 * The `App` component: its `useState` hooks become the fields of a class and
 * each event handler becomes one atomic method that reads the state as it was
 * when the event fired and writes the fields its setters update.
 */
module ShoppingCart {
  import opened Wrappers
  import opened Strings
  import opened CartLines

  /** The purchase summary shown in the modal. */
  datatype Receipt = Receipt(items: seq<string>, totalItems: int)

  const INVALID_ITEM_MESSAGE: string := "Por favor, insira um nome de item válido!"
  const EMPTY_CART_MESSAGE: string := "Nenhum item encontrado no carrinho"

  /** The validation of `handleAddItem`: a name that is not all whitespace and a positive quantity. */
  predicate Accepts(name: string, quantity: int) {
    Trim(name) != [] && quantity > 0
  }

  /**
   * `const updatedItems = [...items]; updatedItems[index] = line`: a fresh
   * array copy of the cart with one slot overwritten in place.
   */
  method CopyWithLineAt(items: seq<Line>, index: nat, line: Line) returns (r: seq<Line>)
    requires index <= |items|
    ensures index < |items| ==> r == items[index := line]
    ensures index == |items| ==> r == items + [line]
  {
    var length := if index < |items| then |items| else |items| + 1;
    var updatedItems := new Line[length](i requires 0 <= i < length => if i < |items| then items[i] else line);
    updatedItems[index] := line;
    r := updatedItems[..];
    if index < |items| {
      assert forall i :: 0 <= i < |items| ==> r[i] == items[index := line][i];
    } else {
      assert forall i :: 0 <= i < |items| + 1 ==> r[i] == (items + [line])[i];
    }
  }

  class App {
    var items: seq<Line>
    var newItem: string
    var newQuantity: int
    var isEditing: bool
    var currentItemIndex: Option<int>
    var searchTerm: string
    var receipt: Option<Receipt>
    var error: Option<string>
    var itemError: Option<string>

    /** The component is in edit mode exactly when it has recorded a (resolved) line index. */
    ghost predicate Valid()
      reads this
    {
      (isEditing <==> currentItemIndex.Some?) && (currentItemIndex.Some? ==> currentItemIndex.value >= 0)
    }

    /** The initial values of the hooks. */
    constructor ()
      ensures Valid()
      ensures items == [] && newItem == [] && newQuantity == 1
      ensures !isEditing && currentItemIndex == None && searchTerm == []
      ensures receipt == None && error == None && itemError == None
    {
      items := [];
      newItem := [];
      newQuantity := 1;
      isEditing := false;
      currentItemIndex := None;
      searchTerm := [];
      receipt := None;
      error := None;
      itemError := None;
    }

    /** The list the page shows: the lines matching the search term. */
    function FilteredItems(): seq<Line>
      reads this
    {
      Filtered(items, searchTerm)
    }

    /** The name field's `onChange`. */
    method SetNewItem(value: string)
      modifies this`newItem
      ensures newItem == value
    {
      newItem := value;
    }

    /** The quantity field's `onChange`, given the parsed number: `|| 1` turns 0 into 1. */
    method SetNewQuantity(parsed: int)
      modifies this`newQuantity
      ensures newQuantity == if parsed == 0 then 1 else parsed
    {
      newQuantity := if parsed == 0 then 1 else parsed;
    }

    /** The search field's `onChange`. */
    method SetSearchTerm(value: string)
      modifies this`searchTerm
      ensures searchTerm == value
    {
      searchTerm := value;
    }

    /**
     * Adds the staged line: rejected when invalid; in edit mode overwrites the
     * recorded position; otherwise merges into lines of the same name or appends.
     */
    method HandleAddItem()
      requires Valid()
      requires Accepts(newItem, newQuantity) && isEditing ==> currentItemIndex.value <= |items|
      modifies this`items, this`newItem, this`newQuantity, this`isEditing, this`currentItemIndex, this`itemError
      ensures Valid()
      // rejected input: only the error message changes
      ensures !Accepts(old(newItem), old(newQuantity)) ==>
        && itemError == Some(INVALID_ITEM_MESSAGE)
        && items == old(items) && newItem == old(newItem) && newQuantity == old(newQuantity)
        && isEditing == old(isEditing) && currentItemIndex == old(currentItemIndex)
      // accepted input: the error is cleared, the form is reset and edit mode is over
      ensures Accepts(old(newItem), old(newQuantity)) ==>
        && itemError == None && newItem == [] && newQuantity == 1
        && !isEditing && currentItemIndex == None
      // idle, name present: every line of that name grows by the quantity
      ensures Accepts(old(newItem), old(newQuantity)) && !old(isEditing) && Find(old(items), old(newItem)).Some? ==>
        items == Merge(old(items), old(newItem), old(newQuantity))
      // edit mode: the recorded line is overwritten, with no merge
      ensures Accepts(old(newItem), old(newQuantity)) && old(isEditing) && old(currentItemIndex).value < |old(items)| ==>
        items == old(items)[old(currentItemIndex).value := Line(old(newItem), old(newQuantity))]
      // edit mode, recorded index one past the end (lines removed meanwhile): the write appends
      ensures Accepts(old(newItem), old(newQuantity)) && old(isEditing) && old(currentItemIndex).value == |old(items)| ==>
        items == old(items) + [Line(old(newItem), old(newQuantity))]
      // idle, new name: appended at the end
      ensures Accepts(old(newItem), old(newQuantity)) && !old(isEditing) && Find(old(items), old(newItem)) == None ==>
        items == old(items) + [Line(old(newItem), old(newQuantity))]
    {
      if Trim(newItem) == [] || newQuantity <= 0 {
        itemError := Some(INVALID_ITEM_MESSAGE);
        return;
      }
      itemError := None;
      var existingItem := Find(items, newItem);
      if existingItem.Some? && !isEditing {
        items := Merge(items, newItem, newQuantity);
      } else if isEditing && currentItemIndex.Some? {
        items := CopyWithLineAt(items, currentItemIndex.value, Line(newItem, newQuantity));
        isEditing := false;
        currentItemIndex := None;
      } else {
        items := items + [Line(newItem, newQuantity)];
      }
      newItem := [];
      newQuantity := 1;
    }

    /** Removes the line at `index`; any other index (such as -1) leaves the cart as it is. */
    method HandleRemoveItem(index: int)
      modifies this`items
      ensures items == RemoveAt(old(items), index)
    {
      items := RemoveAt(items, index);
    }

    /** Sets the quantity of the line at `index`, with no lower bound. */
    method HandleUpdateQuantity(index: int, quantity: int)
      modifies this`items
      ensures items == SetQuantityAt(old(items), index, quantity)
    {
      items := SetQuantityAt(items, index, quantity);
    }

    /**
     * Enters edit mode for the `index`-th line of the shown list: records the
     * first cart position with that line's name and stages that position's
     * name and quantity in the form.
     */
    method HandleEditItem(index: int)
      requires Valid()
      requires 0 <= index < |FilteredItems()|
      modifies this`isEditing, this`currentItemIndex, this`newItem, this`newQuantity
      ensures Valid() && isEditing
      ensures currentItemIndex == Some(FindIndex(items, FilteredItems()[index].name))
      ensures 0 <= currentItemIndex.value < |items|
      ensures newItem == items[currentItemIndex.value].name == FilteredItems()[index].name
      ensures newQuantity == items[currentItemIndex.value].quantity
    {
      var filteredItems := Filtered(items, searchTerm);
      FilteredLineResolves(items, searchTerm, index);
      FindIndexIsFirstMatch(items, filteredItems[index].name);
      var originalIndex := FindIndex(items, filteredItems[index].name);
      isEditing := true;
      currentItemIndex := Some(originalIndex);
      newItem := items[originalIndex].name;
      newQuantity := items[originalIndex].quantity;
    }

    /** Builds the receipt, or reports the empty cart and clears any receipt. */
    method HandleFinalizePurchase()
      modifies this`receipt, this`error
      ensures items == [] ==> error == Some(EMPTY_CART_MESSAGE) && receipt == None
      ensures items != [] ==> receipt == Some(Receipt(ReceiptLines(items), Total(items))) && error == None
    {
      if |items| == 0 {
        error := Some(EMPTY_CART_MESSAGE);
        receipt := None;
      } else {
        var totalItems := Total(items);
        var receiptDetails := ReceiptLines(items);
        receipt := Some(Receipt(receiptDetails, totalItems));
        error := None;
      }
    }

    /** Closes the modal: no receipt and no error afterwards. */
    method HandleCloseModal()
      modifies this`receipt, this`error
      ensures receipt == None && error == None
    {
      receipt := None;
      error := None;
    }
  }
}
