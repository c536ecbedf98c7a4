/**
 * Cart states and event sequences, checked against the handlers' contracts
 * alone. Where a scenario starts from a cart written directly, the cart is
 * one the add events can build.
 */
module Scenarios {
  import opened Wrappers
  import opened Strings
  import opened CartLines
  import opened ShoppingCart

  /** Adding "Apple" twice while idle leaves one line with the summed quantity. */
  method AddSameNameTwice() {
    var app := new App();
    app.SetNewItem("Apple");
    app.SetNewQuantity(2);
    assert Trim(app.newItem) != [];
    app.HandleAddItem();
    assert app.items == [Line("Apple", 2)];
    app.SetNewItem("Apple");
    app.SetNewQuantity(3);
    assert Trim(app.newItem) != [];
    app.HandleAddItem();
    assert app.items == [Line("Apple", 5)];
  }

  /** A blank name or a negative quantity leaves the cart as it is and sets the item error. */
  method RejectInvalidInput() {
    var app := new App();
    app.SetNewItem("  ");
    assert Trim(app.newItem) == [];
    app.HandleAddItem();
    assert app.items == [] && app.itemError == Some(INVALID_ITEM_MESSAGE);
    app.SetNewItem("Banana");
    app.SetNewQuantity(-2);
    app.HandleAddItem();
    assert app.items == [] && app.itemError == Some(INVALID_ITEM_MESSAGE);
    assert app.newItem == "Banana" && app.newQuantity == -2;
  }

  /** Adding "Apple" and then "Grape" while idle, each with quantity 1. */
  method AppleAndGrape() returns (app: App)
    ensures fresh(app) && app.Valid()
    ensures app.items == [Line("Apple", 1), Line("Grape", 1)]
    ensures app.searchTerm == [] && !app.isEditing && app.newQuantity == 1
  {
    app := new App();
    app.SetNewItem("Apple");
    assert Trim(app.newItem) != [];
    app.HandleAddItem();
    assert app.items == [Line("Apple", 1)];
    app.SetNewItem("Grape");
    assert Trim(app.newItem) != [];
    assert Find(app.items, app.newItem) == None;
    app.HandleAddItem();
  }

  /** Editing the first shown line stages "Apple" and records position 0. */
  method EditStagesLine() {
    var app := AppleAndGrape();
    FilteredEmptyTerm(app.items);
    assert app.FilteredItems()[0].name == "Apple";
    app.HandleEditItem(0);
    assert app.isEditing && app.currentItemIndex == Some(0);
    assert app.newItem == "Apple" && app.newQuantity == 1;
  }

  /** Adding two lines, editing the first and saving it under `name`. */
  method EditFirstAs(name: string) returns (app: App)
    requires Trim(name) != []
    ensures fresh(app) && app.Valid() && !app.isEditing && app.currentItemIndex == None
    ensures app.items == [Line(name, 1), Line("Grape", 1)]
  {
    app := AppleAndGrape();
    FilteredEmptyTerm(app.items);
    app.HandleEditItem(0);
    assert app.currentItemIndex == Some(0) && app.newQuantity == 1;
    app.SetNewItem(name);
    app.HandleAddItem();
  }

  /** Saving "Pear" while editing position 0 replaces that line in place. */
  method SaveEditReplacesInPlace() {
    assert Trim("Pear") != [];
    var app := EditFirstAs("Pear");
    assert app.items == [Line("Pear", 1), Line("Grape", 1)];
  }

  /** Saving an edit under a name another line has makes a duplicate instead of merging. */
  method SaveEditCanDuplicate() {
    assert Trim("Grape") != [];
    var app := EditFirstAs("Grape");
    assert app.items[0].name == app.items[1].name;
    assert !UniqueNames(app.items);
  }

  /** Finalizing an empty cart reports the error; closing the modal twice is closing it once. */
  method FinalizeEmptyThenClose() {
    var app := new App();
    app.HandleFinalizePurchase();
    assert app.error == Some(EMPTY_CART_MESSAGE) && app.receipt == None;
    app.HandleCloseModal();
    var once := (app.receipt, app.error, app.items);
    app.HandleCloseModal();
    assert (app.receipt, app.error, app.items) == once;
  }

  /** The receipt of `[Apple x2, Pear x1]`. */
  method FinalizeReceipt() {
    var app := new App();
    app.items := [Line("Apple", 2), Line("Pear", 1)];
    app.HandleFinalizePurchase();
    assert IntToString(2) == "2" && IntToString(1) == "1";
    assert FormatLine(Line("Apple", 2)) == "Apple - Qtd:  2";
    assert FormatLine(Line("Pear", 1)) == "Pear - Qtd:  1";
    assert ReceiptLines(app.items) == ["Apple - Qtd:  2", "Pear - Qtd:  1"];
    assert Total(app.items) == 3;
    assert app.receipt == Some(Receipt(["Apple - Qtd:  2", "Pear - Qtd:  1"], 3));
  }

  /** Searching "ap" keeps Apple and Grape, in cart order. */
  method SearchIsCaseInsensitive() {
    var items := [Line("Apple", 2), Line("Pear", 1), Line("Grape", 1)];
    AppleMatchesAp();
    PearMissesAp();
    GrapeMatchesAp();
    assert Filtered(items[2..], "ap") == [Line("Grape", 1)];
    assert Filtered(items[1..], "ap") == [Line("Grape", 1)];
    assert Filtered(items, "ap") == [Line("Apple", 2), Line("Grape", 1)];
  }

  /** "Apple" includes "ap" once lower-cased. */
  lemma AppleMatchesAp()
    ensures Matches(Line("Apple", 2), "ap")
  {
    assert Lower("ap") == "ap";
    assert Lower("Apple") == "apple";
    assert Contains("apple", "ap");
  }

  /** "Pear" does not include "ap". */
  lemma PearMissesAp()
    ensures !Matches(Line("Pear", 1), "ap")
  {
    assert Lower("ap") == "ap";
    assert Lower("Pear") == "pear";
    ContainsIffOccurs("pear", "ap");
    assert "pear"[0..2][1] == 'e';
    assert "pear"[1..3][0] == 'e';
    assert "pear"[2..4][1] == 'r';
    assert forall i :: 0 <= i <= 2 ==> !OccursAt("pear", "ap", i);
  }

  /** "Grape" includes "ap" at offset 2. */
  lemma GrapeMatchesAp()
    ensures Matches(Line("Grape", 1), "ap")
  {
    assert Lower("ap") == "ap";
    assert Lower("Grape") == "grape";
    ContainsIffOccurs("grape", "ap");
    assert OccursAt("grape", "ap", 2);
  }

  /** Removing at -1, what `findIndex` gives for a missing name, changes nothing. */
  method RemoveMissing() {
    var app := new App();
    app.items := [Line("Apple", 2)];
    app.HandleRemoveItem(FindIndex(app.items, "Kiwi"));
    assert app.items == [Line("Apple", 2)];
  }

  /** The cart `[Apple x1, Grape x1, Kiwi x1]`, built by three idle adds. */
  method AppleGrapeAndKiwi() returns (app: App)
    ensures fresh(app) && app.Valid() && app.searchTerm == [] && !app.isEditing
    ensures app.items == [Line("Apple", 1), Line("Grape", 1), Line("Kiwi", 1)]
  {
    app := AppleAndGrape();
    app.SetNewItem("Kiwi");
    assert Trim(app.newItem) != [];
    assert "Kiwi"[0] != "Apple"[0] && "Kiwi"[0] != "Grape"[0];
    FindAtFindIndex(app.items, "Kiwi");
    assert Find(app.items, app.newItem) == None;
    app.HandleAddItem();
  }

  /** Enters edit mode on the shown line 1 ("Grape") of a cart whose first two lines are Apple and Grape. */
  method EditGrape(app: App)
    requires app.Valid() && app.searchTerm == []
    requires |app.items| >= 2 && app.items[0] == Line("Apple", 1) && app.items[1] == Line("Grape", 1)
    modifies app`isEditing, app`currentItemIndex, app`newItem, app`newQuantity
    ensures app.Valid() && app.items == old(app.items) && app.searchTerm == []
    ensures app.isEditing && app.currentItemIndex == Some(1) && app.newQuantity == 1
  {
    FilteredEmptyTerm(app.items);
    assert app.FilteredItems()[1].name == "Grape";
    FindIndexIsFirstMatch(app.items, "Grape");
    assert "Apple"[0] != "Grape"[0];
    app.HandleEditItem(1);
  }

  /** Removes the first line (Apple) while a later line is being edited. */
  method RemoveFirst(app: App)
    requires app.Valid() && |app.items| >= 1
    modifies app`items
    ensures app.Valid() && app.items == old(app.items)[1..]
    ensures app.isEditing == old(app.isEditing) && app.currentItemIndex == old(app.currentItemIndex)
  {
    RemoveAtDropsIndex(app.items, 0);
    app.HandleRemoveItem(0);
  }

  /**
   * Editing "Grape" (position 1), removing "Apple", then saving "Pear": the
   * recorded position is now one past the end, so the save appends.
   */
  method SaveAfterRemovingBefore() {
    var app := AppleAndGrape();
    EditGrape(app);
    RemoveFirst(app);
    assert app.items == [Line("Grape", 1)];
    app.SetNewItem("Pear");
    assert Trim(app.newItem) != [];
    app.HandleAddItem();
    assert app.items == [Line("Grape", 1), Line("Pear", 1)];
  }

  /**
   * Editing "Grape" (position 1) of three lines, removing "Apple", then
   * saving "Pear": position 1 now holds "Kiwi", and that line is overwritten.
   */
  method SaveAfterShiftOverwritesNeighbour() {
    var app := AppleGrapeAndKiwi();
    EditGrape(app);
    RemoveFirst(app);
    assert app.items == [Line("Grape", 1), Line("Kiwi", 1)];
    app.SetNewItem("Pear");
    assert Trim(app.newItem) != [];
    app.HandleAddItem();
    assert app.items == [Line("Grape", 1), Line("Pear", 1)];
  }
}
