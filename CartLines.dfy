/**
 * The list transforms the cart's handlers apply to `items`: the `find`,
 * `findIndex`, `map`, `filter` and `reduce` calls of `App`, each as a
 * function over a sequence of cart lines, and what they compute as lemmas.
 */
module CartLines {
  import opened Wrappers
  import opened Strings

  /** One cart line, `{ name, quantity }`. */
  datatype Line = Line(name: string, quantity: int)

  /** `items.findIndex(item => item.name === name)` */
  function FindIndex(items: seq<Line>, name: string): int {
    if items == [] then -1
    else if items[0].name == name then 0
    else
      var k := FindIndex(items[1..], name);
      if k == -1 then -1 else k + 1
  }

  /** `findIndex` gives -1 exactly when no line has the name, and otherwise the first index whose line has it. */
  lemma {:induction false} FindIndexIsFirstMatch(items: seq<Line>, name: string)
    ensures -1 <= FindIndex(items, name) < |items|
    ensures FindIndex(items, name) == -1 <==> forall j :: 0 <= j < |items| ==> items[j].name != name
    ensures 0 <= FindIndex(items, name) ==>
      && items[FindIndex(items, name)].name == name
      && forall j :: 0 <= j < FindIndex(items, name) ==> items[j].name != name
  {
    if items != [] && items[0].name != name {
      FindIndexIsFirstMatch(items[1..], name);
    }
  }

  /** `items.find(item => item.name === name)` */
  function Find(items: seq<Line>, name: string): Option<Line> {
    if items == [] then None
    else if items[0].name == name then Some(items[0])
    else Find(items[1..], name)
  }

  /** `find` returns nothing exactly when no line has the name, and otherwise the line at the index `findIndex` reports. */
  lemma {:induction false} FindAtFindIndex(items: seq<Line>, name: string)
    ensures FindIndex(items, name) < |items|
    ensures Find(items, name) == if FindIndex(items, name) < 0 then None else Some(items[FindIndex(items, name)])
    ensures Find(items, name) == None <==> forall j :: 0 <= j < |items| ==> items[j].name != name
  {
    FindIndexIsFirstMatch(items, name);
    if items != [] && items[0].name != name {
      FindAtFindIndex(items[1..], name);
    }
  }

  /** The merge of `handleAddItem`: `items.map(item => item.name === name ? { ...item, quantity: item.quantity + q } : item)` */
  function Merge(items: seq<Line>, name: string, q: int): seq<Line> {
    if items == [] then []
    else
      var head := if items[0].name == name then Line(name, items[0].quantity + q) else items[0];
      [head] + Merge(items[1..], name, q)
  }

  /** A merge keeps the length; every line with the name gains `q`; every other line is identical. */
  lemma {:induction false} MergeAddsToMatching(items: seq<Line>, name: string, q: int)
    ensures |Merge(items, name, q)| == |items|
    ensures forall i :: 0 <= i < |items| && items[i].name == name ==> Merge(items, name, q)[i] == Line(name, items[i].quantity + q)
    ensures forall i :: 0 <= i < |items| && items[i].name != name ==> Merge(items, name, q)[i] == items[i]
  {
    if items != [] {
      MergeAddsToMatching(items[1..], name, q);
      var r := Merge(items, name, q);
      assert forall i :: 1 <= i < |items| ==> r[i] == Merge(items[1..], name, q)[i - 1];
    }
  }

  /** `items.filter((item, i) => i !== index)` */
  function RemoveAt(items: seq<Line>, index: int): seq<Line> {
    if items == [] then []
    else (if index == 0 then [] else [items[0]]) + RemoveAt(items[1..], index - 1)
  }

  /** An index in range drops exactly that position and keeps the rest in order; any other index (such as -1) changes nothing. */
  lemma {:induction false} RemoveAtDropsIndex(items: seq<Line>, index: int)
    ensures 0 <= index < |items| ==> RemoveAt(items, index) == items[..index] + items[index + 1..]
    ensures !(0 <= index < |items|) ==> RemoveAt(items, index) == items
  {
    if items != [] {
      RemoveAtDropsIndex(items[1..], index - 1);
      if 0 < index < |items| {
        assert items[1..][..index - 1] + items[1..][index..] == items[1..index] + items[index + 1..];
        assert [items[0]] + items[1..index] == items[..index];
      } else if index == 0 {
        assert items[..0] + items[1..] == items[1..];
      } else {
        assert [items[0]] + items[1..] == items;
      }
    }
  }

  /** `items.map((item, i) => i === index ? { ...item, quantity } : item)` */
  function SetQuantityAt(items: seq<Line>, index: int, quantity: int): seq<Line> {
    if items == [] then []
    else
      var head := if index == 0 then Line(items[0].name, quantity) else items[0];
      [head] + SetQuantityAt(items[1..], index - 1, quantity)
  }

  /** An index in range gets the new quantity, with no lower bound, and keeps its name; any other index changes nothing. */
  lemma {:induction false} SetQuantityAtSetsIndex(items: seq<Line>, index: int, quantity: int)
    ensures 0 <= index < |items| ==> SetQuantityAt(items, index, quantity) == items[index := Line(items[index].name, quantity)]
    ensures !(0 <= index < |items|) ==> SetQuantityAt(items, index, quantity) == items
  {
    if items != [] {
      SetQuantityAtSetsIndex(items[1..], index - 1, quantity);
      if 0 < index < |items| {
        assert [items[0]] + items[1..][index - 1 := Line(items[index].name, quantity)] == items[index := Line(items[index].name, quantity)];
      } else if index == 0 {
        assert [Line(items[0].name, quantity)] + items[1..] == items[0 := Line(items[0].name, quantity)];
      } else {
        assert [items[0]] + items[1..] == items;
      }
    }
  }

  /** `items.reduce((acc, item) => acc + item.quantity, 0)`, folding from the left. */
  function Total(items: seq<Line>): int {
    if items == [] then 0 else Total(items[..|items| - 1]) + items[|items| - 1].quantity
  }

  /** The number of lines named `name`. */
  function Count(items: seq<Line>, name: string): nat {
    if items == [] then 0 else (if items[0].name == name then 1 else 0) + Count(items[1..], name)
  }

  /** The total of a concatenation is the sum of the totals. */
  lemma {:induction false} TotalAppend(a: seq<Line>, b: seq<Line>)
    ensures Total(a + b) == Total(a) + Total(b)
  {
    if b == [] {
      assert a + b == a;
    } else {
      assert (a + b)[..|a + b| - 1] == a + b[..|b| - 1];
      assert (a + b)[|a + b| - 1] == b[|b| - 1];
      TotalAppend(a, b[..|b| - 1]);
    }
  }

  /** Unfolding the total from the front. */
  lemma TotalCons(items: seq<Line>)
    requires items != []
    ensures Total(items) == items[0].quantity + Total(items[1..])
  {
    assert items == [items[0]] + items[1..];
    TotalAppend([items[0]], items[1..]);
  }

  /** When every quantity is at least 1, the total is at least the number of lines. */
  lemma {:induction false} TotalAtLeastLength(items: seq<Line>)
    requires forall i :: 0 <= i < |items| ==> items[i].quantity >= 1
    ensures Total(items) >= |items|
  {
    if items != [] {
      TotalAtLeastLength(items[..|items| - 1]);
    }
  }

  /**
   * Distributes `q` over `1 + c`. Kept apart so that the solver meets this
   * nonlinear step without the rest of `TotalMerge`'s context.
   */
  lemma MulOnePlus(q: int, c: int)
    ensures q * (1 + c) == q + q * c
  {
  }

  /** A merge adds `q` to the total once for every line carrying the name. */
  lemma {:induction false} TotalMerge(items: seq<Line>, name: string, q: int)
    ensures Total(Merge(items, name, q)) == Total(items) + q * Count(items, name)
  {
    if items != [] {
      var r := Merge(items, name, q);
      var c := Count(items[1..], name);
      MergeAddsToMatching(items, name, q);
      TotalCons(items);
      TotalCons(r);
      assert r[1..] == Merge(items[1..], name, q);
      TotalMerge(items[1..], name, q);
      if items[0].name == name {
        assert r[0].quantity == items[0].quantity + q;
        assert Count(items, name) == 1 + c;
        MulOnePlus(q, c);
      } else {
        assert r[0] == items[0];
        assert Count(items, name) == c;
      }
    }
  }

  /** Removing a line takes its quantity off the total. */
  lemma TotalRemoveAt(items: seq<Line>, index: int)
    requires 0 <= index < |items|
    ensures Total(RemoveAt(items, index)) == Total(items) - items[index].quantity
  {
    RemoveAtDropsIndex(items, index);
    TotalSplitAt(items, index);
    TotalAppend(items[..index], items[index + 1..]);
  }

  /** The total is the part before a position, that line's quantity, and the part after. */
  lemma TotalSplitAt(items: seq<Line>, index: int)
    requires 0 <= index < |items|
    ensures Total(items) == Total(items[..index]) + items[index].quantity + Total(items[index + 1..])
  {
    var upTo := items[..index + 1];
    assert items == upTo + items[index + 1..];
    assert upTo[..|upTo| - 1] == items[..index];
    TotalAppend(upTo, items[index + 1..]);
  }

  /** Setting a quantity replaces that line's share of the total. */
  lemma TotalSetQuantityAt(items: seq<Line>, index: int, quantity: int)
    requires 0 <= index < |items|
    ensures Total(SetQuantityAt(items, index, quantity)) == Total(items) - items[index].quantity + quantity
  {
    SetQuantityAtSetsIndex(items, index, quantity);
    var r := SetQuantityAt(items, index, quantity);
    TotalSplitAt(items, index);
    TotalSplitAt(r, index);
    assert r[..index] == items[..index] && r[index + 1..] == items[index + 1..];
  }

  /**
   * No two lines share a name: the idle add keeps this
   * (`IdleAddKeepsUniqueNames`), an edit-save can break it (`ReplaceAtUniqueIff`).
   */
  predicate UniqueNames(items: seq<Line>) {
    forall i, j :: 0 <= i < j < |items| ==> items[i].name != items[j].name
  }

  /** Under unique names a name occurs on at most one line, and on one exactly when `find` finds it. */
  lemma {:induction false} CountUnique(items: seq<Line>, name: string)
    requires UniqueNames(items)
    ensures Count(items, name) <= 1
    ensures Count(items, name) == 1 <==> Find(items, name).Some?
  {
    if items != [] {
      CountUnique(items[1..], name);
      if items[0].name == name {
        FindAtFindIndex(items[1..], name);
        assert Find(items[1..], name) == None;
      }
    }
  }

  /** Merging keeps names unique; appending a name `find` did not find keeps them unique. */
  lemma IdleAddKeepsUniqueNames(items: seq<Line>, name: string, q: int)
    requires UniqueNames(items)
    ensures UniqueNames(Merge(items, name, q))
    ensures Find(items, name) == None ==> UniqueNames(items + [Line(name, q)])
  {
    MergeAddsToMatching(items, name, q);
    FindAtFindIndex(items, name);
    var r := Merge(items, name, q);
    assert forall i :: 0 <= i < |items| ==> r[i].name == items[i].name;
  }

  /**
   * Overwriting one line of a cart with unique names keeps the names unique
   * exactly when no OTHER line already carries the new name: the edit-save
   * path can create duplicates.
   */
  lemma ReplaceAtUniqueIff(items: seq<Line>, index: int, line: Line)
    requires UniqueNames(items) && 0 <= index < |items|
    ensures UniqueNames(items[index := line]) <==> forall j :: 0 <= j < |items| && j != index ==> items[j].name != line.name
  {
    var r := items[index := line];
    if !forall j :: 0 <= j < |items| && j != index ==> items[j].name != line.name {
      var j :| 0 <= j < |items| && j != index && items[j].name == line.name;
      if j < index {
        assert r[j].name == r[index].name;
      } else {
        assert r[index].name == r[j].name;
      }
    }
  }

  /** The separator between a line's name and its quantity on the receipt. */
  const RECEIPT_SEPARATOR: string := " - Qtd:  "

  /** `${item.name} - Qtd:  ${item.quantity}` */
  function FormatLine(line: Line): string {
    line.name + RECEIPT_SEPARATOR + IntToString(line.quantity)
  }

  /** A receipt line is the name, then the separator, then text that reads back as the quantity. */
  lemma FormatLineParts(line: Line)
    ensures var s := FormatLine(line);
      && s[..|line.name|] == line.name
      && s[|line.name|..|line.name| + |RECEIPT_SEPARATOR|] == RECEIPT_SEPARATOR
      && SignedValue(s[|line.name| + |RECEIPT_SEPARATOR|..]) == line.quantity
  {
    var s := FormatLine(line);
    assert s[|line.name| + |RECEIPT_SEPARATOR|..] == IntToString(line.quantity);
  }

  /** `s.map(f)`: `f` applied to each element, in order. */
  function Map<A, B>(s: seq<A>, f: A -> B): seq<B> {
    if s == [] then [] else [f(s[0])] + Map(s[1..], f)
  }

  /** Mapping keeps the length and applies `f` at every position. */
  lemma {:induction false} MapEach<A, B>(s: seq<A>, f: A -> B)
    ensures |Map(s, f)| == |s|
    ensures forall i :: 0 <= i < |s| ==> Map(s, f)[i] == f(s[i])
  {
    if s != [] {
      MapEach(s[1..], f);
      forall i | 1 <= i < |s|
        ensures Map(s, f)[i] == f(s[i])
      {
        assert s[1..][i - 1] == s[i];
      }
    }
  }

  /** `items.map(item => FormatLine(item))` */
  function ReceiptLines(items: seq<Line>): seq<string> {
    Map(items, FormatLine)
  }

  /** One receipt line per cart line, in cart order, each the formatted line. */
  lemma ReceiptLinesFormatEach(items: seq<Line>)
    ensures |ReceiptLines(items)| == |items|
    ensures forall i :: 0 <= i < |items| ==> ReceiptLines(items)[i] == FormatLine(items[i])
  {
    MapEach(items, FormatLine);
  }

  /** The search test: the lower-cased name includes the lower-cased term. */
  predicate Matches(line: Line, term: string) {
    Contains(Lower(line.name), Lower(term))
  }

  /** `items.filter(item => item.name.toLowerCase().includes(term.toLowerCase()))` */
  function Filtered(items: seq<Line>, term: string): seq<Line> {
    if items == [] then []
    else (if Matches(items[0], term) then [items[0]] else []) + Filtered(items[1..], term)
  }

  /** The search result is no longer than the cart and holds exactly the cart's matching lines. */
  lemma {:induction false} FilteredKeepsMatching(items: seq<Line>, term: string)
    ensures |Filtered(items, term)| <= |items|
    ensures forall x :: x in Filtered(items, term) <==> x in items && Matches(x, term)
  {
    if items != [] {
      FilteredKeepsMatching(items[1..], term);
      assert items == [items[0]] + items[1..];
    }
  }

  /** `s` is `t` with some elements left out, the rest kept in order. */
  ghost predicate IsSubsequence(s: seq<Line>, t: seq<Line>) {
    s == [] || (t != [] && (IsSubsequence(s, t[1..]) || (s[0] == t[0] && IsSubsequence(s[1..], t[1..]))))
  }

  /** The search result keeps the cart's order. */
  lemma {:induction false} FilteredIsSubsequence(items: seq<Line>, term: string)
    ensures IsSubsequence(Filtered(items, term), items)
  {
    if items != [] {
      FilteredIsSubsequence(items[1..], term);
      var r := Filtered(items, term);
      var rest := Filtered(items[1..], term);
      if Matches(items[0], term) {
        assert r == [items[0]] + rest;
        assert r[0] == items[0] && r[1..] == rest;
      } else {
        assert r == rest;
      }
    }
  }

  /** The search result keeps each matching line exactly as often as the cart has it. */
  lemma {:induction false} FilteredMultiset(items: seq<Line>, term: string, x: Line)
    ensures multiset(Filtered(items, term))[x] == if Matches(x, term) then multiset(items)[x] else 0
  {
    if items != [] {
      FilteredMultiset(items[1..], term, x);
      assert items == [items[0]] + items[1..];
    }
  }

  /** An empty search term shows the whole cart. */
  lemma {:induction false} FilteredEmptyTerm(items: seq<Line>)
    ensures Filtered(items, []) == items
  {
    if items != [] {
      ContainsEmpty(Lower(items[0].name));
      FilteredEmptyTerm(items[1..]);
    }
  }

  /** Searching the search result again changes nothing. */
  lemma {:induction false} FilteredIdempotent(items: seq<Line>, term: string)
    ensures Filtered(Filtered(items, term), term) == Filtered(items, term)
  {
    if items != [] {
      FilteredIdempotent(items[1..], term);
      var r := Filtered(items, term);
      var rest := Filtered(items[1..], term);
      if Matches(items[0], term) {
        assert r == [items[0]] + rest;
        assert r[1..] == rest;
        assert Filtered(r, term) == [items[0]] + Filtered(rest, term);
      } else {
        assert r == rest;
      }
    }
  }

  /** A line shown in the search result is found again in the cart by its name. */
  lemma FilteredLineResolves(items: seq<Line>, term: string, k: int)
    requires 0 <= k < |Filtered(items, term)|
    ensures 0 <= FindIndex(items, Filtered(items, term)[k].name) < |items|
  {
    var x := Filtered(items, term)[k];
    FilteredKeepsMatching(items, term);
    FindIndexIsFirstMatch(items, x.name);
    assert x in Filtered(items, term);
    var j :| 0 <= j < |items| && items[j] == x;
  }
}
