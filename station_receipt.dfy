/**
 * The print station's ReceiptGenerator (print-station/src/receiptGenerator.js):
 * the full receipt followed, when line cuts are on, by one cut segment per
 * preparation line listing only that line's items.
 */
module StationReceipt {
  import opened Common
  import opened EscPos
  import opened ReceiptLayout

  /** The constructor's defaults: an 80 mm roll holds about 48 characters. */
  const StationDefaults := ReceiptConfig("FESTA DELLA PARROCCHIA", "Ritira alle cucine indicate", 48, "EUR", "=", "-")

  function StationConfig(options: ReceiptOptions): ReceiptConfig {
    ResolveConfig(options, StationDefaults)
  }

  /** Missing keys take the station defaults; an explicit width of 0 is kept rather than replaced by 48. */
  lemma StationConfigDefaults(options: ReceiptOptions)
    ensures options.width.None? ==> StationConfig(options).width == 48
    ensures options.width == Some(0) ==> StationConfig(options).width == 0
    ensures options.currency.None? ==> StationConfig(options).currency == "EUR"
    ensures options.separator.None? ==> StationConfig(options).separator == "="
    ensures options.itemSeparator.None? ==> StationConfig(options).itemSeparator == "-"
  {
  }

  // ---------------------------------------------------------------------
  // Grouping by preparation line.

  /** `item.preparationLine || 'GENERALE'`. */
  function LineOf(item: Item): Text {
    if item.preparationLine != [] then item.preparationLine else "GENERALE"
  }

  /** The line names in the order the items first name them: each once, at its first item. */
  function LineNames(items: seq<Item>): (names: seq<Text>)
    ensures forall i, j :: 0 <= i < j < |names| ==> names[i] != names[j]
    ensures forall i :: 0 <= i < |items| ==> LineOf(items[i]) in names
    ensures forall n :: n in names ==> exists i :: 0 <= i < |items| && LineOf(items[i]) == n
  {
    if items == [] then [] else
    var init := items[..|items| - 1];
    var names := LineNames(init);
    var line := LineOf(items[|items| - 1]);
    assert forall i :: 0 <= i < |init| ==> items[i] == init[i];
    if line in names then names else names + [line]
  }

  // ---------------------------------------------------------------------
  // The grouped object's key order.

  /**
   * An array index: the canonical decimal text of an integer below 2^32 - 1.
   * A plain object lists such keys before all others, in ascending numeric
   * order, whatever order they were added in.
   */
  predicate IsArrayIndex(name: Text) {
    IsCanonicalNat(name) && DigitsValue(name) < 0xFFFF_FFFF
  }

  /** Every other key keeps the order in which it was added. */
  predicate IsNamedKey(name: Text) {
    !IsArrayIndex(name)
  }

  function IndexValue(name: Text): nat
    requires IsArrayIndex(name)
  {
    DigitsValue(name)
  }

  predicate AllIndices(s: seq<Text>) {
    forall i :: 0 <= i < |s| ==> IsArrayIndex(s[i])
  }

  predicate Ascending(s: seq<Text>)
    requires AllIndices(s)
  {
    forall i, j :: 0 <= i < j < |s| ==> IndexValue(s[i]) <= IndexValue(s[j])
  }

  /** Adds an index key to the ascending index keys at its numeric place. */
  function InsertIndex(x: Text, sorted: seq<Text>): (r: seq<Text>)
    requires IsArrayIndex(x) && AllIndices(sorted)
    ensures AllIndices(r)
    ensures multiset(r) == multiset(sorted) + multiset{x}
  {
    if sorted == [] then [x]
    else if IndexValue(x) <= IndexValue(sorted[0]) then [x] + sorted
    else
      assert sorted == [sorted[0]] + sorted[1..];
      [sorted[0]] + InsertIndex(x, sorted[1..])
  }

  /** Every key of the result is a key of `sorted` or `x` itself. */
  lemma InsertMembers(x: Text, sorted: seq<Text>, y: Text)
    requires IsArrayIndex(x) && AllIndices(sorted)
    requires y in InsertIndex(x, sorted)
    ensures y == x || y in sorted
  {
    assert y in multiset(InsertIndex(x, sorted));
  }

  /** Inserting into ascending keys keeps them ascending. */
  lemma {:induction false} InsertAscending(x: Text, sorted: seq<Text>)
    requires IsArrayIndex(x) && AllIndices(sorted) && Ascending(sorted)
    ensures Ascending(InsertIndex(x, sorted))
  {
    if sorted != [] && IndexValue(x) > IndexValue(sorted[0]) {
      var rest := InsertIndex(x, sorted[1..]);
      InsertAscending(x, sorted[1..]);
      var r := [sorted[0]] + rest;
      forall j | 0 < j < |r| ensures IndexValue(r[0]) <= IndexValue(r[j]) {
        assert r[j] == rest[j - 1];
        InsertMembers(x, sorted[1..], rest[j - 1]);
      }
    }
  }

  /** The index keys in ascending numeric order, whatever order they were added in. */
  function SortIndices(s: seq<Text>): (r: seq<Text>)
    requires AllIndices(s)
    ensures AllIndices(r) && Ascending(r)
    ensures multiset(r) == multiset(s)
  {
    if s == [] then []
    else
      assert s == s[..|s| - 1] + [s[|s| - 1]];
      InsertAscending(s[|s| - 1], SortIndices(s[..|s| - 1]));
      InsertIndex(s[|s| - 1], SortIndices(s[..|s| - 1]))
  }

  /** The index keys among `names`, in their order there. */
  function IndexKeys(names: seq<Text>): (r: seq<Text>)
    ensures AllIndices(r)
  {
    Filter(names, IsArrayIndex)
  }

  /**
   * The keys of the grouped object in the order `Object.entries` lists them:
   * the array-index line names ascending, then the other line names in the
   * order the items first name them.
   */
  function EntryOrder(items: seq<Item>): seq<Text> {
    SortIndices(IndexKeys(LineNames(items))) + Filter(LineNames(items), IsNamedKey)
  }

  /**
   * `Object.entries` lists the line names and nothing else, as many as there
   * are distinct lines: the array indices first and ascending, then the other
   * names in the order the items first name them.
   */
  lemma EntryOrderKeys(items: seq<Item>)
    ensures |EntryOrder(items)| == |LineNames(items)|
    ensures forall n :: n in EntryOrder(items) <==> n in LineNames(items)
    ensures forall n :: n in EntryOrder(items) <==> exists i :: 0 <= i < |items| && LineOf(items[i]) == n
    ensures var k := |IndexKeys(LineNames(items))|;
      && AllIndices(EntryOrder(items)[..k]) && Ascending(EntryOrder(items)[..k])
      && EntryOrder(items)[k..] == Filter(LineNames(items), IsNamedKey)
      && forall n :: n in EntryOrder(items)[k..] ==> !IsArrayIndex(n)
  {
    var names := LineNames(items);
    FilterPartition(names, IsArrayIndex, IsNamedKey);
    var indices := IndexKeys(names);
    var sorted := SortIndices(indices);
    assert |sorted| == |indices| by {
      assert |multiset(sorted)| == |multiset(indices)|;
    }
    forall n ensures n in sorted <==> n in indices {
      assert n in sorted <==> n in multiset(sorted);
      assert n in indices <==> n in multiset(indices);
    }
    var e := EntryOrder(items);
    assert e == sorted + Filter(names, IsNamedKey);
    assert e[..|indices|] == sorted;
  }

  /** Lines "2" then "1": the order names "2" first, but the segments print "1" first. */
  lemma NumericLinesAscend(a: Item, b: Item)
    requires a.preparationLine == "2" && b.preparationLine == "1"
    ensures LineNames([a, b]) == ["2", "1"]
    ensures EntryOrder([a, b]) == ["1", "2"]
  {
    TwoLineNames(a, b);
    assert IsArrayIndex("2") by { assert DigitsValue("2") == 2 by { assert "2"[..0] == []; } }
    assert IsArrayIndex("1") by { assert DigitsValue("1") == 1 by { assert "1"[..0] == []; } }
    DescendingIndices("2", "1");
  }

  /** Two items on different lines name both lines, first the first item's. */
  lemma TwoLineNames(a: Item, b: Item)
    requires LineOf(a) != LineOf(b)
    ensures LineNames([a, b]) == [LineOf(a), LineOf(b)]
  {
    var items := [a, b];
    assert items[..1] == [a];
    assert [a][..0] == [];
    assert LineNames([a]) == [LineOf(a)];
  }

  /** Two index keys added larger first come out smaller first, with no other keys. */
  lemma DescendingIndices(x: Text, y: Text)
    requires IsArrayIndex(x) && IsArrayIndex(y) && IndexValue(y) < IndexValue(x)
    ensures SortIndices(IndexKeys([x, y])) + Filter([x, y], IsNamedKey) == [y, x]
  {
    var names: seq<Text> := [x, y];
    var tail: seq<Text> := names[1..];
    assert tail == [y] && tail[1..] == [];
    assert Filter(tail[1..], IsArrayIndex) == [] && Filter(tail[1..], IsNamedKey) == [];
    assert Filter(tail, IsArrayIndex) == [y] && Filter(tail, IsNamedKey) == [];
    assert IndexKeys(names) == names;
    assert Filter(names, IsNamedKey) == [];
    assert names[..1] == [x] && [x][..0] == [];
    assert SortIndices([x]) == [x];
    assert SortIndices(names) == InsertIndex(y, [x]);
  }

  /**
   * The names `Object.prototype` already provides: `grouped[lineName]` is
   * then an inherited function or object, so the group is not created and
   * `push` is not a function.
   */
  const PrototypeNames: set<Text> := {
    "constructor", "__defineGetter__", "__defineSetter__", "hasOwnProperty",
    "__lookupGetter__", "__lookupSetter__", "isPrototypeOf", "propertyIsEnumerable",
    "toString", "valueOf", "__proto__", "toLocaleString"
  }

  predicate IsPrototypeName(name: Text) {
    name in PrototypeNames
  }

  /** Grouping throws a TypeError when some item names one of those lines. */
  predicate GroupingThrows(items: seq<Item>) {
    exists i :: 0 <= i < |items| && IsPrototypeName(LineOf(items[i]))
  }

  /** No item before `i + 1` names a prototype line when none before `i` does and item `i` does not. */
  lemma NoThrowStep(items: seq<Item>, i: nat)
    requires i < |items| && !GroupingThrows(items[..i]) && !IsPrototypeName(LineOf(items[i]))
    ensures !GroupingThrows(items[..i + 1])
  {
    var prefix := items[..i + 1];
    forall j | 0 <= j < |prefix| ensures !IsPrototypeName(LineOf(prefix[j])) {
      if j < i {
        assert prefix[j] == items[..i][j];
      }
    }
  }

  /** The items of one preparation line, in their order in the order. */
  function ItemsOn(items: seq<Item>, line: Text): (group: seq<Item>)
    ensures forall x :: x in group ==> x in items && LineOf(x) == line
    ensures |group| <= |items|
  {
    if items == [] then [] else
    var init := items[..|items| - 1];
    var last := items[|items| - 1];
    ItemsOn(init, line) + (if LineOf(last) == line then [last] else [])
  }

  /** A line no item names has no items. */
  lemma ItemsOnAbsent(items: seq<Item>, line: Text)
    requires line !in LineNames(items)
    ensures ItemsOn(items, line) == []
  {
  }

  /** `names` and `grouped` are the grouped object of `items`: its keys in order and its groups. */
  ghost predicate GroupedAs(items: seq<Item>, names: seq<Text>, grouped: map<Text, seq<Item>>) {
    && names == LineNames(items)
    && (forall k :: k in grouped <==> k in names)
    && (forall k :: k in grouped ==> grouped[k] == ItemsOn(items, k))
  }

  /** One more item adds its line to the key order when the line is new. */
  lemma LineNamesStep(items: seq<Item>, i: nat)
    requires i < |items|
    ensures LineNames(items[..i + 1])
      == if LineOf(items[i]) in LineNames(items[..i]) then LineNames(items[..i])
         else LineNames(items[..i]) + [LineOf(items[i])]
  {
    assert items[..i + 1][..i] == items[..i];
  }

  /** One more item joins the group of its own line and no other. */
  lemma ItemsOnStep(items: seq<Item>, i: nat, k: Text)
    requires i < |items|
    ensures ItemsOn(items[..i + 1], k) == ItemsOn(items[..i], k) + (if LineOf(items[i]) == k then [items[i]] else [])
  {
    assert items[..i + 1][..i] == items[..i];
  }

  /** One more item: its line becomes a key if new, and the item joins that line's group only. */
  lemma GroupedStep(items: seq<Item>, i: nat, names: seq<Text>, grouped: map<Text, seq<Item>>)
    requires i < |items| && GroupedAs(items[..i], names, grouped)
    ensures var line := LineOf(items[i]);
      GroupedAs(items[..i + 1],
                if line in grouped then names else names + [line],
                grouped[line := (if line in grouped then grouped[line] else []) + [items[i]]])
  {
    var line := LineOf(items[i]);
    var names' := if line in grouped then names else names + [line];
    var grouped' := grouped[line := (if line in grouped then grouped[line] else []) + [items[i]]];
    LineNamesStep(items, i);
    assert names' == LineNames(items[..i + 1]);
    assert forall k :: k in grouped' <==> k in names' by {
      forall k ensures k in grouped' <==> k in names' {
        assert k in grouped' <==> k in grouped || k == line;
        assert k in names' <==> k in names || k == line;
      }
    }
    forall k | k in grouped' ensures grouped'[k] == ItemsOn(items[..i + 1], k) {
      GroupStep(items, i, names, grouped, k);
    }
    GroupedAsIntro(items[..i + 1], names', grouped');
  }

  lemma GroupedAsIntro(items: seq<Item>, names: seq<Text>, grouped: map<Text, seq<Item>>)
    requires names == LineNames(items)
    requires forall k :: k in grouped <==> k in names
    requires forall k :: k in grouped ==> grouped[k] == ItemsOn(items, k)
    ensures GroupedAs(items, names, grouped)
  {
  }

  /** One group after one more item: the item's own line gains it, every other group is unchanged. */
  lemma GroupStep(items: seq<Item>, i: nat, names: seq<Text>, grouped: map<Text, seq<Item>>, k: Text)
    requires i < |items| && GroupedAs(items[..i], names, grouped)
    requires k in grouped || k == LineOf(items[i])
    ensures var line := LineOf(items[i]);
      grouped[line := (if line in grouped then grouped[line] else []) + [items[i]]][k] == ItemsOn(items[..i + 1], k)
  {
    var line := LineOf(items[i]);
    ItemsOnStep(items, i, k);
    if k == line && line !in grouped {
      ItemsOnAbsent(items[..i], line);
    }
  }

  /** `keys` and `grouped` are the grouped object of `items`: its keys in `Object.entries` order and its groups. */
  ghost predicate GroupedObject(items: seq<Item>, keys: seq<Text>, grouped: map<Text, seq<Item>>) {
    && keys == EntryOrder(items)
    && (forall k :: k in grouped <==> k in LineNames(items))
    && (forall k :: k in grouped ==> grouped[k] == ItemsOn(items, k))
  }

  /** The key order after one more key: an index joins the index keys at its place, any other key goes last. */
  lemma KeyOrderStep(seen: seq<Text>, line: Text)
    ensures SortIndices(IndexKeys(seen + [line]))
      == if IsArrayIndex(line) then InsertIndex(line, SortIndices(IndexKeys(seen))) else SortIndices(IndexKeys(seen))
    ensures Filter(seen + [line], IsNamedKey)
      == if IsArrayIndex(line) then Filter(seen, IsNamedKey) else Filter(seen, IsNamedKey) + [line]
  {
    IndexKeysStep(seen, line);
    NamedKeysStep(seen, line);
    if IsArrayIndex(line) {
      var s := IndexKeys(seen) + [line];
      assert s[..|s| - 1] == IndexKeys(seen);
    }
  }

  lemma IndexKeysStep(seen: seq<Text>, line: Text)
    ensures IndexKeys(seen + [line]) == if IsArrayIndex(line) then IndexKeys(seen) + [line] else IndexKeys(seen)
  {
    FilterAppend(seen, [line], IsArrayIndex);
    assert [line][1..] == [];
    assert Filter([line], IsArrayIndex) == if IsArrayIndex(line) then [line] else [];
  }

  lemma NamedKeysStep(seen: seq<Text>, line: Text)
    ensures Filter(seen + [line], IsNamedKey) == if IsArrayIndex(line) then Filter(seen, IsNamedKey) else Filter(seen, IsNamedKey) + [line]
  {
    FilterAppend(seen, [line], IsNamedKey);
    assert [line][1..] == [];
    assert Filter([line], IsNamedKey) == if IsArrayIndex(line) then [] else [line];
  }

  /** The object's state after `i` items: first-seen lines, groups, and the two key lists. */
  ghost predicate ObjectAfter(items: seq<Item>, i: nat, seen: seq<Text>, grouped: map<Text, seq<Item>>,
                              indexKeys: seq<Text>, namedKeys: seq<Text>)
    requires i <= |items|
  {
    && !GroupingThrows(items[..i])
    && GroupedAs(items[..i], seen, grouped)
    && indexKeys == SortIndices(IndexKeys(seen)) && namedKeys == Filter(seen, IsNamedKey)
  }

  /** One more item on a line already seen joins that line's group; the keys stay. */
  lemma SeenLineStep(items: seq<Item>, i: nat, seen: seq<Text>, grouped: map<Text, seq<Item>>,
                     indexKeys: seq<Text>, namedKeys: seq<Text>)
    requires i < |items| && ObjectAfter(items, i, seen, grouped, indexKeys, namedKeys)
    requires LineOf(items[i]) in grouped && !IsPrototypeName(LineOf(items[i]))
    ensures ObjectAfter(items, i + 1, seen, grouped[LineOf(items[i]) := grouped[LineOf(items[i])] + [items[i]]], indexKeys, namedKeys)
  {
    GroupedStep(items, i, seen, grouped);
    NoThrowStep(items, i);
  }

  /** One more item on a new line: the line becomes a key in its place, with the item as its group. */
  lemma NewLineStep(items: seq<Item>, i: nat, seen: seq<Text>, grouped: map<Text, seq<Item>>,
                    indexKeys: seq<Text>, namedKeys: seq<Text>)
    requires i < |items| && ObjectAfter(items, i, seen, grouped, indexKeys, namedKeys)
    requires LineOf(items[i]) !in grouped && !IsPrototypeName(LineOf(items[i]))
    ensures var line := LineOf(items[i]);
      ObjectAfter(items, i + 1, seen + [line], grouped[line := [items[i]]],
        if IsArrayIndex(line) then InsertIndex(line, indexKeys) else indexKeys,
        if IsArrayIndex(line) then namedKeys else namedKeys + [line])
  {
    var line := LineOf(items[i]);
    GroupedStep(items, i, seen, grouped);
    assert [] + [items[i]] == [items[i]];
    KeyOrderStep(seen, line);
    NoThrowStep(items, i);
  }

  /** After the last item the two key lists are the entries order. */
  lemma ObjectDone(items: seq<Item>, seen: seq<Text>, grouped: map<Text, seq<Item>>,
                   indexKeys: seq<Text>, namedKeys: seq<Text>)
    requires ObjectAfter(items, |items|, seen, grouped, indexKeys, namedKeys)
    ensures GroupedObject(items, indexKeys + namedKeys, grouped) && !GroupingThrows(items)
  {
    assert items[..|items|] == items;
  }

  /**
   * `groupItemsByPreparationLine`: fills the object item by item. The object
   * keeps its index keys ascending and its other keys in the order they were
   * added; a line named like an `Object.prototype` member throws.
   */
  method GroupItemsByPreparationLine(items: seq<Item>) returns (grouping: Option<(seq<Text>, map<Text, seq<Item>>)>)
    ensures grouping.None? <==> GroupingThrows(items)
    ensures grouping.Some? ==> GroupedObject(items, grouping.value.0, grouping.value.1)
  {
    var indexKeys: seq<Text> := [];
    var namedKeys: seq<Text> := [];
    ghost var seen: seq<Text> := [];
    var grouped: map<Text, seq<Item>> := map[];
    var i := 0;
    while i < |items|
      invariant 0 <= i <= |items|
      invariant ObjectAfter(items, i, seen, grouped, indexKeys, namedKeys)
    {
      var item := items[i];
      var lineName := LineOf(item);
      if IsPrototypeName(lineName) {
        assert GroupingThrows(items) by { assert LineOf(items[i]) == lineName; }
        return None;
      }
      if lineName in grouped {
        SeenLineStep(items, i, seen, grouped, indexKeys, namedKeys);
        grouped := grouped[lineName := grouped[lineName] + [item]];
      } else {
        NewLineStep(items, i, seen, grouped, indexKeys, namedKeys);
        if IsArrayIndex(lineName) {
          indexKeys := InsertIndex(lineName, indexKeys);
        } else {
          namedKeys := namedKeys + [lineName];
        }
        seen := seen + [lineName];
        grouped := grouped[lineName := [item]];
      }
      i := i + 1;
    }
    ObjectDone(items, seen, grouped, indexKeys, namedKeys);
    grouping := Some((indexKeys + namedKeys, grouped));
  }

  /** The sizes of the groups of `names`, added up. */
  function GroupSizes(items: seq<Item>, names: seq<Text>): nat {
    if names == [] then 0 else |ItemsOn(items, names[0])| + GroupSizes(items, names[1..])
  }

  /** One more item grows exactly the group of its own line, when that line is among `names`. */
  lemma {:induction false} GroupSizesStep(init: seq<Item>, x: Item, names: seq<Text>)
    requires forall i, j :: 0 <= i < j < |names| ==> names[i] != names[j]
    ensures GroupSizes(init + [x], names) == GroupSizes(init, names) + (if LineOf(x) in names then 1 else 0)
  {
    if names != [] {
      var items := init + [x];
      assert items[..|items| - 1] == init;
      assert |ItemsOn(items, names[0])| == |ItemsOn(init, names[0])| + (if LineOf(x) == names[0] then 1 else 0);
      GroupSizesStep(init, x, names[1..]);
      assert LineOf(x) in names <==> LineOf(x) == names[0] || LineOf(x) in names[1..];
      assert LineOf(x) == names[0] ==> LineOf(x) !in names[1..];
    }
  }

  lemma {:induction false} GroupSizesAppend(items: seq<Item>, names: seq<Text>, line: Text)
    ensures GroupSizes(items, names + [line]) == GroupSizes(items, names) + |ItemsOn(items, line)|
  {
    if names != [] {
      assert (names + [line])[1..] == names[1..] + [line];
      GroupSizesAppend(items, names[1..], line);
    } else {
      assert [line][1..] == [];
    }
  }

  /**
   * The groups partition the items: every item lies in the group of its own
   * line, a group holds only items of its line, and the group sizes add up to
   * the number of items, so no item is dropped or repeated.
   */
  lemma {:induction false} GroupsPartition(items: seq<Item>)
    ensures GroupSizes(items, LineNames(items)) == |items|
    ensures forall i :: 0 <= i < |items| ==> items[i] in ItemsOn(items, LineOf(items[i]))
    decreases |items|
  {
    if items != [] {
      var init := items[..|items| - 1];
      var x := items[|items| - 1];
      assert items == init + [x];
      GroupsPartition(init);
      var names := LineNames(init);
      GroupSizesStep(init, x, names);
      if LineOf(x) !in names {
        GroupSizesAppend(items, names, LineOf(x));
        ItemsOnAbsent(init, LineOf(x));
      }
      forall i | 0 <= i < |items| ensures items[i] in ItemsOn(items, LineOf(items[i])) {
        if i < |items| - 1 {
          assert items[i] == init[i];
          assert ItemsOn(items, LineOf(items[i])) == ItemsOn(init, LineOf(items[i])) + (if LineOf(x) == LineOf(items[i]) then [x] else []);
        }
      }
    }
  }

  // ---------------------------------------------------------------------
  // Receipt sections.

  /** `createOrderInfo`: the three information lines and an empty line. */
  function StationOrderInfo(now: Text, order: Order): Bytes {
    Lines(InfoLines(now, order)) + LF
  }

  /** `createOrderSummaryHeader`: centred bold "RIEPILOGO ORDINE", then two feeds. */
  function SummaryHeader(): Bytes {
    BoldBanner("RIEPILOGO ORDINE")
  }

  function BoldBanner(t: Text): Bytes {
    ALIGN_CENTER + BOLD_ON + TextToBytes(t) + BOLD_OFF + ALIGN_LEFT + LF + LF
  }

  /** `${item.quantity}x ${item.name}` of a line segment (this one reads `quantity` only). */
  function SegmentLine(item: Item): Text {
    IntText(item.quantity) + "x " + item.name
  }

  function SegmentLines(items: seq<Item>): (lines: seq<Text>)
    ensures |lines| == |items| && forall i :: 0 <= i < |items| ==> lines[i] == SegmentLine(items[i])
  {
    seq(|items|, i requires 0 <= i < |items| => SegmentLine(items[i]))
  }

  /** The title of a line segment: centred, bold, double size, the upper-cased line name. */
  function SegmentTitle(lineName: Text): Bytes {
    ALIGN_CENTER + BOLD_ON + DOUBLE_SIZE + TextToBytes(Upper(lineName)) + NORMAL + BOLD_OFF + ALIGN_LEFT + LF + LF
  }

  /** Five feeds and a full cut close a line segment. */
  const SegmentEnd: Bytes := LF + LF + LF + LF + LF + CUT_FULL

  /** `createLineCut(lineName, items)`. */
  function LineCut(lineName: Text, items: seq<Item>): Bytes {
    SegmentTitle(lineName) + Lines(SegmentLines(items)) + SegmentEnd
  }

  /** `createLineCut`: pushes the title, one line per item, then the closing feeds and cut. */
  method CreateLineCut(lineName: Text, items: seq<Item>) returns (commands: Bytes)
    ensures commands == LineCut(lineName, items)
  {
    var itemLines: Bytes := [];
    var i := 0;
    while i < |items|
      invariant 0 <= i <= |items|
      invariant itemLines == Lines(SegmentLines(items[..i]))
    {
      itemLines := itemLines + TextToBytes(SegmentLine(items[i])) + LF;
      SegmentLinesStep(items, i);
      i := i + 1;
    }
    assert items[..|items|] == items;
    commands := SegmentTitle(lineName) + itemLines + SegmentEnd;
  }

  lemma SegmentLinesStep(items: seq<Item>, i: nat)
    requires i < |items|
    ensures Lines(SegmentLines(items[..i + 1])) == Lines(SegmentLines(items[..i])) + TextToBytes(SegmentLine(items[i])) + LF
  {
    var after := SegmentLines(items[..i + 1]);
    LinesPrint(after);
    assert after[..|after| - 1] == SegmentLines(items[..i]);
  }

  lemma SegmentTitleDecode(lineName: Text)
    ensures Decode(SegmentTitle(lineName))
      == [Align(1), Emphasis(1), PrintMode(0x30)] + TextCmds(Upper(lineName))
         + [PrintMode(0), Emphasis(0), Align(0), Feed, Feed]
    ensures Clean(SegmentTitle(lineName)) && FullCuts(SegmentTitle(lineName)) == 0
  {
    var t := TextToBytes(Upper(lineName));
    ControlConstantsDecode();
    AlignConstantsDecode();
    ModeConstantsDecode();
    FaceConstantsDecode();
    TextDecode(Upper(lineName));
    var x1 := ALIGN_CENTER + BOLD_ON + DOUBLE_SIZE;
    CleanAppend3(ALIGN_CENTER, BOLD_ON, DOUBLE_SIZE);
    var x2 := x1 + t + NORMAL;
    CleanAppend3(x1, t, NORMAL);
    var x3 := x2 + BOLD_OFF + ALIGN_LEFT;
    CleanAppend3(x2, BOLD_OFF, ALIGN_LEFT);
    CleanAppend3(x3, LF, LF);
    TitleRegroup(TextCmds(Upper(lineName)));
  }

  lemma TitleRegroup(name: seq<Cmd>)
    ensures [Align(1)] + [Emphasis(1)] + [PrintMode(0x30)] + name + [PrintMode(0)] + [Emphasis(0)] + [Align(0)] + [Feed] + [Feed]
         == [Align(1), Emphasis(1), PrintMode(0x30)] + name + [PrintMode(0), Emphasis(0), Align(0), Feed, Feed]
  {
  }

  lemma SegmentEndDecode()
    ensures Decode(SegmentEnd) == [Feed, Feed, Feed, Feed, Feed, Cut(0)]
    ensures Clean(SegmentEnd) && FullCuts(SegmentEnd) == 1
  {
    LfDecode();
    CutFullDecode();
    CleanAppend6(LF, LF, LF, LF, LF, CUT_FULL);
    FiveThenOne(Decode(SegmentEnd), Feed, Cut(0));
  }

  lemma FiveThenOne<T>(d: seq<T>, x: T, y: T)
    requires d == [x] + [x] + [x] + [x] + [x] + [y]
    ensures d == [x, x, x, x, x, y]
  {
  }

  /**
   * A line segment: the upper-cased line name centred in bold double size,
   * one "{quantity}x {name}" line per item given, five feeds, and exactly
   * one full cut.
   */
  lemma LineCutLayout(lineName: Text, items: seq<Item>)
    ensures Decode(LineCut(lineName, items))
      == [Align(1), Emphasis(1), PrintMode(0x30)] + TextCmds(Upper(lineName))
         + [PrintMode(0), Emphasis(0), Align(0), Feed, Feed]
         + TextCmds(Joined(SegmentLines(items)))
         + [Feed, Feed, Feed, Feed, Feed, Cut(0)]
    ensures Clean(LineCut(lineName, items)) && FullCuts(LineCut(lineName, items)) == 1
  {
    SegmentTitleDecode(lineName);
    SegmentEndDecode();
    TextDecode(Joined(SegmentLines(items)));
    CleanAppend3(SegmentTitle(lineName), Lines(SegmentLines(items)), SegmentEnd);
  }

  // ---------------------------------------------------------------------
  // The whole receipt.

  /** `createOrderInfo`: the three information lines and one blank line. */
  method CreateOrderInfo(now: Text, order: Order) returns (commands: Bytes)
    ensures commands == StationOrderInfo(now, order)
  {
    commands := PushLines(InfoLines(now, order));
    commands := commands + LF;
  }

  /** Everything `generateReceiptCommands` pushes before the line segments. */
  function StationMain(config: ReceiptConfig, euros: int -> Text, now: Text, order: Order): Bytes {
    INIT + ReceiptHeader(config) + StationOrderInfo(now, order) + SummaryHeader()
    + ItemsList(config, euros, order.items) + TotalBlock(config, euros, order.total) + ReceiptFooter(config, 5)
  }

  /** The line segments of `names`, in order, each listing that line's items. */
  function LineCuts(items: seq<Item>, names: seq<Text>): Bytes {
    if names == [] then []
    else LineCuts(items, names[..|names| - 1]) + LineCut(names[|names| - 1], ItemsOn(items, names[|names| - 1]))
  }

  /** Line segments are printed when line cuts are on and the order has items. */
  predicate WantsLineCuts(order: Order, useLineCuts: bool) {
    useLineCuts && |order.items| > 0
  }

  /** `generateReceiptCommands(orderData, useLineCuts)`: None when grouping the items throws. */
  function StationReceiptBytes(config: ReceiptConfig, euros: int -> Text, now: Text, order: Order, useLineCuts: bool): Option<Bytes> {
    if WantsLineCuts(order, useLineCuts) && GroupingThrows(order.items) then None
    else Some(StationMain(config, euros, now, order)
      + (if WantsLineCuts(order, useLineCuts) then LineCuts(order.items, EntryOrder(order.items)) else []))
  }

  /** The `Object.entries(lineItems).forEach` loop: one segment per key, in the object's key order. */
  method PushLineCuts(items: seq<Item>) returns (segments: Option<Bytes>)
    ensures segments.None? <==> GroupingThrows(items)
    ensures segments.Some? ==> segments.value == LineCuts(items, EntryOrder(items))
  {
    var grouping := GroupItemsByPreparationLine(items);
    if grouping.None? {
      return None;
    }
    var (names, grouped) := grouping.value;
    var pushed: Bytes := [];
    var j := 0;
    while j < |names|
      invariant 0 <= j <= |names|
      invariant pushed == LineCuts(items, names[..j])
    {
      KeyHasGroup(items, names, grouped, j);
      var segment := CreateLineCut(names[j], grouped[names[j]]);
      pushed := pushed + segment;
      LineCutsStep(items, names, j);
      j := j + 1;
    }
    assert names[..|names|] == names;
    segments := Some(pushed);
  }

  /** Every key the object lists has its group, the items of that line. */
  lemma KeyHasGroup(items: seq<Item>, keys: seq<Text>, grouped: map<Text, seq<Item>>, j: nat)
    requires GroupedObject(items, keys, grouped) && j < |keys|
    ensures keys[j] in grouped && grouped[keys[j]] == ItemsOn(items, keys[j])
  {
    EntryOrderKeys(items);
    assert keys[j] in EntryOrder(items);
    var i :| 0 <= i < |items| && LineOf(items[i]) == keys[j];
    assert keys[j] in LineNames(items);
  }

  lemma LineCutsStep(items: seq<Item>, names: seq<Text>, j: nat)
    requires j < |names|
    ensures LineCuts(items, names[..j + 1]) == LineCuts(items, names[..j]) + LineCut(names[j], ItemsOn(items, names[j]))
  {
    assert names[..j + 1][..j] == names[..j];
  }

  /** The sections `generateReceiptCommands` pushes before the line segments. */
  method PushMainSections(config: ReceiptConfig, euros: int -> Text, now: Text, order: Order) returns (commands: Bytes)
    ensures commands == StationMain(config, euros, now, order)
  {
    var info := CreateOrderInfo(now, order);
    var itemsList := CreateItemsList(config, euros, order.items);
    commands := INIT + ReceiptHeader(config) + info + SummaryHeader()
      + itemsList + TotalBlock(config, euros, order.total) + ReceiptFooter(config, 5);
  }

  /** `generateReceiptCommands`: the sections in order, then the line segments when asked for. */
  method GenerateReceiptCommands(config: ReceiptConfig, euros: int -> Text, now: Text, order: Order, useLineCuts: bool)
    returns (commands: Option<Bytes>)
    ensures commands == StationReceiptBytes(config, euros, now, order, useLineCuts)
  {
    var main := PushMainSections(config, euros, now, order);
    var segments: Bytes := [];
    if useLineCuts && |order.items| > 0 {
      var pushed := PushLineCuts(order.items);
      if pushed.None? {
        return None;
      }
      segments := pushed.value;
    }
    commands := Some(main + segments);
  }

  /** The segments of distinct names are clean and cut once each. */
  lemma {:induction false} LineCutsCuts(items: seq<Item>, names: seq<Text>)
    ensures Clean(LineCuts(items, names)) && FullCuts(LineCuts(items, names)) == |names|
    decreases |names|
  {
    if names == [] {
      assert Decode([]) == [];
    } else {
      var last := names[|names| - 1];
      LineCutsCuts(items, names[..|names| - 1]);
      LineCutLayout(last, ItemsOn(items, last));
      CleanJoin(LineCuts(items, names[..|names| - 1]), LineCut(last, ItemsOn(items, last)));
    }
  }

  lemma OrderInfoClean(now: Text, order: Order)
    ensures Clean(StationOrderInfo(now, order)) && FullCuts(StationOrderInfo(now, order)) == 0
  {
    LinesPrint(InfoLines(now, order));
    ControlConstantsDecode();
    CleanJoin(Lines(InfoLines(now, order)), LF);
  }

  lemma BoldBannerClean(t: Text)
    ensures Clean(BoldBanner(t)) && FullCuts(BoldBanner(t)) == 0
  {
    var b := TextToBytes(t);
    assert Clean(b) && FullCuts(b) == 0 by { TextDecode(t); }
    assert Clean(ALIGN_CENTER) && FullCuts(ALIGN_CENTER) == 0 && Clean(ALIGN_LEFT) && FullCuts(ALIGN_LEFT) == 0 by {
      AlignConstantsDecode();
    }
    assert Clean(BOLD_ON) && FullCuts(BOLD_ON) == 0 && Clean(BOLD_OFF) && FullCuts(BOLD_OFF) == 0 by {
      FaceConstantsDecode();
    }
    assert Clean(LF) && FullCuts(LF) == 0 by { ControlConstantsDecode(); }
    CleanJoin6(ALIGN_CENTER, BOLD_ON, b, BOLD_OFF, ALIGN_LEFT, LF);
    CleanJoin(ALIGN_CENTER + BOLD_ON + b + BOLD_OFF + ALIGN_LEFT + LF, LF);
  }

  lemma StationHeadClean(config: ReceiptConfig)
    ensures Clean(INIT) && FullCuts(INIT) == 0
    ensures Clean(ReceiptHeader(config)) && FullCuts(ReceiptHeader(config)) == 0
  {
    ControlConstantsDecode();
    ReceiptHeaderClean(config);
  }

  lemma StationInfoClean(now: Text, order: Order)
    ensures Clean(StationOrderInfo(now, order)) && FullCuts(StationOrderInfo(now, order)) == 0
    ensures Clean(SummaryHeader()) && FullCuts(SummaryHeader()) == 0
  {
    OrderInfoClean(now, order);
    BoldBannerClean("RIEPILOGO ORDINE");
  }

  lemma StationBackClean(config: ReceiptConfig, euros: int -> Text, order: Order)
    ensures Clean(ItemsList(config, euros, order.items)) && FullCuts(ItemsList(config, euros, order.items)) == 0
    ensures Clean(TotalBlock(config, euros, order.total)) && FullCuts(TotalBlock(config, euros, order.total)) == 0
    ensures Clean(ReceiptFooter(config, 5)) && FullCuts(ReceiptFooter(config, 5)) == 1
  {
    LinesPrint(ItemsListLines(config, euros, order.items));
    TotalBlockDecode(config, euros, order.total);
    ReceiptFooterLayout(config, 5);
  }

  /** The sections before the segments are clean and end in the footer's single full cut. */
  lemma StationMainCuts(config: ReceiptConfig, euros: int -> Text, now: Text, order: Order)
    ensures Clean(StationMain(config, euros, now, order)) && FullCuts(StationMain(config, euros, now, order)) == 1
  {
    StationHeadClean(config);
    StationInfoClean(now, order);
    StationBackClean(config, euros, order);
    SevenPieces(INIT, ReceiptHeader(config), StationOrderInfo(now, order), SummaryHeader(),
      ItemsList(config, euros, order.items), TotalBlock(config, euros, order.total), ReceiptFooter(config, 5));
  }

  lemma SevenPieces(a: Bytes, b: Bytes, c: Bytes, d: Bytes, e: Bytes, f: Bytes, g: Bytes)
    requires Clean(a) && Clean(b) && Clean(c) && Clean(d) && Clean(e) && Clean(f) && Clean(g)
    requires FullCuts(a) == FullCuts(b) == FullCuts(c) == FullCuts(d) == FullCuts(e) == FullCuts(f) == 0
    ensures Clean(a + b + c + d + e + f + g) && FullCuts(a + b + c + d + e + f + g) == FullCuts(g)
  {
    CleanJoin6(a, b, c, d, e, f);
    CleanJoin(a + b + c + d + e + f, g);
  }

  /**
   * The receipt fails only when line cuts are wanted and an item's line is
   * named like an `Object.prototype` member. Otherwise it performs one full
   * cut for the footer and, with line cuts on and at least one item, one
   * more per distinct preparation line.
   */
  lemma StationReceiptCuts(config: ReceiptConfig, euros: int -> Text, now: Text, order: Order, useLineCuts: bool)
    ensures var r := StationReceiptBytes(config, euros, now, order, useLineCuts);
      && (r.None? <==> WantsLineCuts(order, useLineCuts) && GroupingThrows(order.items))
      && (r.Some? ==> Clean(r.value) && FullCuts(r.value) == (if WantsLineCuts(order, useLineCuts) then 1 + |LineNames(order.items)| else 1))
  {
    StationReceiptDefined(config, euros, now, order, useLineCuts);
    if !(WantsLineCuts(order, useLineCuts) && GroupingThrows(order.items)) {
      StationReceiptCounted(config, euros, now, order, useLineCuts);
    }
  }

  lemma StationReceiptDefined(config: ReceiptConfig, euros: int -> Text, now: Text, order: Order, useLineCuts: bool)
    ensures StationReceiptBytes(config, euros, now, order, useLineCuts).None?
      <==> WantsLineCuts(order, useLineCuts) && GroupingThrows(order.items)
  {
  }

  lemma StationReceiptCounted(config: ReceiptConfig, euros: int -> Text, now: Text, order: Order, useLineCuts: bool)
    requires !(WantsLineCuts(order, useLineCuts) && GroupingThrows(order.items))
    ensures var r := StationReceiptBytes(config, euros, now, order, useLineCuts).value;
      Clean(r) && FullCuts(r) == (if WantsLineCuts(order, useLineCuts) then 1 + |LineNames(order.items)| else 1)
  {
    StationMainCuts(config, euros, now, order);
    if WantsLineCuts(order, useLineCuts) {
      SegmentsCut(order.items);
      MainThen(StationReceiptBytes(config, euros, now, order, useLineCuts).value,
        StationMain(config, euros, now, order), LineCuts(order.items, EntryOrder(order.items)));
    } else {
      assert Decode([]) == [];
      MainThen(StationReceiptBytes(config, euros, now, order, useLineCuts).value, StationMain(config, euros, now, order), []);
    }
  }

  /** A clean receipt followed by clean segments is clean, and the cuts add up. */
  lemma MainThen(r: Bytes, main: Bytes, rest: Bytes)
    requires r == main + rest && Clean(main) && Clean(rest)
    ensures Clean(r) && FullCuts(r) == FullCuts(main) + FullCuts(rest)
  {
    CleanJoin(main, rest);
  }

  /** The segments in key order cut once per distinct line. */
  lemma SegmentsCut(items: seq<Item>)
    ensures Clean(LineCuts(items, EntryOrder(items)))
    ensures FullCuts(LineCuts(items, EntryOrder(items))) == |LineNames(items)|
  {
    LineCutsCuts(items, EntryOrder(items));
    EntryOrderKeys(items);
  }

  /** Every receipt starts by initialising the printer (ESC @). */
  lemma StationReceiptStartsWithInit(config: ReceiptConfig, euros: int -> Text, now: Text, order: Order, useLineCuts: bool)
    ensures var r := StationReceiptBytes(config, euros, now, order, useLineCuts);
      r.Some? ==> r.value[..2] == INIT
  {
    var rest := (if WantsLineCuts(order, useLineCuts) then LineCuts(order.items, EntryOrder(order.items)) else []);
    StartsWithInit7(ReceiptHeader(config), StationOrderInfo(now, order), SummaryHeader(),
      ItemsList(config, euros, order.items), TotalBlock(config, euros, order.total), ReceiptFooter(config, 5), rest);
  }
}
