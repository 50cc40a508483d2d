/**
 * What configureDigester registers as a whole: the list rules followed by
 * the table rules. The two schemas live under different elements, so for
 * every pattern the combined registration is the list's share or the
 * table's share, never a mixture, and the element-by-element results about
 * each carry over unchanged.
 */
module ConfigureLayout {

  import opened Wrappers
  import opened CommonsDigester
  import opened ComponentsConfigurer
  import opened ConfigurerProperties
  import opened TableLayout

  /** The list schema registers nothing outside the list element. */
  lemma ListWithin(ns: Option<string>)
    ensures AllWithin(ListRules(ns), ListPattern)
  {
    WithinExtension(ListPattern, "/listContents");
    assert Within(ListPattern, ListPattern);
  }

  /** The table schema registers nothing within the list element. */
  lemma TableOffList(ns: Option<string>, p: string)
    requires Within(ListPattern, p)
    ensures RulesFor(TableRules(ns), p) == []
  {
    RootsDisjoint(ListPattern, TablePattern, 19, p);
    RootsDisjoint(ListPattern, ColumnPattern, 4, p);
    RootsDisjoint(ListPattern, ColumnGroupPattern, 4, p);
    assert p != TablePattern by { assert Within(TablePattern, TablePattern); }
    TableSplit(ns, p);
    FactoryOutside(ns, p);
    ColumnOutside(ns, p);
    ColumnGroupOutside(ns, p);
    RowsOutside(ns, p);
  }

  /**
   * For each pattern, the rules configureDigester registers are the list's
   * when the pattern lies within the list element and the table's otherwise.
   */
  lemma ConfigureAt(ns: Option<string>, p: string)
    ensures Within(ListPattern, p) ==> RulesFor(ListRules(ns) + TableRules(ns), p) == RulesFor(ListRules(ns), p)
    ensures !Within(ListPattern, p) ==> RulesFor(ListRules(ns) + TableRules(ns), p) == RulesFor(TableRules(ns), p)
  {
    RulesForAppend(ListRules(ns), TableRules(ns), p);
    if Within(ListPattern, p) {
      TableOffList(ns, p);
    } else {
      ListWithin(ns);
      RulesForOutside(ListRules(ns), ListPattern, p);
    }
  }

  /** The table element and every table, column and column-group pattern lie outside the list element. */
  lemma TableOutsideList(p: string)
    requires Within(TablePattern, p) || Within(ColumnPattern, p) || Within(ColumnGroupPattern, p)
    ensures !Within(ListPattern, p)
  {
    RootsDisjoint(ListPattern, TablePattern, 19, p);
    RootsDisjoint(ListPattern, ColumnPattern, 4, p);
    RootsDisjoint(ListPattern, ColumnGroupPattern, 4, p);
  }

  /** Within the table or one of its columns configureDigester registers what the table schema registers. */
  lemma ConfigureTablePart(ns: Option<string>, p: string)
    requires Within(TablePattern, p) || Within(ColumnPattern, p) || Within(ColumnGroupPattern, p)
    ensures RulesFor(ListRules(ns) + TableRules(ns), p) == RulesFor(TableRules(ns), p)
  {
    TableOutsideList(p);
    ConfigureAt(ns, p);
  }

  /**
   * After configureDigester the list element and its contents carry the
   * list's rules, and the table element only its factory rule.
   */
  lemma ConfigureHeads(ns: Option<string>)
    ensures RulesFor(ListRules(ns) + TableRules(ns), ListPattern)
            == [Rule(ListPattern, ns, ObjectCreate(StandardListComponentClass)),
                Rule(ListPattern, ns, SetProperties(["printOrder"])),
                Rule(ListPattern, ns, XmlConstantProperty("printOrder", "printOrderValue", PrintOrderEnumClass))]
    ensures var q := ListPattern + "/listContents";
            RulesFor(ListRules(ns) + TableRules(ns), q)
            == [Rule(q, ns, ObjectCreate(DesignListContentsClass)), Rule(q, ns, SetProperties([])),
                Rule(q, ns, SetNext("setContents", None)), Rule(q, ns, DatasetRunReportContext(ListComponentClass))]
    ensures RulesFor(ListRules(ns) + TableRules(ns), TablePattern)
            == [Rule(TablePattern, ns, FactoryCreate(StandardTableFactoryClass))]
  {
    ListLayout(ns);
    assert Within(ListPattern, ListPattern);
    ConfigureAt(ns, ListPattern);
    WithinExtension(ListPattern, "/listContents");
    ConfigureAt(ns, ListPattern + "/listContents");
    assert Within(TablePattern, TablePattern);
    ConfigureTablePart(ns, TablePattern);
    TableHead(ns);
  }

  /** After configureDigester every table row slot's element carries that slot's own rules. */
  lemma ConfigureTableSlots(ns: Option<string>)
    ensures forall i :: 0 <= i < |TableSlots| ==>
              RulesFor(ListRules(ns) + TableRules(ns), SlotPattern(TablePattern, TableSlots[i]))
              == SlotOwnRules(TablePattern, TableSlots[i], ns)
  {
    forall i | 0 <= i < |TableSlots|
      ensures RulesFor(ListRules(ns) + TableRules(ns), SlotPattern(TablePattern, TableSlots[i]))
              == SlotOwnRules(TablePattern, TableSlots[i], ns)
    {
      var p := SlotPattern(TablePattern, TableSlots[i]);
      TableSlotsValid();
      assert Step(TableSlots[i].path);
      WithinExtension(TablePattern, TableSlots[i].path);
      ConfigureTablePart(ns, p);
      TableRowSlot(ns, i);
    }
  }

  /** After configureDigester every column slot's element carries that slot's own rules. */
  lemma ConfigureColumnSlots(ns: Option<string>)
    ensures forall i :: 0 <= i < |ColumnSlots| ==>
              RulesFor(ListRules(ns) + TableRules(ns), SlotPattern(ColumnPattern, ColumnSlots[i]))
              == SlotOwnRules(ColumnPattern, ColumnSlots[i], ns)
  {
    forall i | 0 <= i < |ColumnSlots|
      ensures RulesFor(ListRules(ns) + TableRules(ns), SlotPattern(ColumnPattern, ColumnSlots[i]))
              == SlotOwnRules(ColumnPattern, ColumnSlots[i], ns)
    {
      var p := SlotPattern(ColumnPattern, ColumnSlots[i]);
      ColumnSlotsValid();
      assert Step(ColumnSlots[i].path);
      WithinExtension(ColumnPattern, ColumnSlots[i].path);
      ConfigureTablePart(ns, p);
      TableColumnSlot(ns, i);
    }
  }

  /** After configureDigester the row of a table group header is a plain row attached with setRow. */
  lemma ConfigureGroupHeaderRow(ns: Option<string>)
    ensures var r := TablePattern + "/groupHeader" + "/row";
            RulesFor(ListRules(ns) + TableRules(ns), r) == RowOwnRules(r, "setRow", ns)
  {
    var r := TablePattern + "/groupHeader" + "/row";
    WithinExtension(TablePattern, "/groupHeader/row");
    assert r == TablePattern + "/groupHeader/row";
    ConfigureTablePart(ns, r);
    TableGroupHeaderRow(ns);
  }

  /** After configureDigester the table header row carries its print-when expression. */
  lemma ConfigureHeaderPrintWhen(ns: Option<string>)
    ensures var h := TablePattern + "/tableHeader";
            RulesFor(ListRules(ns) + TableRules(ns), h + "/printWhenExpression") == PrintWhenRules(h)
  {
    var h := TablePattern + "/tableHeader" + "/printWhenExpression";
    WithinExtension(TablePattern, "/tableHeader/printWhenExpression");
    assert h == TablePattern + "/tableHeader/printWhenExpression";
    ConfigureTablePart(ns, h);
    TableHeaderPrintWhen(ns);
  }

  /** After configureDigester the cell of a column's group header is a design cell attached with setCell. */
  lemma ConfigureGroupHeaderCell(ns: Option<string>)
    ensures var c := ColumnPattern + "/groupHeader" + "/cell";
            RulesFor(ListRules(ns) + TableRules(ns), c) == CellRules(DesignCellClass, c, "setCell", ns)
  {
    var c := ColumnPattern + "/groupHeader" + "/cell";
    WithinExtension(ColumnPattern, "/groupHeader/cell");
    assert c == ColumnPattern + "/groupHeader/cell";
    ConfigureTablePart(ns, c);
    ColumnGroupHeaderCell(ns);
  }
}
