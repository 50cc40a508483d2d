/**
 * The rule namespace every registered rule carries. The configurer registers
 * the list and table components in the namespace in force when it is called,
 * except their print-when expressions, which are always read in the
 * JasperReports namespace.
 */
module RuleNamespaces {

  import opened Wrappers
  import opened CommonsDigester
  import opened ComponentsConfigurer

  /**
   * Every rule of `rs` that builds or attaches an expression is stamped with
   * the JasperReports namespace, every other rule with `ns`.
   */
  predicate StampedAs(rs: seq<Rule>, ns: Option<string>)
  {
    forall x :: x in rs ==> x.ns == (if IsExpressionAction(x.action) then JRNamespace() else ns)
  }

  lemma StampedAppend(a: seq<Rule>, b: seq<Rule>, ns: Option<string>)
    requires StampedAs(a, ns) && StampedAs(b, ns)
    ensures StampedAs(a + b, ns)
  {
  }

  lemma PrintWhenStamps(o: string, ns: Option<string>)
    ensures StampedAs(PrintWhenRules(o), ns)
  {
  }

  lemma CellStamps(cls: string, p: string, m: string, ns: Option<string>)
    ensures StampedAs(CellRules(cls, p, m, ns), ns)
  {
  }

  lemma RowStamps(p: string, m: string, ns: Option<string>)
    ensures StampedAs(RowRules(p, m, ns), ns)
  {
    PrintWhenStamps(p, ns);
    StampedAppend(RowOwnRules(p, m, ns), PrintWhenRules(p), ns);
  }

  lemma GroupCellStamps(p: string, m: string, ns: Option<string>)
    ensures StampedAs(GroupCellRules(p, m, ns), ns)
  {
    var head := GroupHead(p, StandardGroupCellClass, ns);
    var cell := CellRules(DesignCellClass, p + "/cell", "setCell", ns);
    var tail := GroupTail(p, m, ns);
    assert StampedAs(head, ns) && StampedAs(tail, ns);
    CellStamps(DesignCellClass, p + "/cell", "setCell", ns);
    StampedAppend(head, cell, ns);
    StampedAppend(head + cell, tail, ns);
  }

  lemma GroupRowStamps(p: string, m: string, ns: Option<string>)
    ensures StampedAs(GroupRowRules(p, m, ns), ns)
  {
    var head := GroupHead(p, StandardGroupRowClass, ns);
    var row := RowRules(p + "/row", "setRow", ns);
    var tail := GroupTail(p, m, ns);
    assert StampedAs(head, ns) && StampedAs(tail, ns);
    RowStamps(p + "/row", "setRow", ns);
    StampedAppend(head, row, ns);
    StampedAppend(head + row, tail, ns);
  }

  /** Each slot block keeps its own rules in `ns` and its print-when expressions in the JasperReports namespace. */
  lemma SlotStamps(o: string, s: Slot, ns: Option<string>)
    ensures StampedAs(SlotRules(o, s, ns), ns)
  {
    var p := SlotPattern(o, s);
    match s.kind
    case BaseCell => CellStamps(DesignBaseCellClass, p, s.setter, ns);
    case Cell => CellStamps(DesignCellClass, p, s.setter, ns);
    case GroupCell => GroupCellStamps(p, s.setter, ns);
    case Row => RowStamps(p, s.setter, ns);
    case GroupRow => GroupRowStamps(p, s.setter, ns);
  }

  lemma {:induction false} SlotsStamps(o: string, slots: seq<Slot>, ns: Option<string>)
    ensures StampedAs(SlotsRules(o, slots, ns), ns)
  {
    if slots != [] {
      SlotStamps(o, slots[0], ns);
      SlotsStamps(o, slots[1..], ns);
      StampedAppend(SlotRules(o, slots[0], ns), SlotsRules(o, slots[1..], ns), ns);
    }
  }

  lemma ColumnStamps(o: string, cls: string, slots: seq<Slot>, ns: Option<string>)
    ensures StampedAs(ColumnRules(o, cls, slots, ns), ns)
  {
    assert StampedAs(ColumnOwnRules(o, cls, ns), ns);
    PrintWhenStamps(o, ns);
    SlotsStamps(o, slots, ns);
    StampedAppend(ColumnOwnRules(o, cls, ns), PrintWhenRules(o), ns);
    StampedAppend(ColumnOwnRules(o, cls, ns) + PrintWhenRules(o), SlotsRules(o, slots, ns), ns);
  }

  /** Every rule of the table schema carries `ns`, except the print-when expression rules. */
  lemma TableStamps(ns: Option<string>)
    ensures StampedAs(TableRules(ns), ns)
  {
    var f := [Rule(TablePattern, ns, FactoryCreate(StandardTableFactoryClass))];
    var c1 := ColumnRules(ColumnPattern, StandardColumnClass, ColumnSlots, ns);
    var c2 := ColumnRules(ColumnGroupPattern, StandardColumnGroupClass, ColumnGroupSlots, ns);
    var rows := SlotsRules(TablePattern, TableSlots, ns);
    assert StampedAs(f, ns);
    ColumnStamps(ColumnPattern, StandardColumnClass, ColumnSlots, ns);
    ColumnStamps(ColumnGroupPattern, StandardColumnGroupClass, ColumnGroupSlots, ns);
    SlotsStamps(TablePattern, TableSlots, ns);
    StampedAppend(f, c1, ns);
    StampedAppend(f + c1, c2, ns);
    StampedAppend(f + c1 + c2, rows, ns);
  }

  /** The list component has no expression: all its rules carry `ns`. */
  lemma ListStamps(ns: Option<string>)
    ensures StampedAs(ListRules(ns), ns)
  {
  }

  /**
   * What configureDigester registers (list and table) is all in the
   * namespace in force on entry, except the print-when expression rules,
   * which are in the JasperReports namespace.
   */
  lemma ConfigureStamps(ns: Option<string>)
    ensures StampedAs(ListRules(ns) + TableRules(ns), ns)
  {
    ListStamps(ns);
    TableStamps(ns);
    StampedAppend(ListRules(ns), TableRules(ns), ns);
  }
}
