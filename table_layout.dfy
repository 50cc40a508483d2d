/**
 * What the table schema registers, element by element: the rules that land
 * on the table, on each column and column group, on their print-when
 * expressions and on every cell and row slot, and the namespace every one of
 * them is stamped with.
 */
module TableLayout {

  import opened Wrappers
  import opened CommonsDigester
  import opened ComponentsConfigurer
  import opened ConfigurerProperties

  // ---------------------------------------------------------------------
  // Well-formed slot tables
  // ---------------------------------------------------------------------

  /** Every slot is one element step below its owner. */
  predicate StepPaths(slots: seq<Slot>)
  {
    forall i :: 0 <= i < |slots| ==> Step(slots[i].path)
  }

  /** No two slots share an element name. */
  predicate DistinctPaths(slots: seq<Slot>)
  {
    forall i, j :: 0 <= i < j < |slots| ==> slots[i].path != slots[j].path
  }

  /** No slot is the element `b`. */
  predicate Avoids(slots: seq<Slot>, b: string)
  {
    forall i :: 0 <= i < |slots| ==> slots[i].path != b
  }

  /** The slots of a column-like owner: distinct steps, none of them its print-when expression. */
  predicate ValidSlots(slots: seq<Slot>)
  {
    StepPaths(slots) && DistinctPaths(slots) && Avoids(slots, "/printWhenExpression")
  }

  /** The slots from `lo` on have the element names `paths`, each of them one step. */
  lemma StepsFrom(slots: seq<Slot>, lo: nat, paths: seq<string>)
    requires lo + |paths| <= |slots|
    requires forall i :: 0 <= i < |paths| ==> slots[lo + i].path == paths[i] && Step(paths[i])
    ensures forall i :: lo <= i < lo + |paths| ==> Step(slots[i].path)
  {
    forall i | lo <= i < lo + |paths|
      ensures Step(slots[i].path)
    {
      assert slots[lo + (i - lo)].path == paths[i - lo];
    }
  }

  lemma ColumnSlotsSteps()
    ensures StepPaths(ColumnSlots)
  {
    StepsFrom(ColumnSlots, 0, ["/tableHeader", "/tableFooter", "/groupHeader", "/groupFooter"]);
    StepsFrom(ColumnSlots, 4, ["/columnHeader", "/columnFooter", "/detailCell"]);
  }

  lemma ColumnSlotsValid()
    ensures ValidSlots(ColumnSlots)
  {
    ColumnSlotsSteps();
    assert DistinctPaths(ColumnSlots);
    assert Avoids(ColumnSlots, "/printWhenExpression");
  }

  lemma ColumnGroupSlotsSteps()
    ensures StepPaths(ColumnGroupSlots)
  {
    StepsFrom(ColumnGroupSlots, 0, ["/tableHeader", "/tableFooter", "/groupHeader"]);
    StepsFrom(ColumnGroupSlots, 3, ["/groupFooter", "/columnHeader", "/columnFooter"]);
  }

  lemma ColumnGroupSlotsValid()
    ensures ValidSlots(ColumnGroupSlots)
  {
    ColumnGroupSlotsSteps();
    assert DistinctPaths(ColumnGroupSlots);
    assert Avoids(ColumnGroupSlots, "/printWhenExpression");
  }

  lemma TableSlotsSteps()
    ensures StepPaths(TableSlots)
  {
    StepsFrom(TableSlots, 0, ["/tableHeader", "/tableFooter", "/groupHeader", "/groupFooter"]);
    StepsFrom(TableSlots, 4, ["/columnHeader", "/columnFooter", "/detail", "/noData"]);
  }

  lemma TableSlotsDistinct()
    ensures DistinctPaths(TableSlots)
  {
  }

  lemma TableSlotsValid()
    ensures ValidSlots(TableSlots)
  {
    TableSlotsSteps();
    TableSlotsDistinct();
    assert Avoids(TableSlots, "/printWhenExpression");
  }

  // ---------------------------------------------------------------------
  // One slot, then a list of slots
  // ---------------------------------------------------------------------

  lemma CellWithin(cls: string, p: string, m: string, ns: Option<string>)
    ensures AllWithin(CellRules(cls, p, m, ns), p)
  {
    AllWithinSame(CellRules(cls, p, m, ns), p, p);
  }

  lemma GroupCellWithin(p: string, m: string, ns: Option<string>)
    ensures AllWithin(GroupCellRules(p, m, ns), p)
  {
    var head := GroupHead(p, StandardGroupCellClass, ns);
    var tail := GroupTail(p, m, ns);
    var q := p + "/cell";
    var cell := CellRules(DesignCellClass, q, "setCell", ns);
    WithinExtension(p, "/cell");
    AllWithinSame(head, p, p);
    AllWithinSame(cell, p, q);
    AllWithinSame(tail, p, p);
    AllWithinAppend(head, cell, p);
    AllWithinAppend(head + cell, tail, p);
  }

  lemma RowWithin(p: string, m: string, ns: Option<string>)
    ensures AllWithin(RowRules(p, m, ns), p)
  {
    var q := p + "/printWhenExpression";
    WithinExtension(p, "/printWhenExpression");
    AllWithinSame(RowOwnRules(p, m, ns), p, p);
    AllWithinSame(PrintWhenRules(p), p, q);
    AllWithinAppend(RowOwnRules(p, m, ns), PrintWhenRules(p), p);
  }

  lemma GroupRowWithin(p: string, m: string, ns: Option<string>)
    ensures AllWithin(GroupRowRules(p, m, ns), p)
  {
    var head := GroupHead(p, StandardGroupRowClass, ns);
    var tail := GroupTail(p, m, ns);
    var q := p + "/row";
    var row := RowRules(q, "setRow", ns);
    WithinExtension(p, "/row");
    RowWithin(q, "setRow", ns);
    forall x | x in row
      ensures Within(p, x.pattern)
    {
      WithinChild(p, "/row", x.pattern);
    }
    AllWithinSame(head, p, p);
    AllWithinSame(tail, p, p);
    AllWithinAppend(head, row, p);
    AllWithinAppend(head + row, tail, p);
  }

  /** A slot's rules all sit on the slot's element or below it. */
  lemma SlotWithin(o: string, s: Slot, ns: Option<string>)
    ensures AllWithin(SlotRules(o, s, ns), SlotPattern(o, s))
  {
    var p := SlotPattern(o, s);
    match s.kind
    case BaseCell => CellWithin(DesignBaseCellClass, p, s.setter, ns);
    case Cell => CellWithin(DesignCellClass, p, s.setter, ns);
    case GroupCell => GroupCellWithin(p, s.setter, ns);
    case Row => RowWithin(p, s.setter, ns);
    case GroupRow => GroupRowWithin(p, s.setter, ns);
  }

  /** On its own element a slot gets exactly its own rules, in order. */
  lemma SlotOwn(o: string, s: Slot, ns: Option<string>)
    ensures RulesFor(SlotRules(o, s, ns), SlotPattern(o, s)) == SlotOwnRules(o, s, ns)
  {
    var p := SlotPattern(o, s);
    match s.kind
    case BaseCell => RulesForSame(SlotRules(o, s, ns), p);
    case Cell => RulesForSame(SlotRules(o, s, ns), p);
    case GroupCell => GroupCellLayout(p, s.setter, ns);
    case Row => RowLayout(p, s.setter, ns);
    case GroupRow => GroupRowLayout(p, s.setter, ns);
  }

  /** The rules of slots that are one step each sit below their owner. */
  lemma {:induction false} SlotsWithin(o: string, slots: seq<Slot>, ns: Option<string>)
    requires StepPaths(slots)
    ensures AllWithin(SlotsRules(o, slots, ns), o)
  {
    if slots != [] {
      var s := slots[0];
      assert Step(s.path);
      SlotWithin(o, s, ns);
      forall x | x in SlotRules(o, s, ns)
        ensures Within(o, x.pattern)
      {
        WithinChild(o, s.path, x.pattern);
      }
      assert StepPaths(slots[1..]) by {
        forall i | 0 <= i < |slots[1..]| ensures Step(slots[1..][i].path) {
          assert slots[1..][i] == slots[i + 1];
        }
      }
      SlotsWithin(o, slots[1..], ns);
    }
  }

  /** A pattern outside every slot gets nothing from the slots. */
  lemma {:induction false} SlotsAbsent(o: string, slots: seq<Slot>, t: string, ns: Option<string>)
    requires forall j :: 0 <= j < |slots| ==> !Within(SlotPattern(o, slots[j]), t)
    ensures RulesFor(SlotsRules(o, slots, ns), t) == []
  {
    if slots != [] {
      SlotWithin(o, slots[0], ns);
      RulesForOutside(SlotRules(o, slots[0], ns), SlotPattern(o, slots[0]), t);
      assert forall j :: 0 <= j < |slots[1..]| ==> slots[1..][j] == slots[j + 1];
      SlotsAbsent(o, slots[1..], t, ns);
      RulesForAppend(SlotRules(o, slots[0], ns), SlotsRules(o, slots[1..], ns), t);
    }
  }

  /** In a well-formed slot list each slot's element gets exactly that slot's own rules. */
  lemma {:induction false} SlotsOwn(o: string, slots: seq<Slot>, i: nat, ns: Option<string>)
    requires StepPaths(slots) && DistinctPaths(slots)
    requires i < |slots|
    ensures RulesFor(SlotsRules(o, slots, ns), SlotPattern(o, slots[i])) == SlotOwnRules(o, slots[i], ns)
  {
    var t := SlotPattern(o, slots[i]);
    var rest := slots[1..];
    RulesForAppend(SlotRules(o, slots[0], ns), SlotsRules(o, rest, ns), t);
    if i == 0 {
      SlotOwn(o, slots[0], ns);
      LaterSlotsAbsent(o, slots, ns);
    } else {
      EarlierSlotAbsent(o, slots, i, ns);
      assert rest[i - 1] == slots[i];
      assert StepPaths(rest) && DistinctPaths(rest);
      SlotsOwn(o, rest, i - 1, ns);
    }
  }

  /**
   * On a slot's element or anywhere below it, a well-formed slot list
   * registers exactly what that one slot registers there.
   */
  lemma {:induction false} SlotsAt(o: string, slots: seq<Slot>, i: nat, q: string, ns: Option<string>)
    requires StepPaths(slots) && DistinctPaths(slots)
    requires i < |slots| && Within(SlotPattern(o, slots[i]), q)
    ensures RulesFor(SlotsRules(o, slots, ns), q) == RulesFor(SlotRules(o, slots[i], ns), q)
  {
    var rest := slots[1..];
    RulesForAppend(SlotRules(o, slots[0], ns), SlotsRules(o, rest, ns), q);
    if i == 0 {
      forall j | 0 <= j < |rest|
        ensures !Within(SlotPattern(o, rest[j]), q)
      {
        assert rest[j] == slots[j + 1];
        SiblingsDisjoint(o, slots[0].path, slots[j + 1].path, q);
      }
      SlotsAbsent(o, rest, q, ns);
    } else {
      SiblingsDisjoint(o, slots[0].path, slots[i].path, q);
      SlotWithin(o, slots[0], ns);
      RulesForOutside(SlotRules(o, slots[0], ns), SlotPattern(o, slots[0]), q);
      assert rest[i - 1] == slots[i];
      assert StepPaths(rest) && DistinctPaths(rest);
      SlotsAt(o, rest, i - 1, q, ns);
    }
  }

  /** The slots after the first register nothing on the first slot's element. */
  lemma LaterSlotsAbsent(o: string, slots: seq<Slot>, ns: Option<string>)
    requires StepPaths(slots) && DistinctPaths(slots)
    requires slots != []
    ensures RulesFor(SlotsRules(o, slots[1..], ns), SlotPattern(o, slots[0])) == []
  {
    var rest := slots[1..];
    forall j | 0 <= j < |rest|
      ensures !Within(SlotPattern(o, rest[j]), SlotPattern(o, slots[0]))
    {
      assert rest[j] == slots[j + 1];
      ChildrenDisjoint(o, slots[j + 1].path, slots[0].path);
    }
    SlotsAbsent(o, rest, SlotPattern(o, slots[0]), ns);
  }

  /** The first slot registers nothing on a later slot's element. */
  lemma EarlierSlotAbsent(o: string, slots: seq<Slot>, i: nat, ns: Option<string>)
    requires StepPaths(slots) && DistinctPaths(slots)
    requires 0 < i < |slots|
    ensures RulesFor(SlotRules(o, slots[0], ns), SlotPattern(o, slots[i])) == []
  {
    ChildrenDisjoint(o, slots[0].path, slots[i].path);
    SlotWithin(o, slots[0], ns);
    RulesForOutside(SlotRules(o, slots[0], ns), SlotPattern(o, slots[0]), SlotPattern(o, slots[i]));
  }

  // ---------------------------------------------------------------------
  // Columns and column groups
  // ---------------------------------------------------------------------

  /** A column's slot patterns are neither the column itself nor its print-when expression. */
  lemma SlotPatternsAround(o: string, slots: seq<Slot>, i: nat)
    requires ValidSlots(slots) && i < |slots|
    ensures SlotPattern(o, slots[i]) != o
    ensures SlotPattern(o, slots[i]) != o + "/printWhenExpression"
    ensures !Within(SlotPattern(o, slots[i]), o)
    ensures !Within(SlotPattern(o, slots[i]), o + "/printWhenExpression")
  {
    assert Step(slots[i].path);
    assert Step("/printWhenExpression");
    ChildrenDisjoint(o, slots[i].path, "/printWhenExpression");
    assert (o + slots[i].path)[|o|..] == slots[i].path;
    assert (o + "/printWhenExpression")[|o|..] == "/printWhenExpression";
  }

  /** The rules of a column or column group all sit on it or below it. */
  lemma ColumnWithin(o: string, cls: string, slots: seq<Slot>, ns: Option<string>)
    requires StepPaths(slots)
    ensures AllWithin(ColumnRules(o, cls, slots, ns), o)
  {
    WithinExtension(o, "/printWhenExpression");
    AllWithinSame(ColumnOwnRules(o, cls, ns), o, o);
    AllWithinSame(PrintWhenRules(o), o, o + "/printWhenExpression");
    SlotsWithin(o, slots, ns);
    AllWithinAppend(ColumnOwnRules(o, cls, ns), PrintWhenRules(o), o);
    AllWithinAppend(ColumnOwnRules(o, cls, ns) + PrintWhenRules(o), SlotsRules(o, slots, ns), o);
  }

  /** The rules a column block registers for `t`, section by section. */
  lemma ColumnSplit(o: string, cls: string, slots: seq<Slot>, ns: Option<string>, t: string)
    ensures RulesFor(ColumnRules(o, cls, slots, ns), t)
            == RulesFor(ColumnOwnRules(o, cls, ns), t) + RulesFor(PrintWhenRules(o), t)
               + RulesFor(SlotsRules(o, slots, ns), t)
  {
    RulesForAppend(ColumnOwnRules(o, cls, ns) + PrintWhenRules(o), SlotsRules(o, slots, ns), t);
    RulesForAppend(ColumnOwnRules(o, cls, ns), PrintWhenRules(o), t);
  }

  /** A column or column group: its own four rules on its element, its print-when expression below it. */
  lemma ColumnHeadLayout(o: string, cls: string, slots: seq<Slot>, ns: Option<string>)
    requires ValidSlots(slots)
    ensures RulesFor(ColumnRules(o, cls, slots, ns), o) == ColumnOwnRules(o, cls, ns)
    ensures RulesFor(ColumnRules(o, cls, slots, ns), o + "/printWhenExpression") == PrintWhenRules(o)
  {
    var own, pw := ColumnOwnRules(o, cls, ns), PrintWhenRules(o);
    var q := o + "/printWhenExpression";
    forall j | 0 <= j < |slots|
      ensures !Within(SlotPattern(o, slots[j]), o) && !Within(SlotPattern(o, slots[j]), q)
    {
      SlotPatternsAround(o, slots, j);
    }
    ColumnSplit(o, cls, slots, ns, o);
    RulesForSame(own, o);
    RulesForNone(pw, o);
    SlotsAbsent(o, slots, o, ns);
    ColumnSplit(o, cls, slots, ns, q);
    RulesForNone(own, q);
    RulesForSame(pw, q);
    SlotsAbsent(o, slots, q, ns);
  }

  /** On the element of its slot `i` a column block registers exactly that slot's own rules. */
  lemma ColumnSlotLayout(o: string, cls: string, slots: seq<Slot>, i: nat, ns: Option<string>)
    requires ValidSlots(slots) && i < |slots|
    ensures RulesFor(ColumnRules(o, cls, slots, ns), SlotPattern(o, slots[i])) == SlotOwnRules(o, slots[i], ns)
  {
    var t := SlotPattern(o, slots[i]);
    SlotPatternsAround(o, slots, i);
    ColumnSplit(o, cls, slots, ns, t);
    RulesForNone(ColumnOwnRules(o, cls, ns), t);
    RulesForNone(PrintWhenRules(o), t);
    SlotsOwn(o, slots, i, ns);
  }

  /** On or below the element of its slot `i` a column block registers exactly what that slot registers there. */
  lemma ColumnSlotAt(o: string, cls: string, slots: seq<Slot>, i: nat, q: string, ns: Option<string>)
    requires ValidSlots(slots) && i < |slots|
    requires Within(SlotPattern(o, slots[i]), q)
    ensures RulesFor(ColumnRules(o, cls, slots, ns), q) == RulesFor(SlotRules(o, slots[i], ns), q)
  {
    var pw := o + "/printWhenExpression";
    WithinPrefix(SlotPattern(o, slots[i]), q);
    assert Step(slots[i].path) && Step("/printWhenExpression");
    assert Within(pw, pw);
    SiblingsDisjoint(o, slots[i].path, "/printWhenExpression", q);
    ColumnSplit(o, cls, slots, ns, q);
    RulesForNone(ColumnOwnRules(o, cls, ns), q);
    RulesForNone(PrintWhenRules(o), q);
    SlotsAt(o, slots, i, q, ns);
  }

  /**
   * A column or column group: its own four rules on its element, the
   * JasperReports-namespace print-when expression below it, and on every
   * slot's element exactly that slot's own rules.
   */
  lemma ColumnLayout(o: string, cls: string, slots: seq<Slot>, ns: Option<string>)
    requires ValidSlots(slots)
    ensures RulesFor(ColumnRules(o, cls, slots, ns), o) == ColumnOwnRules(o, cls, ns)
    ensures RulesFor(ColumnRules(o, cls, slots, ns), o + "/printWhenExpression") == PrintWhenRules(o)
    ensures forall i :: 0 <= i < |slots| ==>
              RulesFor(ColumnRules(o, cls, slots, ns), SlotPattern(o, slots[i])) == SlotOwnRules(o, slots[i], ns)
  {
    ColumnHeadLayout(o, cls, slots, ns);
    forall i | 0 <= i < |slots|
      ensures RulesFor(ColumnRules(o, cls, slots, ns), SlotPattern(o, slots[i])) == SlotOwnRules(o, slots[i], ns)
    {
      ColumnSlotLayout(o, cls, slots, i, ns);
    }
  }

  /** An element step that is no slot of the column gets no rules from it. */
  lemma ColumnAbsent(o: string, cls: string, slots: seq<Slot>, b: string, ns: Option<string>)
    requires ValidSlots(slots) && Step(b) && b != "/printWhenExpression" && Avoids(slots, b)
    ensures RulesFor(ColumnRules(o, cls, slots, ns), o + b) == []
  {
    var t := o + b;
    assert t[|o|..] == b && (o + "/printWhenExpression")[|o|..] == "/printWhenExpression";
    forall j | 0 <= j < |slots|
      ensures !Within(SlotPattern(o, slots[j]), t)
    {
      ChildrenDisjoint(o, slots[j].path, b);
    }
    ColumnSplit(o, cls, slots, ns, t);
    RulesForNone(ColumnOwnRules(o, cls, ns), t);
    RulesForNone(PrintWhenRules(o), t);
    SlotsAbsent(o, slots, t, ns);
  }

  // ---------------------------------------------------------------------
  // The whole table
  // ---------------------------------------------------------------------

  /** The rules the table schema registers for `p`, section by section. */
  lemma TableSplit(ns: Option<string>, p: string)
    ensures RulesFor(TableRules(ns), p)
            == RulesFor([Rule(TablePattern, ns, FactoryCreate(StandardTableFactoryClass))], p)
               + RulesFor(ColumnRules(ColumnPattern, StandardColumnClass, ColumnSlots, ns), p)
               + RulesFor(ColumnRules(ColumnGroupPattern, StandardColumnGroupClass, ColumnGroupSlots, ns), p)
               + RulesFor(SlotsRules(TablePattern, TableSlots, ns), p)
  {
    var f := [Rule(TablePattern, ns, FactoryCreate(StandardTableFactoryClass))];
    var c1 := ColumnRules(ColumnPattern, StandardColumnClass, ColumnSlots, ns);
    var c2 := ColumnRules(ColumnGroupPattern, StandardColumnGroupClass, ColumnGroupSlots, ns);
    var rows := SlotsRules(TablePattern, TableSlots, ns);
    RulesForAppend(f + c1 + c2, rows, p);
    RulesForAppend(f + c1, c2, p);
    RulesForAppend(f, c1, p);
  }

  /** Outside the table element proper the factory rule registers nothing. */
  lemma FactoryOutside(ns: Option<string>, p: string)
    requires p != TablePattern
    ensures RulesFor([Rule(TablePattern, ns, FactoryCreate(StandardTableFactoryClass))], p) == []
  {
    RulesForNone([Rule(TablePattern, ns, FactoryCreate(StandardTableFactoryClass))], p);
  }

  /** Outside the column pattern the column block registers nothing. */
  lemma ColumnOutside(ns: Option<string>, p: string)
    requires !Within(ColumnPattern, p)
    ensures RulesFor(ColumnRules(ColumnPattern, StandardColumnClass, ColumnSlots, ns), p) == []
  {
    ColumnSlotsSteps();
    ColumnWithin(ColumnPattern, StandardColumnClass, ColumnSlots, ns);
    RulesForOutside(ColumnRules(ColumnPattern, StandardColumnClass, ColumnSlots, ns), ColumnPattern, p);
  }

  /** Outside the column-group pattern the column-group block registers nothing. */
  lemma ColumnGroupOutside(ns: Option<string>, p: string)
    requires !Within(ColumnGroupPattern, p)
    ensures RulesFor(ColumnRules(ColumnGroupPattern, StandardColumnGroupClass, ColumnGroupSlots, ns), p) == []
  {
    ColumnGroupSlotsSteps();
    ColumnWithin(ColumnGroupPattern, StandardColumnGroupClass, ColumnGroupSlots, ns);
    RulesForOutside(ColumnRules(ColumnGroupPattern, StandardColumnGroupClass, ColumnGroupSlots, ns),
                    ColumnGroupPattern, p);
  }

  /** Outside the table pattern the table's row and no-data slots register nothing. */
  lemma RowsOutside(ns: Option<string>, p: string)
    requires !Within(TablePattern, p)
    ensures RulesFor(SlotsRules(TablePattern, TableSlots, ns), p) == []
  {
    TableSlotsSteps();
    SlotsWithin(TablePattern, TableSlots, ns);
    RulesForOutside(SlotsRules(TablePattern, TableSlots, ns), TablePattern, p);
  }

  /** Within the column pattern the table registers exactly what the column block registers. */
  lemma TableColumnPart(ns: Option<string>, p: string)
    requires Within(ColumnPattern, p)
    ensures RulesFor(TableRules(ns), p) == RulesFor(ColumnRules(ColumnPattern, StandardColumnClass, ColumnSlots, ns), p)
  {
    RootsDisjoint(ColumnPattern, TablePattern, 4, p);
    RootsDisjoint(ColumnGroupPattern, ColumnPattern, 8, p);
    assert p != TablePattern by { assert Within(TablePattern, TablePattern); }
    TableSplit(ns, p);
    FactoryOutside(ns, p);
    ColumnGroupOutside(ns, p);
    RowsOutside(ns, p);
  }

  /** Within the column-group pattern the table registers exactly what the column-group block registers. */
  lemma TableColumnGroupPart(ns: Option<string>, p: string)
    requires Within(ColumnGroupPattern, p)
    ensures RulesFor(TableRules(ns), p)
            == RulesFor(ColumnRules(ColumnGroupPattern, StandardColumnGroupClass, ColumnGroupSlots, ns), p)
  {
    RootsDisjoint(ColumnGroupPattern, TablePattern, 4, p);
    RootsDisjoint(ColumnGroupPattern, ColumnPattern, 8, p);
    assert p != TablePattern by { assert Within(TablePattern, TablePattern); }
    TableSplit(ns, p);
    FactoryOutside(ns, p);
    ColumnOutside(ns, p);
    RowsOutside(ns, p);
  }

  /** Strictly below the table element the table registers exactly what its slots register. */
  lemma TableRowsPart(ns: Option<string>, p: string)
    requires Within(TablePattern, p) && p != TablePattern
    ensures RulesFor(TableRules(ns), p) == RulesFor(SlotsRules(TablePattern, TableSlots, ns), p)
  {
    RootsDisjoint(ColumnPattern, TablePattern, 4, p);
    RootsDisjoint(ColumnGroupPattern, TablePattern, 4, p);
    TableSplit(ns, p);
    FactoryOutside(ns, p);
    ColumnOutside(ns, p);
    ColumnGroupOutside(ns, p);
  }

  /**
   * What the table registers for a column: on the column pattern its four
   * own rules, and its print-when expression in the JasperReports namespace.
   */
  lemma TableColumnHead(ns: Option<string>)
    ensures RulesFor(TableRules(ns), ColumnPattern) == ColumnOwnRules(ColumnPattern, StandardColumnClass, ns)
    ensures RulesFor(TableRules(ns), ColumnPattern + "/printWhenExpression") == PrintWhenRules(ColumnPattern)
  {
    ColumnSlotsValid();
    ColumnHeadLayout(ColumnPattern, StandardColumnClass, ColumnSlots, ns);
    assert Within(ColumnPattern, ColumnPattern);
    TableColumnPart(ns, ColumnPattern);
    WithinExtension(ColumnPattern, "/printWhenExpression");
    TableColumnPart(ns, ColumnPattern + "/printWhenExpression");
  }

  /** On each of a column's seven cell slots the table registers that slot's own rules. */
  lemma TableColumnSlots(ns: Option<string>)
    ensures forall i :: 0 <= i < |ColumnSlots| ==>
              RulesFor(TableRules(ns), SlotPattern(ColumnPattern, ColumnSlots[i]))
              == SlotOwnRules(ColumnPattern, ColumnSlots[i], ns)
  {
    forall i | 0 <= i < |ColumnSlots|
      ensures RulesFor(TableRules(ns), SlotPattern(ColumnPattern, ColumnSlots[i]))
              == SlotOwnRules(ColumnPattern, ColumnSlots[i], ns)
    {
      TableColumnSlot(ns, i);
    }
  }

  /** On the element of column slot `i` the table registers that slot's own rules. */
  lemma TableColumnSlot(ns: Option<string>, i: nat)
    requires i < |ColumnSlots|
    ensures RulesFor(TableRules(ns), SlotPattern(ColumnPattern, ColumnSlots[i]))
            == SlotOwnRules(ColumnPattern, ColumnSlots[i], ns)
  {
    ColumnSlotsValid();
    ColumnSlotLayout(ColumnPattern, StandardColumnClass, ColumnSlots, i, ns);
    assert Step(ColumnSlots[i].path);
    WithinExtension(ColumnPattern, ColumnSlots[i].path);
    TableColumnPart(ns, SlotPattern(ColumnPattern, ColumnSlots[i]));
  }

  /** A column's detail cell is a plain cell attached with setDetailCell. */
  lemma TableColumnDetail(ns: Option<string>)
    ensures RulesFor(TableRules(ns), ColumnPattern + "/detailCell")
            == CellRules(DesignCellClass, ColumnPattern + "/detailCell", "setDetailCell", ns)
  {
    var s := ColumnSlots[6];
    assert s == Slot("/detailCell", "setDetailCell", Cell);
    TableColumnSlot(ns, 6);
  }

  /** What the table registers for a column group: the same own rules and print-when expression as a column. */
  lemma TableColumnGroupHead(ns: Option<string>)
    ensures RulesFor(TableRules(ns), ColumnGroupPattern)
            == ColumnOwnRules(ColumnGroupPattern, StandardColumnGroupClass, ns)
    ensures RulesFor(TableRules(ns), ColumnGroupPattern + "/printWhenExpression")
            == PrintWhenRules(ColumnGroupPattern)
  {
    ColumnGroupSlotsValid();
    ColumnHeadLayout(ColumnGroupPattern, StandardColumnGroupClass, ColumnGroupSlots, ns);
    assert Within(ColumnGroupPattern, ColumnGroupPattern);
    TableColumnGroupPart(ns, ColumnGroupPattern);
    WithinExtension(ColumnGroupPattern, "/printWhenExpression");
    TableColumnGroupPart(ns, ColumnGroupPattern + "/printWhenExpression");
  }

  /** On each of a column group's six cell slots the table registers that slot's own rules. */
  lemma TableColumnGroupSlots(ns: Option<string>)
    ensures forall i :: 0 <= i < |ColumnGroupSlots| ==>
              RulesFor(TableRules(ns), SlotPattern(ColumnGroupPattern, ColumnGroupSlots[i]))
              == SlotOwnRules(ColumnGroupPattern, ColumnGroupSlots[i], ns)
  {
    ColumnGroupSlotsValid();
    forall i | 0 <= i < |ColumnGroupSlots|
      ensures RulesFor(TableRules(ns), SlotPattern(ColumnGroupPattern, ColumnGroupSlots[i]))
              == SlotOwnRules(ColumnGroupPattern, ColumnGroupSlots[i], ns)
    {
      ColumnSlotLayout(ColumnGroupPattern, StandardColumnGroupClass, ColumnGroupSlots, i, ns);
      assert Step(ColumnGroupSlots[i].path);
      WithinExtension(ColumnGroupPattern, ColumnGroupSlots[i].path);
      TableColumnGroupPart(ns, SlotPattern(ColumnGroupPattern, ColumnGroupSlots[i]));
    }
  }

  /** A column group has no detail cell: nothing is registered below it under that name. */
  lemma TableColumnGroupNoDetail(ns: Option<string>)
    ensures RulesFor(TableRules(ns), ColumnGroupPattern + "/detailCell") == []
  {
    ColumnGroupSlotsValid();
    assert Step("/detailCell");
    assert Avoids(ColumnGroupSlots, "/detailCell");
    ColumnAbsent(ColumnGroupPattern, StandardColumnGroupClass, ColumnGroupSlots, "/detailCell", ns);
    WithinExtension(ColumnGroupPattern, "/detailCell");
    TableColumnGroupPart(ns, ColumnGroupPattern + "/detailCell");
  }

  /** The table's slots register nothing on the table element itself. */
  lemma RowsOffTable(ns: Option<string>)
    ensures RulesFor(SlotsRules(TablePattern, TableSlots, ns), TablePattern) == []
  {
    TableSlotsValid();
    forall j | 0 <= j < |TableSlots|
      ensures !Within(SlotPattern(TablePattern, TableSlots[j]), TablePattern)
    {
      SlotPatternsAround(TablePattern, TableSlots, j);
    }
    SlotsAbsent(TablePattern, TableSlots, TablePattern, ns);
  }

  /** The column and column-group patterns do not reach the table element. */
  lemma ColumnsOffTable()
    ensures !Within(ColumnPattern, TablePattern) && !Within(ColumnGroupPattern, TablePattern)
  {
    assert Within(TablePattern, TablePattern);
    RootsDisjoint(ColumnPattern, TablePattern, 4, TablePattern);
    RootsDisjoint(ColumnGroupPattern, TablePattern, 4, TablePattern);
  }

  /** Of the table's sections only the factory registers on the table element itself. */
  lemma SectionsOffTable(ns: Option<string>)
    ensures RulesFor(ColumnRules(ColumnPattern, StandardColumnClass, ColumnSlots, ns), TablePattern) == []
    ensures RulesFor(ColumnRules(ColumnGroupPattern, StandardColumnGroupClass, ColumnGroupSlots, ns), TablePattern)
            == []
    ensures RulesFor(SlotsRules(TablePattern, TableSlots, ns), TablePattern) == []
  {
    ColumnsOffTable();
    ColumnOutside(ns, TablePattern);
    ColumnGroupOutside(ns, TablePattern);
    RowsOffTable(ns);
  }

  /** On the table element itself the table registers its factory alone. */
  lemma TableHead(ns: Option<string>)
    ensures RulesFor(TableRules(ns), TablePattern) == [Rule(TablePattern, ns, FactoryCreate(StandardTableFactoryClass))]
  {
    var f := [Rule(TablePattern, ns, FactoryCreate(StandardTableFactoryClass))];
    TableSplit(ns, TablePattern);
    SectionsOffTable(ns);
    RulesForBlock(f, TablePattern, TablePattern);
  }

  /** On the element of table slot `i` the table registers that slot's own rules. */
  lemma TableRowSlot(ns: Option<string>, i: nat)
    requires i < |TableSlots|
    ensures RulesFor(TableRules(ns), SlotPattern(TablePattern, TableSlots[i]))
            == SlotOwnRules(TablePattern, TableSlots[i], ns)
  {
    TableSlotsValid();
    SlotPatternsAround(TablePattern, TableSlots, i);
    assert Step(TableSlots[i].path);
    WithinExtension(TablePattern, TableSlots[i].path);
    TableRowsPart(ns, SlotPattern(TablePattern, TableSlots[i]));
    SlotsOwn(TablePattern, TableSlots, i, ns);
  }

  /** On each row slot and on the no-data cell the table registers that slot's own rules. */
  lemma TableRowSlots(ns: Option<string>)
    ensures forall i :: 0 <= i < |TableSlots| ==>
              RulesFor(TableRules(ns), SlotPattern(TablePattern, TableSlots[i]))
              == SlotOwnRules(TablePattern, TableSlots[i], ns)
  {
    forall i | 0 <= i < |TableSlots|
      ensures RulesFor(TableRules(ns), SlotPattern(TablePattern, TableSlots[i]))
              == SlotOwnRules(TablePattern, TableSlots[i], ns)
    {
      TableRowSlot(ns, i);
    }
  }

  /** The no-data cell alone is built as a base cell, attached with setNoData. */
  lemma TableNoData(ns: Option<string>)
    ensures RulesFor(TableRules(ns), TablePattern + "/noData")
            == CellRules(DesignBaseCellClass, TablePattern + "/noData", "setNoData", ns)
  {
    TableRowSlot(ns, 7);
    assert TableSlots[7] == Slot("/noData", "setNoData", BaseCell);
  }

  /** Below a group-row slot: the row and its print-when expression, and where they lie. */
  lemma GroupRowBelow(o: string, s: Slot, ns: Option<string>)
    requires s.kind == GroupRow
    ensures var g := SlotPattern(o, s);
            Within(g, g + "/row") && Within(g, g + "/row" + "/printWhenExpression")
            && RulesFor(SlotRules(o, s, ns), g + "/row") == RowOwnRules(g + "/row", "setRow", ns)
            && RulesFor(SlotRules(o, s, ns), g + "/row" + "/printWhenExpression") == PrintWhenRules(g + "/row")
  {
    var g := SlotPattern(o, s);
    WithinExtension(g, "/row");
    WithinExtension(g, "/row/printWhenExpression");
    assert g + "/row" + "/printWhenExpression" == g + "/row/printWhenExpression";
    GroupRowLayout(g, s.setter, ns);
  }

  /** Below a row slot: its print-when expression, and where it lies. */
  lemma RowBelow(o: string, s: Slot, ns: Option<string>)
    requires s.kind == Row
    ensures var r := SlotPattern(o, s);
            Within(r, r + "/printWhenExpression")
            && RulesFor(SlotRules(o, s, ns), r + "/printWhenExpression") == PrintWhenRules(r)
  {
    var r := SlotPattern(o, s);
    WithinExtension(r, "/printWhenExpression");
    RowLayout(r, s.setter, ns);
  }

  /** Below a group-cell slot: the cell, and where it lies. */
  lemma GroupCellBelow(o: string, s: Slot, ns: Option<string>)
    requires s.kind == GroupCell
    ensures var g := SlotPattern(o, s);
            Within(g, g + "/cell")
            && RulesFor(SlotRules(o, s, ns), g + "/cell") == CellRules(DesignCellClass, g + "/cell", "setCell", ns)
  {
    var g := SlotPattern(o, s);
    WithinExtension(g, "/cell");
    GroupCellLayout(g, s.setter, ns);
  }

  /** On or below the element of table slot `i` the table registers what that slot registers there. */
  lemma TableRowSlotAt(ns: Option<string>, i: nat, q: string)
    requires i < |TableSlots| && Within(SlotPattern(TablePattern, TableSlots[i]), q)
    ensures RulesFor(TableRules(ns), q) == RulesFor(SlotRules(TablePattern, TableSlots[i], ns), q)
  {
    TableSlotsValid();
    assert Step(TableSlots[i].path);
    WithinChild(TablePattern, TableSlots[i].path, q);
    WithinPrefix(SlotPattern(TablePattern, TableSlots[i]), q);
    TableRowsPart(ns, q);
    SlotsAt(TablePattern, TableSlots, i, q, ns);
  }

  /** On or below the element of column slot `i` the table registers what that slot registers there. */
  lemma TableColumnSlotAt(ns: Option<string>, i: nat, q: string)
    requires i < |ColumnSlots| && Within(SlotPattern(ColumnPattern, ColumnSlots[i]), q)
    ensures RulesFor(TableRules(ns), q) == RulesFor(SlotRules(ColumnPattern, ColumnSlots[i], ns), q)
  {
    ColumnSlotsValid();
    assert Step(ColumnSlots[i].path);
    WithinChild(ColumnPattern, ColumnSlots[i].path, q);
    TableColumnPart(ns, q);
    ColumnSlotAt(ColumnPattern, StandardColumnClass, ColumnSlots, i, q, ns);
  }

  /** On or below the element of column-group slot `i` the table registers what that slot registers there. */
  lemma TableColumnGroupSlotAt(ns: Option<string>, i: nat, q: string)
    requires i < |ColumnGroupSlots| && Within(SlotPattern(ColumnGroupPattern, ColumnGroupSlots[i]), q)
    ensures RulesFor(TableRules(ns), q) == RulesFor(SlotRules(ColumnGroupPattern, ColumnGroupSlots[i], ns), q)
  {
    ColumnGroupSlotsValid();
    assert Step(ColumnGroupSlots[i].path);
    WithinChild(ColumnGroupPattern, ColumnGroupSlots[i].path, q);
    TableColumnGroupPart(ns, q);
    ColumnSlotAt(ColumnGroupPattern, StandardColumnGroupClass, ColumnGroupSlots, i, q, ns);
  }

  /** The row inside a table group header is a plain row attached with setRow, with its print-when expression. */
  lemma TableGroupHeaderRow(ns: Option<string>)
    ensures var r := TablePattern + "/groupHeader" + "/row";
            RulesFor(TableRules(ns), r) == RowOwnRules(r, "setRow", ns)
            && RulesFor(TableRules(ns), r + "/printWhenExpression") == PrintWhenRules(r)
  {
    var s := TableSlots[2];
    assert s == Slot("/groupHeader", "addGroupHeader", GroupRow);
    var g := SlotPattern(TablePattern, s);
    var r := g + "/row";
    GroupRowBelow(TablePattern, s, ns);
    TableRowSlotAt(ns, 2, r);
    TableRowSlotAt(ns, 2, r + "/printWhenExpression");
  }

  /** A table header row carries its print-when expression in the JasperReports namespace. */
  lemma TableHeaderPrintWhen(ns: Option<string>)
    ensures var h := TablePattern + "/tableHeader";
            RulesFor(TableRules(ns), h + "/printWhenExpression") == PrintWhenRules(h)
  {
    var s := TableSlots[0];
    assert s == Slot("/tableHeader", "setTableHeader", Row);
    RowBelow(TablePattern, s, ns);
    TableRowSlotAt(ns, 0, SlotPattern(TablePattern, s) + "/printWhenExpression");
  }

  /** The cell inside a column's group header is a design cell attached with setCell. */
  lemma ColumnGroupHeaderCell(ns: Option<string>)
    ensures var c := ColumnPattern + "/groupHeader" + "/cell";
            RulesFor(TableRules(ns), c) == CellRules(DesignCellClass, c, "setCell", ns)
  {
    var s := ColumnSlots[2];
    assert s == Slot("/groupHeader", "addGroupHeader", GroupCell);
    GroupCellBelow(ColumnPattern, s, ns);
    TableColumnSlotAt(ns, 2, SlotPattern(ColumnPattern, s) + "/cell");
  }
}
