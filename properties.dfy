/**
 * What the rule table built by the component configurer means: which rules
 * each element pattern receives, in which order, and under which rule
 * namespace. Stated about the specification functions that the configurer's
 * methods are proved to append.
 */
module ConfigurerProperties {

  import opened Wrappers
  import opened CommonsDigester
  import opened ComponentsConfigurer

  // ---------------------------------------------------------------------
  // One element at a time
  // ---------------------------------------------------------------------

  /**
   * The expression block registers all three of its rules on the expression
   * element, and none on any other pattern; every one carries `stamp`.
   */
  lemma ExpressionLayout(p: string, factory: string, setter: string, stamp: Option<string>, t: string)
    ensures RulesFor(ExpressionRules(p, factory, setter, stamp), t)
            == if t == p then ExpressionRules(p, factory, setter, stamp) else []
    ensures forall x :: x in ExpressionRules(p, factory, setter, stamp) ==> x.ns == stamp
  {
    RulesForBlock(ExpressionRules(p, factory, setter, stamp), p, t);
  }

  /**
   * A group cell: on its own element the object-create, the set-properties
   * without exclusions and, registered last of all, the set-next; the inner
   * cell block in between, on `pattern + "/cell"`, attached with `setCell`.
   */
  lemma GroupCellLayout(p: string, m: string, ns: Option<string>)
    ensures RulesFor(GroupCellRules(p, m, ns), p)
            == [Rule(p, ns, ObjectCreate(StandardGroupCellClass)), Rule(p, ns, SetProperties([])),
                Rule(p, ns, SetNext(m, None))]
    ensures RulesFor(GroupCellRules(p, m, ns), p + "/cell") == CellRules(DesignCellClass, p + "/cell", "setCell", ns)
    ensures var g := GroupCellRules(p, m, ns);
            |g| == 8 && g[2..7] == CellRules(DesignCellClass, p + "/cell", "setCell", ns)
            && g[7] == Rule(p, ns, SetNext(m, None))
  {
    var head := GroupHead(p, StandardGroupCellClass, ns);
    var tail := GroupTail(p, m, ns);
    var q := p + "/cell";
    var cell := CellRules(DesignCellClass, q, "setCell", ns);
    assert p != q by { assert |p| < |q|; }
    RulesForThreeBlocks(head, p, cell, q, tail, p, p);
    RulesForThreeBlocks(head, p, cell, q, tail, p, q);
  }

  /**
   * A row: on its own element the object-create, set-properties ignoring
   * exactly `splitType`, the split-type constant rule and the set-next; on
   * `pattern + "/printWhenExpression"` the expression rules, in the
   * JasperReports namespace whatever the namespace of the row.
   */
  lemma RowLayout(p: string, m: string, ns: Option<string>)
    ensures RulesFor(RowRules(p, m, ns), p)
            == [Rule(p, ns, ObjectCreate(StandardRowClass)), Rule(p, ns, SetProperties(["splitType"])),
                Rule(p, ns, XmlConstantProperty("splitType", "splitType", SplitTypeEnumClass)),
                Rule(p, ns, SetNext(m, None))]
    ensures RulesFor(RowRules(p, m, ns), p + "/printWhenExpression")
            == ExpressionRules(p + "/printWhenExpression", JRExpressionFactoryClass, "setPrintWhenExpression",
                               Some(JasperReportsNamespace))
  {
    var own := RowOwnRules(p, m, ns);
    var pw := PrintWhenRules(p);
    var q := p + "/printWhenExpression";
    assert p != q by { assert |p| < |q|; }
    RulesForTwoBlocks(own, p, pw, q, p);
    RulesForTwoBlocks(own, p, pw, q, q);
  }

  /**
   * A group row has the shape of a group cell: its own object-create and
   * set-properties, the row block on `pattern + "/row"` attached with
   * `setRow`, then its own set-next.
   */
  lemma GroupRowLayout(p: string, m: string, ns: Option<string>)
    ensures RulesFor(GroupRowRules(p, m, ns), p)
            == [Rule(p, ns, ObjectCreate(StandardGroupRowClass)), Rule(p, ns, SetProperties([])),
                Rule(p, ns, SetNext(m, None))]
    ensures RulesFor(GroupRowRules(p, m, ns), p + "/row") == RowOwnRules(p + "/row", "setRow", ns)
    ensures RulesFor(GroupRowRules(p, m, ns), p + "/row" + "/printWhenExpression") == PrintWhenRules(p + "/row")
  {
    var q := p + "/row";
    var r := q + "/printWhenExpression";
    assert p != q && p != r && q != r by { assert |p| < |q| < |r|; }
    var head := GroupHead(p, StandardGroupRowClass, ns);
    var tail := GroupTail(p, m, ns);
    assert RulesFor(GroupRowRules(p, m, ns), p) == head + tail by { GroupRowAt(p, m, ns, p); }
    GroupRowAt(p, m, ns, q);
    GroupRowAt(p, m, ns, r);
  }

  /** The group row's rules for any pattern, block by block. */
  lemma GroupRowAt(p: string, m: string, ns: Option<string>, t: string)
    ensures var q := p + "/row";
            var head := GroupHead(p, StandardGroupRowClass, ns);
            var tail := GroupTail(p, m, ns);
            RulesFor(GroupRowRules(p, m, ns), t)
            == (if p == t then head else []) + (if q == t then RowOwnRules(q, "setRow", ns) else [])
               + (if q + "/printWhenExpression" == t then PrintWhenRules(q) else []) + (if p == t then tail else [])
  {
    var q := p + "/row";
    var head := GroupHead(p, StandardGroupRowClass, ns);
    var tail := GroupTail(p, m, ns);
    var own := RowOwnRules(q, "setRow", ns);
    var pw := PrintWhenRules(q);
    assert GroupRowRules(p, m, ns) == head + own + pw + tail;
    RulesForThreeBlocks(head, p, own, q, pw, q + "/printWhenExpression", t);
    RulesForBlock(tail, p, t);
    RulesForAppend(head + own + pw, tail, t);
  }

  /** The whole row block sits between the group row's set-properties and its set-next. */
  lemma GroupRowOrder(p: string, m: string, ns: Option<string>)
    ensures var g := GroupRowRules(p, m, ns);
            |g| == 10 && g[2..9] == RowRules(p + "/row", "setRow", ns) && g[9] == Rule(p, ns, SetNext(m, None))
  {
  }

  /**
   * The list component: object-create, set-properties ignoring exactly
   * `printOrder` and the print-order constant rule on the list element; the
   * contents object, its properties, its set-next and the dataset-run context
   * rule on `list/listContents` (their namespace is stated by ListStamps).
   */
  lemma ListLayout(ns: Option<string>)
    ensures RulesFor(ListRules(ns), ListPattern)
            == [Rule(ListPattern, ns, ObjectCreate(StandardListComponentClass)),
                Rule(ListPattern, ns, SetProperties(["printOrder"])),
                Rule(ListPattern, ns, XmlConstantProperty("printOrder", "printOrderValue", PrintOrderEnumClass))]
    ensures var q := ListPattern + "/listContents";
            RulesFor(ListRules(ns), q)
            == [Rule(q, ns, ObjectCreate(DesignListContentsClass)), Rule(q, ns, SetProperties([])),
                Rule(q, ns, SetNext("setContents", None)), Rule(q, ns, DatasetRunReportContext(ListComponentClass))]
  {
    var q := ListPattern + "/listContents";
    var own := [Rule(ListPattern, ns, ObjectCreate(StandardListComponentClass)),
                Rule(ListPattern, ns, SetProperties(["printOrder"])),
                Rule(ListPattern, ns, XmlConstantProperty("printOrder", "printOrderValue", PrintOrderEnumClass))];
    var contents := [Rule(q, ns, ObjectCreate(DesignListContentsClass)), Rule(q, ns, SetProperties([])),
                     Rule(q, ns, SetNext("setContents", None)), Rule(q, ns, DatasetRunReportContext(ListComponentClass))];
    assert ListRules(ns) == own + contents;
    assert ListPattern != q by { assert |ListPattern| < |q|; }
    RulesForTwoBlocks(own, ListPattern, contents, q, ListPattern);
    RulesForTwoBlocks(own, ListPattern, contents, q, q);
  }

  /**
   * A barcode: object-create, set-properties with the given exclusions and
   * the evaluation-time constant rule on the barcode element; the code
   * expression below it; all in the namespace in force, the expression too.
   */
  lemma BarcodeLayout(p: string, cls: string, ignored: seq<string>, ns: Option<string>)
    ensures RulesFor(BarcodeRules(p, cls, ignored, ns), p)
            == [Rule(p, ns, ObjectCreate(cls)), Rule(p, ns, SetProperties(ignored)),
                Rule(p, ns, XmlConstantProperty(AttributeEvaluationTime, "evaluationTimeValue", EvaluationTimeEnumClass))]
    ensures RulesFor(BarcodeRules(p, cls, ignored, ns), p + "/codeExpression")
            == ExpressionRules(p + "/codeExpression", JRExpressionFactoryClass, "setCodeExpression", ns)
    ensures forall x :: x in BarcodeRules(p, cls, ignored, ns) ==> x.ns == ns
  {
    var q := p + "/codeExpression";
    var own := [Rule(p, ns, ObjectCreate(cls)), Rule(p, ns, SetProperties(ignored)),
                Rule(p, ns, XmlConstantProperty(AttributeEvaluationTime, "evaluationTimeValue", EvaluationTimeEnumClass))];
    var code := ExpressionRules(q, JRExpressionFactoryClass, "setCodeExpression", ns);
    assert p != q by { assert |p| < |q|; }
    RulesForTwoBlocks(own, p, code, q, p);
    RulesForTwoBlocks(own, p, code, q, q);
  }

  /**
   * Items: the item factory and its set-next on the item element, the item
   * property factory and its set-next one level down, both in the namespace
   * in force on entry; the value expression of an item property in the
   * namespace `namespace` the caller passed.
   */
  lemma ItemLayout(p: string, m: string, entry: Option<string>, namespace: Option<string>)
    ensures RulesFor(ItemRules(p, m, entry, namespace), p)
            == [Rule(p, entry, FactoryCreate(ItemXmlFactoryClass)), Rule(p, entry, SetNext(m, Some(ItemClass)))]
    ensures var q := p + "/itemProperty";
            RulesFor(ItemRules(p, m, entry, namespace), q)
            == [Rule(q, entry, FactoryCreate(ItemPropertyXmlFactoryClass)),
                Rule(q, entry, SetNext("addItemProperty", Some(ItemPropertyClass)))]
    ensures var v := p + "/itemProperty" + "/" + ElementValueExpression;
            RulesFor(ItemRules(p, m, entry, namespace), v)
            == ExpressionRules(v, JRExpressionFactoryClass, "setValueExpression", namespace)
  {
    var q := p + "/itemProperty";
    var v := q + "/" + ElementValueExpression;
    var item := [Rule(p, entry, FactoryCreate(ItemXmlFactoryClass)), Rule(p, entry, SetNext(m, Some(ItemClass)))];
    var prop := [Rule(q, entry, FactoryCreate(ItemPropertyXmlFactoryClass)),
                 Rule(q, entry, SetNext("addItemProperty", Some(ItemPropertyClass)))];
    var value := ExpressionRules(v, JRExpressionFactoryClass, "setValueExpression", namespace);
    assert ItemRules(p, m, entry, namespace) == item + prop + value;
    assert p != q && p != v && q != v by { assert |p| < |q| < |v|; }
    RulesForThreeBlocks(item, p, prop, q, value, v, p);
    RulesForThreeBlocks(item, p, prop, q, value, v, q);
    RulesForThreeBlocks(item, p, prop, q, value, v, v);
  }
}
