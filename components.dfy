/**
 * The rule-registration side of JasperReports' ComponentsXmlDigesterConfigurer:
 * the digester rules that build the list and table components (and the
 * helpers for barcode, item and expression rules) from their XML form.
 *
 * Each `Add...Rules` method takes the digester, adds its rules one call at a
 * time as the Java code does, and promises that the rule table grows by
 * exactly the block the matching specification function describes, stamped
 * with the right rule namespace, and what the rule namespace is afterwards.
 */
module ComponentsConfigurer {

  import opened Wrappers
  import opened CommonsDigester

  // The JasperReports namespace URI (JRXmlWriter.JASPERREPORTS_NAMESPACE)
  const JasperReportsNamespace := "http://jasperreports.sourceforge.net/jasperreports"

  // Attribute and element names from JRXmlConstants
  const AttributeEvaluationTime := "evaluationTime"
  const AttributeStyle := "style"
  const ElementValueExpression := "valueExpression"

  // Class names standing for the Java classes the rules are built from
  const JRExpressionClass := "net.sf.jasperreports.engine.JRExpression"
  const JRExpressionFactoryClass := "net.sf.jasperreports.engine.xml.JRExpressionFactory"
  const PrintOrderEnumClass := "net.sf.jasperreports.engine.type.PrintOrderEnum"
  const SplitTypeEnumClass := "net.sf.jasperreports.engine.type.SplitTypeEnum"
  const EvaluationTimeEnumClass := "net.sf.jasperreports.engine.type.EvaluationTimeEnum"
  const StandardListComponentClass := "net.sf.jasperreports.components.list.StandardListComponent"
  const DesignListContentsClass := "net.sf.jasperreports.components.list.DesignListContents"
  const ListComponentClass := "net.sf.jasperreports.components.list.ListComponent"
  const StandardTableFactoryClass := "net.sf.jasperreports.components.table.StandardTableFactory"
  const StandardColumnClass := "net.sf.jasperreports.components.table.StandardColumn"
  const StandardColumnGroupClass := "net.sf.jasperreports.components.table.StandardColumnGroup"
  const StandardGroupCellClass := "net.sf.jasperreports.components.table.StandardGroupCell"
  const StandardGroupRowClass := "net.sf.jasperreports.components.table.StandardGroupRow"
  const StandardRowClass := "net.sf.jasperreports.components.table.StandardRow"
  const DesignBaseCellClass := "net.sf.jasperreports.components.table.DesignBaseCell"
  const DesignCellClass := "net.sf.jasperreports.components.table.DesignCell"
  const TableComponentClass := "net.sf.jasperreports.components.table.TableComponent"
  const ItemXmlFactoryClass := "net.sf.jasperreports.components.items.ItemXmlFactory"
  const ItemPropertyXmlFactoryClass := "net.sf.jasperreports.components.items.ItemPropertyXmlFactory"
  const ItemClass := "net.sf.jasperreports.components.items.Item"
  const ItemPropertyClass := "net.sf.jasperreports.components.items.ItemProperty"

  const ListPattern := "*/componentElement/list"
  const TablePattern := "*/componentElement/table"
  const ColumnPattern := "*/column"
  const ColumnGroupPattern := "*/columnGroup"

  function JRNamespace(): Option<string>
  {
    Some(JasperReportsNamespace)
  }

  /**
   * The three rules of an expression element: create the expression with the
   * factory, set its text from the element body, hand it to the owner's setter.
   */
  function ExpressionRules(pattern: string, factory: string, setter: string, stamp: Option<string>): seq<Rule>
  {
    [ Rule(pattern, stamp, FactoryCreate(factory)),
      Rule(pattern, stamp, CallMethod("setText", 0)),
      Rule(pattern, stamp, SetNext(setter, Some(JRExpressionClass))) ]
  }

  /** The rules that create and attach an expression object. */
  predicate IsExpressionAction(a: Action)
  {
    a == FactoryCreate(JRExpressionFactoryClass) || a == CallMethod("setText", 0)
    || (a.SetNext? && a.paramType == Some(JRExpressionClass))
  }

  /** A print-when expression, always read in the JasperReports namespace. */
  function PrintWhenRules(owner: string): seq<Rule>
  {
    ExpressionRules(owner + "/printWhenExpression", JRExpressionFactoryClass, "setPrintWhenExpression", JRNamespace())
  }

  /** A table cell of class `cls` (addTableCellRules: DesignCell, addTableBaseCellRules: DesignBaseCell). */
  function CellRules(cls: string, pattern: string, setNext: string, ns: Option<string>): seq<Rule>
  {
    [ Rule(pattern, ns, ObjectCreate(cls)),
      Rule(pattern, ns, SetNext(setNext, None)),
      Rule(pattern, ns, DatasetRunReportContext(TableComponentClass)),
      Rule(pattern, ns, SetProperties([AttributeStyle])),
      Rule(pattern, ns, StyleContainer) ]
  }

  /** What a group cell or group row opens with on its own element: create the wrapper, bind its attributes. */
  function GroupHead(pattern: string, cls: string, ns: Option<string>): seq<Rule>
  {
    [ Rule(pattern, ns, ObjectCreate(cls)), Rule(pattern, ns, SetProperties([])) ]
  }

  /** What a group cell or group row closes with on its own element, after its inner block. */
  function GroupTail(pattern: string, setNext: string, ns: Option<string>): seq<Rule>
  {
    [ Rule(pattern, ns, SetNext(setNext, None)) ]
  }

  /** The rules a group cell registers on its own element. */
  function GroupCellOwnRules(pattern: string, setNext: string, ns: Option<string>): seq<Rule>
  {
    GroupHead(pattern, StandardGroupCellClass, ns) + GroupTail(pattern, setNext, ns)
  }

  function GroupCellRules(pattern: string, setNext: string, ns: Option<string>): seq<Rule>
  {
    GroupHead(pattern, StandardGroupCellClass, ns)
    + CellRules(DesignCellClass, pattern + "/cell", "setCell", ns)
    + GroupTail(pattern, setNext, ns)
  }

  /** The rules a row registers on its own element. */
  function RowOwnRules(pattern: string, setNext: string, ns: Option<string>): seq<Rule>
  {
    [ Rule(pattern, ns, ObjectCreate(StandardRowClass)),
      Rule(pattern, ns, SetProperties(["splitType"])),
      Rule(pattern, ns, XmlConstantProperty("splitType", "splitType", SplitTypeEnumClass)),
      Rule(pattern, ns, SetNext(setNext, None)) ]
  }

  function RowRules(pattern: string, setNext: string, ns: Option<string>): seq<Rule>
  {
    RowOwnRules(pattern, setNext, ns) + PrintWhenRules(pattern)
  }

  /** The rules a group row registers on its own element. */
  function GroupRowOwnRules(pattern: string, setNext: string, ns: Option<string>): seq<Rule>
  {
    GroupHead(pattern, StandardGroupRowClass, ns) + GroupTail(pattern, setNext, ns)
  }

  function GroupRowRules(pattern: string, setNext: string, ns: Option<string>): seq<Rule>
  {
    GroupHead(pattern, StandardGroupRowClass, ns)
    + RowRules(pattern + "/row", "setRow", ns)
    + GroupTail(pattern, setNext, ns)
  }

  /**
   * The child slots of a column, column group or table: the child element's
   * path below the owner, the owner's method that receives the child, and
   * which rule block the child element gets.
   */
  datatype SlotKind = BaseCell | Cell | GroupCell | Row | GroupRow
  datatype Slot = Slot(path: string, setter: string, kind: SlotKind)

  /** The cell slots of a column, in registration order. */
  const ColumnSlots: seq<Slot> := [
    Slot("/tableHeader", "setTableHeader", Cell),
    Slot("/tableFooter", "setTableFooter", Cell),
    Slot("/groupHeader", "addGroupHeader", GroupCell),
    Slot("/groupFooter", "addGroupFooter", GroupCell),
    Slot("/columnHeader", "setColumnHeader", Cell),
    Slot("/columnFooter", "setColumnFooter", Cell),
    Slot("/detailCell", "setDetailCell", Cell)
  ]

  /** The cell slots of a column group: those of a column except the detail cell. */
  const ColumnGroupSlots: seq<Slot> := [
    Slot("/tableHeader", "setTableHeader", Cell),
    Slot("/tableFooter", "setTableFooter", Cell),
    Slot("/groupHeader", "addGroupHeader", GroupCell),
    Slot("/groupFooter", "addGroupFooter", GroupCell),
    Slot("/columnHeader", "setColumnHeader", Cell),
    Slot("/columnFooter", "setColumnFooter", Cell)
  ]

  /** The row slots of a table followed by its no-data cell. */
  const TableSlots: seq<Slot> := [
    Slot("/tableHeader", "setTableHeader", Row),
    Slot("/tableFooter", "setTableFooter", Row),
    Slot("/groupHeader", "addGroupHeader", GroupRow),
    Slot("/groupFooter", "addGroupFooter", GroupRow),
    Slot("/columnHeader", "setColumnHeader", Row),
    Slot("/columnFooter", "setColumnFooter", Row),
    Slot("/detail", "setDetail", Row),
    Slot("/noData", "setNoData", BaseCell)
  ]

  function SlotPattern(owner: string, s: Slot): string
  {
    owner + s.path
  }

  /** The rule block of one slot of `owner`. */
  function SlotRules(owner: string, s: Slot, ns: Option<string>): seq<Rule>
  {
    var p := SlotPattern(owner, s);
    match s.kind
    case BaseCell => CellRules(DesignBaseCellClass, p, s.setter, ns)
    case Cell => CellRules(DesignCellClass, p, s.setter, ns)
    case GroupCell => GroupCellRules(p, s.setter, ns)
    case Row => RowRules(p, s.setter, ns)
    case GroupRow => GroupRowRules(p, s.setter, ns)
  }

  /** The rules a slot registers on its own element (not on its sub-elements). */
  function SlotOwnRules(owner: string, s: Slot, ns: Option<string>): seq<Rule>
  {
    var p := SlotPattern(owner, s);
    match s.kind
    case BaseCell => CellRules(DesignBaseCellClass, p, s.setter, ns)
    case Cell => CellRules(DesignCellClass, p, s.setter, ns)
    case GroupCell => GroupCellOwnRules(p, s.setter, ns)
    case Row => RowOwnRules(p, s.setter, ns)
    case GroupRow => GroupRowOwnRules(p, s.setter, ns)
  }

  /** The rule blocks of a list of slots, one after the other. */
  function SlotsRules(owner: string, slots: seq<Slot>, ns: Option<string>): seq<Rule>
  {
    if slots == [] then [] else SlotRules(owner, slots[0], ns) + SlotsRules(owner, slots[1..], ns)
  }

  /** The rules a column or column group registers on its own element. */
  function ColumnOwnRules(pattern: string, cls: string, ns: Option<string>): seq<Rule>
  {
    [ Rule(pattern, ns, ObjectCreate(cls)),
      Rule(pattern, ns, SetNext("addColumn", None)),
      Rule(pattern, ns, SetProperties(["uuid"])),
      Rule(pattern, ns, UuidProperty("uuid", "UUID")) ]
  }

  function ColumnRules(pattern: string, cls: string, slots: seq<Slot>, ns: Option<string>): seq<Rule>
  {
    ColumnOwnRules(pattern, cls, ns) + PrintWhenRules(pattern) + SlotsRules(pattern, slots, ns)
  }

  /** Everything addTableRules registers, as a table-driven schema. */
  function TableRules(ns: Option<string>): seq<Rule>
  {
    [Rule(TablePattern, ns, FactoryCreate(StandardTableFactoryClass))]
    + ColumnRules(ColumnPattern, StandardColumnClass, ColumnSlots, ns)
    + ColumnRules(ColumnGroupPattern, StandardColumnGroupClass, ColumnGroupSlots, ns)
    + SlotsRules(TablePattern, TableSlots, ns)
  }

  function ListRules(ns: Option<string>): seq<Rule>
  {
    var contents := ListPattern + "/listContents";
    [ Rule(ListPattern, ns, ObjectCreate(StandardListComponentClass)),
      Rule(ListPattern, ns, SetProperties(["printOrder"])),
      Rule(ListPattern, ns, XmlConstantProperty("printOrder", "printOrderValue", PrintOrderEnumClass)),
      Rule(contents, ns, ObjectCreate(DesignListContentsClass)),
      Rule(contents, ns, SetProperties([])),
      Rule(contents, ns, SetNext("setContents", None)),
      Rule(contents, ns, DatasetRunReportContext(ListComponentClass)) ]
  }

  function BarcodeRules(pattern: string, cls: string, ignored: seq<string>, ns: Option<string>): seq<Rule>
  {
    [ Rule(pattern, ns, ObjectCreate(cls)),
      Rule(pattern, ns, SetProperties(ignored)),
      Rule(pattern, ns, XmlConstantProperty(AttributeEvaluationTime, "evaluationTimeValue", EvaluationTimeEnumClass)) ]
    + ExpressionRules(pattern + "/codeExpression", JRExpressionFactoryClass, "setCodeExpression", ns)
  }

  /**
   * The item rules: the item and item-property rules carry the namespace in
   * force on entry, the value-expression rules the namespace `namespace`.
   */
  function ItemRules(pattern: string, methodName: string, entry: Option<string>, namespace: Option<string>): seq<Rule>
  {
    var property := pattern + "/itemProperty";
    [ Rule(pattern, entry, FactoryCreate(ItemXmlFactoryClass)),
      Rule(pattern, entry, SetNext(methodName, Some(ItemClass))),
      Rule(property, entry, FactoryCreate(ItemPropertyXmlFactoryClass)),
      Rule(property, entry, SetNext("addItemProperty", Some(ItemPropertyClass))) ]
    + ExpressionRules(property + "/" + ElementValueExpression, JRExpressionFactoryClass, "setValueExpression", namespace)
  }

  /** Sequence concatenation regrouped, for following a chain of appends. */
  lemma AppendAssoc(a: seq<Rule>, b: seq<Rule>, c: seq<Rule>)
    ensures a + b + c == a + (b + c)
  {
  }

  // ---------------------------------------------------------------------
  // The configurer's methods
  // ---------------------------------------------------------------------

  /**
   * Adds the three rules of the expression element `expressionPattern`. With
   * `jrNamespace` they are registered in the JasperReports namespace and the
   * namespace in force on entry is restored afterwards.
   */
  method AddExpressionRules(d: Digester, expressionPattern: string, factoryClass: string,
                            setterMethod: string, jrNamespace: bool)
    modifies d
    ensures d.rules == old(d.rules)
              + ExpressionRules(expressionPattern, factoryClass, setterMethod,
                                if jrNamespace then JRNamespace() else old(d.ns))
    ensures d.ns == old(d.ns)
  {
    var originalNamespace := d.GetRuleNamespaceURI();
    if jrNamespace {
      d.SetRuleNamespaceURI(Some(JasperReportsNamespace));
    }
    d.AddFactoryCreate(expressionPattern, factoryClass);
    d.AddCallMethod(expressionPattern, "setText", 0);
    d.AddSetNext(expressionPattern, setterMethod, Some(JRExpressionClass));
    if jrNamespace {
      d.SetRuleNamespaceURI(originalNamespace);
    }
  }

  method AddListRules(d: Digester)
    modifies d
    ensures d.rules == old(d.rules) + ListRules(old(d.ns))
    ensures d.ns == old(d.ns)
  {
    var listPattern := "*/componentElement/list";
    d.AddObjectCreate(listPattern, StandardListComponentClass);
    d.AddSetProperties(listPattern, ["printOrder"]);
    d.AddRule(listPattern, XmlConstantProperty("printOrder", "printOrderValue", PrintOrderEnumClass));

    var listContentsPattern := listPattern + "/listContents";
    d.AddObjectCreate(listContentsPattern, DesignListContentsClass);
    d.AddSetProperties(listContentsPattern, []);
    d.AddSetNext(listContentsPattern, "setContents", None);
    d.AddRule(listContentsPattern, DatasetRunReportContext(ListComponentClass));
  }

  method AddPatternExpressionRules(d: Digester, barcodePattern: string)
    modifies d
    ensures d.rules == old(d.rules)
              + ExpressionRules(barcodePattern + "/patternExpression", JRExpressionFactoryClass,
                                "setPatternExpression", old(d.ns))
    ensures d.ns == old(d.ns)
  {
    var patternExpressionPattern := barcodePattern + "/patternExpression";
    d.AddFactoryCreate(patternExpressionPattern, JRExpressionFactoryClass);
    d.AddCallMethod(patternExpressionPattern, "setText", 0);
    d.AddSetNext(patternExpressionPattern, "setPatternExpression", Some(JRExpressionClass));
  }

  method AddBarcodeRules(d: Digester, barcodePattern: string, barcodeComponentClass: string,
                         ignoredProperties: seq<string>)
    modifies d
    ensures d.rules == old(d.rules)
              + BarcodeRules(barcodePattern, barcodeComponentClass, ignoredProperties, old(d.ns))
    ensures d.ns == old(d.ns)
  {
    d.AddObjectCreate(barcodePattern, barcodeComponentClass);
    d.AddSetProperties(barcodePattern, ignoredProperties);
    d.AddRule(barcodePattern,
              XmlConstantProperty(AttributeEvaluationTime, "evaluationTimeValue", EvaluationTimeEnumClass));

    var codeExpressionPattern := barcodePattern + "/codeExpression";
    d.AddFactoryCreate(codeExpressionPattern, JRExpressionFactoryClass);
    d.AddCallMethod(codeExpressionPattern, "setText", 0);
    d.AddSetNext(codeExpressionPattern, "setCodeExpression", Some(JRExpressionClass));
  }

  method AddTemplateRules(d: Digester, barcodePattern: string)
    modifies d
    ensures d.rules == old(d.rules)
              + ExpressionRules(barcodePattern + "/templateExpression", JRExpressionFactoryClass,
                                "setTemplateExpression", old(d.ns))
    ensures d.ns == old(d.ns)
  {
    var templateExpressionPattern := barcodePattern + "/templateExpression";
    d.AddFactoryCreate(templateExpressionPattern, JRExpressionFactoryClass);
    d.AddCallMethod(templateExpressionPattern, "setText", 0);
    d.AddSetNext(templateExpressionPattern, "setTemplateExpression", Some(JRExpressionClass));
  }

  /** Leaves the rule namespace set to `namespace`: it is not restored. */
  method AddItemRules(d: Digester, itemPattern: string, methodName: string, namespace: Option<string>)
    modifies d
    ensures d.rules == old(d.rules) + ItemRules(itemPattern, methodName, old(d.ns), namespace)
    ensures d.ns == namespace
  {
    d.AddFactoryCreate(itemPattern, ItemXmlFactoryClass);
    d.AddSetNext(itemPattern, methodName, Some(ItemClass));

    var locationItemPropertyPattern := itemPattern + "/itemProperty";
    d.AddFactoryCreate(locationItemPropertyPattern, ItemPropertyXmlFactoryClass);
    d.AddSetNext(locationItemPropertyPattern, "addItemProperty", Some(ItemPropertyClass));

    d.SetRuleNamespaceURI(namespace);

    var locationItemPropertyValueExpressionPattern :=
      locationItemPropertyPattern + "/" + ElementValueExpression;
    d.AddFactoryCreate(locationItemPropertyValueExpressionPattern, JRExpressionFactoryClass);
    d.AddCallMethod(locationItemPropertyValueExpressionPattern, "setText", 0);
    d.AddSetNext(locationItemPropertyValueExpressionPattern, "setValueExpression", Some(JRExpressionClass));
  }

  method AddTableBaseCellRules(d: Digester, pattern: string, setNextMethod: string)
    modifies d
    ensures d.rules == old(d.rules) + CellRules(DesignBaseCellClass, pattern, setNextMethod, old(d.ns))
    ensures d.ns == old(d.ns)
  {
    d.AddObjectCreate(pattern, DesignBaseCellClass);
    d.AddSetNext(pattern, setNextMethod, None);
    d.AddRule(pattern, DatasetRunReportContext(TableComponentClass));
    d.AddSetProperties(pattern, [AttributeStyle]);
    d.AddRule(pattern, StyleContainer);
  }

  method AddTableCellRules(d: Digester, pattern: string, setNextMethod: string)
    modifies d
    ensures d.rules == old(d.rules) + CellRules(DesignCellClass, pattern, setNextMethod, old(d.ns))
    ensures d.ns == old(d.ns)
  {
    d.AddObjectCreate(pattern, DesignCellClass);
    d.AddSetNext(pattern, setNextMethod, None);
    d.AddRule(pattern, DatasetRunReportContext(TableComponentClass));
    d.AddSetProperties(pattern, [AttributeStyle]);
    d.AddRule(pattern, StyleContainer);
  }

  method AddTableGroupCellRules(d: Digester, pattern: string, setNextMethod: string)
    modifies d
    ensures d.rules == old(d.rules) + GroupCellRules(pattern, setNextMethod, old(d.ns))
    ensures d.ns == old(d.ns)
  {
    d.AddObjectCreate(pattern, StandardGroupCellClass);
    d.AddSetProperties(pattern, []);
    AddTableCellRules(d, pattern + "/cell", "setCell");
    d.AddSetNext(pattern, setNextMethod, None);
  }

  method AddTableRowRules(d: Digester, pattern: string, setNextMethod: string)
    modifies d
    ensures d.rules == old(d.rules) + RowRules(pattern, setNextMethod, old(d.ns))
    ensures d.ns == old(d.ns)
  {
    d.AddObjectCreate(pattern, StandardRowClass);
    d.AddSetProperties(pattern, ["splitType"]);
    d.AddRule(pattern, XmlConstantProperty("splitType", "splitType", SplitTypeEnumClass));
    d.AddSetNext(pattern, setNextMethod, None);
    AddExpressionRules(d, pattern + "/printWhenExpression", JRExpressionFactoryClass,
                       "setPrintWhenExpression", true);
  }

  method AddTableGroupRowRules(d: Digester, pattern: string, setNextMethod: string)
    modifies d
    ensures d.rules == old(d.rules) + GroupRowRules(pattern, setNextMethod, old(d.ns))
    ensures d.ns == old(d.ns)
  {
    d.AddObjectCreate(pattern, StandardGroupRowClass);
    d.AddSetProperties(pattern, []);
    AddTableRowRules(d, pattern + "/row", "setRow");
    d.AddSetNext(pattern, setNextMethod, None);
  }

  lemma {:induction false} SlotsRulesAppend(owner: string, a: seq<Slot>, b: seq<Slot>, ns: Option<string>)
    ensures SlotsRules(owner, a + b, ns) == SlotsRules(owner, a, ns) + SlotsRules(owner, b, ns)
  {
    if a == [] {
      assert a + b == b;
    } else {
      assert (a + b)[1..] == a[1..] + b;
      SlotsRulesAppend(owner, a[1..], b, ns);
      AppendAssoc(SlotRules(owner, a[0], ns), SlotsRules(owner, a[1..], ns), SlotsRules(owner, b, ns));
    }
  }

  /** Appending the block of slot `k` extends the blocks of the slots before it. */
  lemma SlotAppended(base: seq<Rule>, owner: string, slots: seq<Slot>, k: nat,
                     rules: seq<Rule>, ns: Option<string>)
    requires k < |slots|
    requires rules == base + SlotsRules(owner, slots[..k], ns) + SlotRules(owner, slots[k], ns)
    ensures rules == base + SlotsRules(owner, slots[..k + 1], ns)
    ensures k + 1 == |slots| ==> rules == base + SlotsRules(owner, slots, ns)
  {
    assert slots[..k + 1] == slots[..k] + [slots[k]];
    SlotsRulesAppend(owner, slots[..k], [slots[k]], ns);
    assert SlotsRules(owner, [slots[k]], ns) == SlotRules(owner, slots[k], ns) + [];
    AppendAssoc(base, SlotsRules(owner, slots[..k], ns), SlotRules(owner, slots[k], ns));
    assert slots[..|slots|] == slots;
  }

  /** The first four cell slot blocks addTableRules appends for a column are those of ColumnSlots[..4]. */
  lemma ColumnSlotsHeadRegistered(base: seq<Rule>, rules: seq<Rule>, ns: Option<string>)
    requires rules == base
      + CellRules(DesignCellClass, "*/column" + "/tableHeader", "setTableHeader", ns)
      + CellRules(DesignCellClass, "*/column" + "/tableFooter", "setTableFooter", ns)
      + GroupCellRules("*/column" + "/groupHeader", "addGroupHeader", ns)
      + GroupCellRules("*/column" + "/groupFooter", "addGroupFooter", ns)
    ensures rules == base + SlotsRules(ColumnPattern, ColumnSlots[..4], ns)
  {
    var b0 := base + CellRules(DesignCellClass, "*/column" + "/tableHeader", "setTableHeader", ns);
    var b1 := b0 + CellRules(DesignCellClass, "*/column" + "/tableFooter", "setTableFooter", ns);
    var b2 := b1 + GroupCellRules("*/column" + "/groupHeader", "addGroupHeader", ns);
    var b3 := b2 + GroupCellRules("*/column" + "/groupFooter", "addGroupFooter", ns);
    SlotAppended(base, ColumnPattern, ColumnSlots, 0, b0, ns);
    SlotAppended(base, ColumnPattern, ColumnSlots, 1, b1, ns);
    SlotAppended(base, ColumnPattern, ColumnSlots, 2, b2, ns);
    SlotAppended(base, ColumnPattern, ColumnSlots, 3, b3, ns);
  }

  /** The remaining cell slot blocks, the detail cell last, complete the blocks of ColumnSlots. */
  lemma ColumnSlotsTailRegistered(base: seq<Rule>, mid: seq<Rule>, rules: seq<Rule>, ns: Option<string>)
    requires mid == base + SlotsRules(ColumnPattern, ColumnSlots[..4], ns)
    requires rules == mid
      + CellRules(DesignCellClass, "*/column" + "/columnHeader", "setColumnHeader", ns)
      + CellRules(DesignCellClass, "*/column" + "/columnFooter", "setColumnFooter", ns)
      + CellRules(DesignCellClass, "*/column" + "/detailCell", "setDetailCell", ns)
    ensures rules == base + SlotsRules(ColumnPattern, ColumnSlots, ns)
  {
    var b4 := mid + CellRules(DesignCellClass, "*/column" + "/columnHeader", "setColumnHeader", ns);
    var b5 := b4 + CellRules(DesignCellClass, "*/column" + "/columnFooter", "setColumnFooter", ns);
    var b6 := b5 + CellRules(DesignCellClass, "*/column" + "/detailCell", "setDetailCell", ns);
    SlotAppended(base, ColumnPattern, ColumnSlots, 4, b4, ns);
    SlotAppended(base, ColumnPattern, ColumnSlots, 5, b5, ns);
    SlotAppended(base, ColumnPattern, ColumnSlots, 6, b6, ns);
  }

  /** The six cell slot blocks addTableRules appends for a column group are those of ColumnGroupSlots. */
  lemma ColumnGroupSlotsRegistered(base: seq<Rule>, rules: seq<Rule>, ns: Option<string>)
    requires rules == base
      + CellRules(DesignCellClass, "*/columnGroup" + "/tableHeader", "setTableHeader", ns)
      + CellRules(DesignCellClass, "*/columnGroup" + "/tableFooter", "setTableFooter", ns)
      + GroupCellRules("*/columnGroup" + "/groupHeader", "addGroupHeader", ns)
      + GroupCellRules("*/columnGroup" + "/groupFooter", "addGroupFooter", ns)
      + CellRules(DesignCellClass, "*/columnGroup" + "/columnHeader", "setColumnHeader", ns)
      + CellRules(DesignCellClass, "*/columnGroup" + "/columnFooter", "setColumnFooter", ns)
    ensures rules == base + SlotsRules(ColumnGroupPattern, ColumnGroupSlots, ns)
  {
    var b0 := base + CellRules(DesignCellClass, "*/columnGroup" + "/tableHeader", "setTableHeader", ns);
    var b1 := b0 + CellRules(DesignCellClass, "*/columnGroup" + "/tableFooter", "setTableFooter", ns);
    var b2 := b1 + GroupCellRules("*/columnGroup" + "/groupHeader", "addGroupHeader", ns);
    var b3 := b2 + GroupCellRules("*/columnGroup" + "/groupFooter", "addGroupFooter", ns);
    var b4 := b3 + CellRules(DesignCellClass, "*/columnGroup" + "/columnHeader", "setColumnHeader", ns);
    var b5 := b4 + CellRules(DesignCellClass, "*/columnGroup" + "/columnFooter", "setColumnFooter", ns);
    SlotAppended(base, ColumnGroupPattern, ColumnGroupSlots, 0, b0, ns);
    SlotAppended(base, ColumnGroupPattern, ColumnGroupSlots, 1, b1, ns);
    SlotAppended(base, ColumnGroupPattern, ColumnGroupSlots, 2, b2, ns);
    SlotAppended(base, ColumnGroupPattern, ColumnGroupSlots, 3, b3, ns);
    SlotAppended(base, ColumnGroupPattern, ColumnGroupSlots, 4, b4, ns);
    SlotAppended(base, ColumnGroupPattern, ColumnGroupSlots, 5, b5, ns);
  }

  /** The first four row blocks addTableRules appends for the table are those of TableSlots[..4]. */
  lemma TableSlotsHeadRegistered(base: seq<Rule>, rules: seq<Rule>, ns: Option<string>)
    requires rules == base
      + RowRules("*/componentElement/table" + "/tableHeader", "setTableHeader", ns)
      + RowRules("*/componentElement/table" + "/tableFooter", "setTableFooter", ns)
      + GroupRowRules("*/componentElement/table" + "/groupHeader", "addGroupHeader", ns)
      + GroupRowRules("*/componentElement/table" + "/groupFooter", "addGroupFooter", ns)
    ensures rules == base + SlotsRules(TablePattern, TableSlots[..4], ns)
  {
    var b0 := base + RowRules("*/componentElement/table" + "/tableHeader", "setTableHeader", ns);
    var b1 := b0 + RowRules("*/componentElement/table" + "/tableFooter", "setTableFooter", ns);
    var b2 := b1 + GroupRowRules("*/componentElement/table" + "/groupHeader", "addGroupHeader", ns);
    var b3 := b2 + GroupRowRules("*/componentElement/table" + "/groupFooter", "addGroupFooter", ns);
    SlotAppended(base, TablePattern, TableSlots, 0, b0, ns);
    SlotAppended(base, TablePattern, TableSlots, 1, b1, ns);
    SlotAppended(base, TablePattern, TableSlots, 2, b2, ns);
    SlotAppended(base, TablePattern, TableSlots, 3, b3, ns);
  }

  /** The remaining row blocks and the no-data cell complete the blocks of TableSlots. */
  lemma TableSlotsTailRegistered(base: seq<Rule>, mid: seq<Rule>, rules: seq<Rule>, ns: Option<string>)
    requires mid == base + SlotsRules(TablePattern, TableSlots[..4], ns)
    requires rules == mid
      + RowRules("*/componentElement/table" + "/columnHeader", "setColumnHeader", ns)
      + RowRules("*/componentElement/table" + "/columnFooter", "setColumnFooter", ns)
      + RowRules("*/componentElement/table" + "/detail", "setDetail", ns)
      + CellRules(DesignBaseCellClass, "*/componentElement/table" + "/noData", "setNoData", ns)
    ensures rules == base + SlotsRules(TablePattern, TableSlots, ns)
  {
    var b4 := mid + RowRules("*/componentElement/table" + "/columnHeader", "setColumnHeader", ns);
    var b5 := b4 + RowRules("*/componentElement/table" + "/columnFooter", "setColumnFooter", ns);
    var b6 := b5 + RowRules("*/componentElement/table" + "/detail", "setDetail", ns);
    var b7 := b6 + CellRules(DesignBaseCellClass, "*/componentElement/table" + "/noData", "setNoData", ns);
    SlotAppended(base, TablePattern, TableSlots, 4, b4, ns);
    SlotAppended(base, TablePattern, TableSlots, 5, b5, ns);
    SlotAppended(base, TablePattern, TableSlots, 6, b6, ns);
    SlotAppended(base, TablePattern, TableSlots, 7, b7, ns);
  }

  /** A column or column group block, as addTableRules appends it, is ColumnRules. */
  lemma ColumnRegistered(start: seq<Rule>, base: seq<Rule>, rules: seq<Rule>, pattern: string,
                         cls: string, slots: seq<Slot>, ns: Option<string>)
    requires base == start
      + [Rule(pattern, ns, ObjectCreate(cls))]
      + [Rule(pattern, ns, SetNext("addColumn", None))]
      + [Rule(pattern, ns, SetProperties(["uuid"]))]
      + [Rule(pattern, ns, UuidProperty("uuid", "UUID"))]
      + PrintWhenRules(pattern)
    requires rules == base + SlotsRules(pattern, slots, ns)
    ensures rules == start + ColumnRules(pattern, cls, slots, ns)
  {
  }

  /** The four sections of addTableRules together are TableRules. */
  lemma TableRegistered(start: seq<Rule>, afterColumn: seq<Rule>, afterGroup: seq<Rule>,
                        rules: seq<Rule>, ns: Option<string>)
    requires afterColumn == start + [Rule(TablePattern, ns, FactoryCreate(StandardTableFactoryClass))]
      + ColumnRules(ColumnPattern, StandardColumnClass, ColumnSlots, ns)
    requires afterGroup == afterColumn
      + ColumnRules(ColumnGroupPattern, StandardColumnGroupClass, ColumnGroupSlots, ns)
    requires rules == afterGroup + SlotsRules(TablePattern, TableSlots, ns)
    ensures rules == start + TableRules(ns)
  {
    var f := [Rule(TablePattern, ns, FactoryCreate(StandardTableFactoryClass))];
    var c1 := ColumnRules(ColumnPattern, StandardColumnClass, ColumnSlots, ns);
    var c2 := ColumnRules(ColumnGroupPattern, StandardColumnGroupClass, ColumnGroupSlots, ns);
    var t := SlotsRules(TablePattern, TableSlots, ns);
    assert TableRules(ns) == f + c1 + c2 + t;
    AppendAssoc(start, f, c1);
    AppendAssoc(start, f + c1, c2);
    AppendAssoc(start, f + c1 + c2, t);
  }

  /** Registers the table component and everything inside it. */
  method AddTableRules(d: Digester)
    modifies d
    ensures d.rules == old(d.rules) + TableRules(old(d.ns))
    ensures d.ns == old(d.ns)
  {
    ghost var ns := d.ns;
    var tablePattern := "*/componentElement/table";
    d.AddFactoryCreate(tablePattern, StandardTableFactoryClass);
    ghost var start := d.rules;

    var columnPattern := "*/column";
    d.AddObjectCreate(columnPattern, StandardColumnClass);
    d.AddSetNext(columnPattern, "addColumn", None);
    d.AddSetProperties(columnPattern, ["uuid"]);
    d.AddRule(columnPattern, UuidProperty("uuid", "UUID"));
    AddExpressionRules(d, columnPattern + "/printWhenExpression", JRExpressionFactoryClass,
                       "setPrintWhenExpression", true);
    ghost var base := d.rules;
    AddTableCellRules(d, columnPattern + "/tableHeader", "setTableHeader");
    AddTableCellRules(d, columnPattern + "/tableFooter", "setTableFooter");
    AddTableGroupCellRules(d, columnPattern + "/groupHeader", "addGroupHeader");
    AddTableGroupCellRules(d, columnPattern + "/groupFooter", "addGroupFooter");
    ColumnSlotsHeadRegistered(base, d.rules, ns);
    ghost var mid := d.rules;
    AddTableCellRules(d, columnPattern + "/columnHeader", "setColumnHeader");
    AddTableCellRules(d, columnPattern + "/columnFooter", "setColumnFooter");
    AddTableCellRules(d, columnPattern + "/detailCell", "setDetailCell");
    ColumnSlotsTailRegistered(base, mid, d.rules, ns);
    ColumnRegistered(start, base, d.rules, ColumnPattern, StandardColumnClass, ColumnSlots, ns);
    ghost var afterColumn := d.rules;

    var columnGroupPattern := "*/columnGroup";
    d.AddObjectCreate(columnGroupPattern, StandardColumnGroupClass);
    d.AddSetNext(columnGroupPattern, "addColumn", None);
    d.AddSetProperties(columnGroupPattern, ["uuid"]);
    d.AddRule(columnGroupPattern, UuidProperty("uuid", "UUID"));
    AddExpressionRules(d, columnGroupPattern + "/printWhenExpression", JRExpressionFactoryClass,
                       "setPrintWhenExpression", true);
    base := d.rules;
    AddTableCellRules(d, columnGroupPattern + "/tableHeader", "setTableHeader");
    AddTableCellRules(d, columnGroupPattern + "/tableFooter", "setTableFooter");
    AddTableGroupCellRules(d, columnGroupPattern + "/groupHeader", "addGroupHeader");
    AddTableGroupCellRules(d, columnGroupPattern + "/groupFooter", "addGroupFooter");
    AddTableCellRules(d, columnGroupPattern + "/columnHeader", "setColumnHeader");
    AddTableCellRules(d, columnGroupPattern + "/columnFooter", "setColumnFooter");
    ColumnGroupSlotsRegistered(base, d.rules, ns);
    ColumnRegistered(afterColumn, base, d.rules, ColumnGroupPattern, StandardColumnGroupClass,
                     ColumnGroupSlots, ns);
    ghost var afterGroup := d.rules;

    AddTableRowRules(d, tablePattern + "/tableHeader", "setTableHeader");
    AddTableRowRules(d, tablePattern + "/tableFooter", "setTableFooter");
    AddTableGroupRowRules(d, tablePattern + "/groupHeader", "addGroupHeader");
    AddTableGroupRowRules(d, tablePattern + "/groupFooter", "addGroupFooter");
    TableSlotsHeadRegistered(afterGroup, d.rules, ns);
    mid := d.rules;
    AddTableRowRules(d, tablePattern + "/columnHeader", "setColumnHeader");
    AddTableRowRules(d, tablePattern + "/columnFooter", "setColumnFooter");
    AddTableRowRules(d, tablePattern + "/detail", "setDetail");

    AddTableBaseCellRules(d, tablePattern + "/noData", "setNoData");
    TableSlotsTailRegistered(afterGroup, mid, d.rules, ns);
    TableRegistered(old(d.rules), afterColumn, afterGroup, d.rules, ns);
  }

  /**
   * Registers the list and table rules. The sort and icon-label component
   * digesters that the Java method calls afterwards are not part of this model.
   */
  method ConfigureDigester(d: Digester)
    modifies d
    ensures d.rules == old(d.rules) + ListRules(old(d.ns)) + TableRules(old(d.ns))
    ensures d.ns == old(d.ns)
  {
    AddListRules(d);
    AddTableRules(d);
  }
}
