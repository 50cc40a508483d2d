# Component rule registration of JasperReports

This project models how JasperReports' `ComponentsXmlDigesterConfigurer` sets up the Commons Digester rules. These rules later turn the XML of the list and table components into design objects. The configurer builds the table one call at a time. Every `digester.addObjectCreate`, `addSetProperties`, `addRule`, `addSetNext`, `addCallMethod` and `addFactoryCreate` appends one rule on an element pattern. Each rule is stamped with the rule namespace URI in force when it is added. `addExpressionRules` and `addItemRules` also change that namespace.

The model has three layers:

- **`CommonsDigester`** (`digester.dfy`) covers the part of the digester the configurer can see: a class `Digester` with the ordered rule table `rules` and the current rule namespace `ns`. `None` stands for the `null` namespace. Each `add…` method appends one stamped `Rule`. The module also defines `RulesFor(rs, p)`, the rules registered on exactly the pattern `p`, in order. Lemmas cover how it distributes over appended blocks and how it behaves with patterns nested below a root (`Within`).
- **`ComponentsConfigurer`** (`components.dfy`) has one method per configurer method, built from the same calls in the same order. Each method is proved to append exactly the block given by a specification function (`ListRules`, `TableRules`, `CellRules`, `GroupCellRules`, `RowRules`, `GroupRowRules`, `ExpressionRules`, `BarcodeRules`, `ItemRules`). It is also proved to leave `ns` as the Java code does. The table is given a second, independent definition as data: `ColumnSlots`, `ColumnGroupSlots` and `TableSlots` list each child slot's element name, setter and kind. `TableRules` is the table-driven reading of `addTableRules`. The method's straight-line calls are proved equal to it.
- **`ConfigurerProperties`**, **`TableLayout`**, **`ConfigureLayout`** and **`RuleNamespaces`** (`properties.dfy`, `table_layout.dfy`, `configure_layout.dfy`, `namespaces.dfy`) state what the resulting table means:
  - which rules each element pattern receives, and in which order, for each block, for the whole table schema and for the list and table registered together;
  - that on or below a slot's element only that slot's block contributes;
  - that two slots, or a slot and its owner, never share a pattern;
  - that a column group has no detail cell;
  - which namespace each rule carries.

The exact values of the constants `JRXmlConstants.ATTRIBUTE_evaluationTime` (`"evaluationTime"`), `ATTRIBUTE_style` (`"style"`), `ELEMENT_valueExpression` (`"valueExpression"`) and the JasperReports namespace URI (`JRXmlWriter.JASPERREPORTS_NAMESPACE`, `http://jasperreports.sourceforge.net/jasperreports`) come from files that are not part of this model. They are written as constants in `components.dfy`.

Two facts about the code's shape are easy to misread:

- A group row's own set-properties has no exclusions and it registers no `splitType` rule (lines 276-277). Only the row nested inside it, on `…/row`, binds `splitType` (lines 261-266).
- A column has seven cell slots: five plain cells including `detailCell`, plus the group header and group footer (lines 183-189). A column group has six: the same slots without `detailCell` (lines 202-207).

## Model

| member | source | states |
|---|---|---|
| ComponentsConfigurer.AddExpressionRules | jasperreports/src/net/sf/jasperreports/components/ComponentsXmlDigesterConfigurer.java:282-300 | appends exactly three rules on the expression pattern: factory-create with the given factory, `setText` with no parameters, set-next to the setter typed `JRExpression`. They carry the JasperReports namespace when `jrNamespace` holds, else the entry namespace. The namespace on exit equals the one on entry in both cases. |
| ComponentsConfigurer.AddListRules | jasperreports/src/net/sf/jasperreports/components/ComponentsXmlDigesterConfigurer.java:86-103 | appends exactly the list block (`ListRules`) in the entry namespace, after the rules already present; the namespace is unchanged |
| ComponentsConfigurer.AddPatternExpressionRules | jasperreports/src/net/sf/jasperreports/components/ComponentsXmlDigesterConfigurer.java:105-113 | appends the expression rules of `…/patternExpression` with setter `setPatternExpression`, in the namespace in force; the namespace is unchanged |
| ComponentsConfigurer.AddBarcodeRules | jasperreports/src/net/sf/jasperreports/components/ComponentsXmlDigesterConfigurer.java:115-136 | appends the barcode block (`BarcodeRules`) for the given class and ignored attributes; the namespace is unchanged |
| ComponentsConfigurer.AddTemplateRules | jasperreports/src/net/sf/jasperreports/components/ComponentsXmlDigesterConfigurer.java:138-146 | appends the expression rules of `…/templateExpression` with setter `setTemplateExpression`, in the namespace in force; the namespace is unchanged |
| ComponentsConfigurer.AddItemRules | jasperreports/src/net/sf/jasperreports/components/ComponentsXmlDigesterConfigurer.java:148-163 | appends the item and item-property rules stamped with the entry namespace, then the value-expression rules stamped with `namespace`. On exit the namespace is `namespace`: it is not restored. |
| ComponentsConfigurer.AddTableRules | jasperreports/src/net/sf/jasperreports/components/ComponentsXmlDigesterConfigurer.java:166-218 | the straight-line calls append exactly `TableRules`, the table-driven schema: the factory rule, the column, the column group, then the table's slots; the namespace is unchanged |
| ComponentsConfigurer.AddTableBaseCellRules | jasperreports/src/net/sf/jasperreports/components/ComponentsXmlDigesterConfigurer.java:220-232 | appends the five cell rules with class `DesignBaseCell`, in source order; the namespace is unchanged |
| ComponentsConfigurer.AddTableCellRules | jasperreports/src/net/sf/jasperreports/components/ComponentsXmlDigesterConfigurer.java:234-246 | appends the five cell rules with class `DesignCell`, in source order; the namespace is unchanged |
| ComponentsConfigurer.AddTableGroupCellRules | jasperreports/src/net/sf/jasperreports/components/ComponentsXmlDigesterConfigurer.java:248-255 | appends the group-cell block (`GroupCellRules`): own object-create and set-properties, the cell block on `…/cell`, then its own set-next; the namespace is unchanged |
| ComponentsConfigurer.AddTableRowRules | jasperreports/src/net/sf/jasperreports/components/ComponentsXmlDigesterConfigurer.java:257-271 | appends the row block (`RowRules`); the namespace is unchanged, although the print-when expression was registered under the JasperReports namespace |
| ComponentsConfigurer.AddTableGroupRowRules | jasperreports/src/net/sf/jasperreports/components/ComponentsXmlDigesterConfigurer.java:273-280 | appends the group-row block (`GroupRowRules`): own object-create and set-properties, the row block on `…/row`, then its own set-next; the namespace is unchanged |
| ComponentsConfigurer.ConfigureDigester | jasperreports/src/net/sf/jasperreports/components/ComponentsXmlDigesterConfigurer.java:77-81 | appends the list rules, then the table rules, both in the entry namespace; the namespace is unchanged afterwards |
| ComponentsConfigurer.ColumnSlotsHeadRegistered | jasperreports/src/net/sf/jasperreports/components/ComponentsXmlDigesterConfigurer.java:183-186 | the column's table header, table footer, group header and group footer calls append the blocks of the first four entries of `ColumnSlots` |
| ComponentsConfigurer.ColumnSlotsTailRegistered | jasperreports/src/net/sf/jasperreports/components/ComponentsXmlDigesterConfigurer.java:187-189 | the column header, column footer and detail cell calls complete the blocks of `ColumnSlots` |
| ComponentsConfigurer.ColumnGroupSlotsRegistered | jasperreports/src/net/sf/jasperreports/components/ComponentsXmlDigesterConfigurer.java:202-207 | the column group's six cell calls append exactly the blocks of `ColumnGroupSlots` |
| ComponentsConfigurer.TableSlotsHeadRegistered | jasperreports/src/net/sf/jasperreports/components/ComponentsXmlDigesterConfigurer.java:209-212 | the table header and footer row calls and the group header and footer group-row calls append the blocks of the first four entries of `TableSlots` |
| ComponentsConfigurer.TableSlotsTailRegistered | jasperreports/src/net/sf/jasperreports/components/ComponentsXmlDigesterConfigurer.java:213-217 | the column header, column footer and detail row calls, then the no-data base cell, complete the blocks of `TableSlots` |
| ComponentsConfigurer.SlotsRulesAppend | jasperreports/src/net/sf/jasperreports/components/ComponentsXmlDigesterConfigurer.java:183-189 | the blocks of two slot lists, one after the other, are the blocks of the joined slot list |
| ConfigurerProperties.ExpressionLayout | jasperreports/src/net/sf/jasperreports/components/ComponentsXmlDigesterConfigurer.java:291-294 | the expression element receives all three expression rules, and every other pattern receives none of them; each rule carries the requested stamp |
| ConfigurerProperties.GroupCellLayout | jasperreports/src/net/sf/jasperreports/components/ComponentsXmlDigesterConfigurer.java:248-255 | the group cell element receives exactly object-create `StandardGroupCell`, set-properties with no exclusions and set-next with the given method. `…/cell` receives exactly the `DesignCell` block attached with `setCell`. That block sits at positions 2 to 6, and the group's set-next comes last. |
| ConfigurerProperties.RowLayout | jasperreports/src/net/sf/jasperreports/components/ComponentsXmlDigesterConfigurer.java:257-271 | the row element receives exactly four rules: object-create `StandardRow`, set-properties ignoring only `splitType`, the `splitType` constant rule over `SplitTypeEnum`, and set-next. `…/printWhenExpression` receives exactly the expression rules, in the JasperReports namespace whatever the row's namespace. |
| ConfigurerProperties.GroupRowLayout | jasperreports/src/net/sf/jasperreports/components/ComponentsXmlDigesterConfigurer.java:273-280 | the group row element receives exactly object-create `StandardGroupRow`, set-properties with no exclusions and its set-next. `…/row` receives exactly the row's own rules attached with `setRow`. `…/row/printWhenExpression` receives exactly the print-when rules. |
| ConfigurerProperties.GroupRowAt | jasperreports/src/net/sf/jasperreports/components/ComponentsXmlDigesterConfigurer.java:273-280 | for any pattern, the group row block hands out its own head rules, the row's own rules, the print-when rules and its own set-next, in that order, each only when the pattern is the one that part sits on |
| ConfigurerProperties.GroupRowOrder | jasperreports/src/net/sf/jasperreports/components/ComponentsXmlDigesterConfigurer.java:276-279 | the group row block has ten rules: the whole row block sits at positions 2 to 8, and the group row's own set-next is the last rule |
| ConfigurerProperties.ListLayout | jasperreports/src/net/sf/jasperreports/components/ComponentsXmlDigesterConfigurer.java:86-103 | the list element receives exactly object-create `StandardListComponent`, set-properties ignoring only `printOrder`, and the `printOrder` → `printOrderValue` constant rule over `PrintOrderEnum`. `…/listContents` receives exactly object-create `DesignListContents`, set-properties, set-next `setContents` and the dataset-run context rule for `ListComponent`. |
| ConfigurerProperties.BarcodeLayout | jasperreports/src/net/sf/jasperreports/components/ComponentsXmlDigesterConfigurer.java:115-136 | the barcode element receives exactly the object-create, the set-properties with the given exclusions and the evaluation-time constant rule. `…/codeExpression` receives exactly the code expression rules. Every rule, the expression's included, carries the namespace in force. |
| ConfigurerProperties.ItemLayout | jasperreports/src/net/sf/jasperreports/components/ComponentsXmlDigesterConfigurer.java:148-163 | the item element receives exactly the item factory and set-next typed `Item`. `…/itemProperty` receives exactly the item-property factory and `addItemProperty`, both in the entry namespace. `…/itemProperty/valueExpression` receives exactly the value-expression rules, stamped with `namespace`. |
| TableLayout.ColumnSlotsValid | jasperreports/src/net/sf/jasperreports/components/ComponentsXmlDigesterConfigurer.java:183-189 | the column's slot names are single path steps, pairwise distinct, and none is `printWhenExpression` |
| TableLayout.ColumnGroupSlotsValid | jasperreports/src/net/sf/jasperreports/components/ComponentsXmlDigesterConfigurer.java:202-207 | the column group's slot names are single path steps, pairwise distinct, and none is `printWhenExpression` |
| TableLayout.TableSlotsValid | jasperreports/src/net/sf/jasperreports/components/ComponentsXmlDigesterConfigurer.java:209-217 | the table's slot names are single path steps, pairwise distinct, and none is `printWhenExpression` |
| TableLayout.SlotsOwn | jasperreports/src/net/sf/jasperreports/components/ComponentsXmlDigesterConfigurer.java:183-189 | among distinct single-step slots, slot `i`'s element receives exactly that slot's own rules; the other slots' blocks contribute nothing to it |
| TableLayout.SlotsAt | jasperreports/src/net/sf/jasperreports/components/ComponentsXmlDigesterConfigurer.java:183-189 | among distinct single-step slots, on slot `i`'s element or anywhere below it the slot list registers exactly what slot `i` registers there; the other slots contribute nothing |
| TableLayout.ColumnLayout | jasperreports/src/net/sf/jasperreports/components/ComponentsXmlDigesterConfigurer.java:172-189 | for any column-like owner with valid slots: the owner element receives exactly its own four rules, its print-when element exactly the print-when rules, and every slot element exactly that slot's own rules |
| TableLayout.ColumnSlotAt | jasperreports/src/net/sf/jasperreports/components/ComponentsXmlDigesterConfigurer.java:172-189 | on or below the element of a column-like owner's slot `i`, the owner's block registers exactly what that slot registers there: the owner's own rules and print-when rules contribute nothing |
| TableLayout.ColumnAbsent | jasperreports/src/net/sf/jasperreports/components/ComponentsXmlDigesterConfigurer.java:191-207 | a child element (one path step) that is neither one of the owner's slots nor its print-when expression receives no rule from the owner's block |
| TableLayout.TableHead | jasperreports/src/net/sf/jasperreports/components/ComponentsXmlDigesterConfigurer.java:168-170 | in the whole table schema, the table element receives only the `StandardTableFactory` factory rule |
| TableLayout.TableColumnHead | jasperreports/src/net/sf/jasperreports/components/ComponentsXmlDigesterConfigurer.java:172-182 | in the whole table schema, `*/column` receives exactly its four own rules: object-create, set-next `addColumn`, set-properties ignoring `uuid`, and the `uuid` → `UUID` rule. `*/column/printWhenExpression` receives exactly the print-when rules in the JasperReports namespace. |
| TableLayout.TableColumnSlots | jasperreports/src/net/sf/jasperreports/components/ComponentsXmlDigesterConfigurer.java:183-189 | in the whole table schema, each of the column's seven slot elements receives exactly that slot's own rules |
| TableLayout.TableColumnDetail | jasperreports/src/net/sf/jasperreports/components/ComponentsXmlDigesterConfigurer.java:189 | `*/column/detailCell` receives exactly the `DesignCell` block attached with `setDetailCell` |
| TableLayout.TableColumnGroupHead | jasperreports/src/net/sf/jasperreports/components/ComponentsXmlDigesterConfigurer.java:191-201 | in the whole table schema, `*/columnGroup` receives the same four own rules as a column, with its own class. Its print-when element receives exactly the print-when rules. |
| TableLayout.TableColumnGroupSlots | jasperreports/src/net/sf/jasperreports/components/ComponentsXmlDigesterConfigurer.java:202-207 | in the whole table schema, each of the column group's six slot elements receives exactly that slot's own rules |
| TableLayout.TableColumnGroupNoDetail | jasperreports/src/net/sf/jasperreports/components/ComponentsXmlDigesterConfigurer.java:202-207 | `*/columnGroup/detailCell` receives no rule at all: a column group has no detail cell |
| TableLayout.TableRowSlots | jasperreports/src/net/sf/jasperreports/components/ComponentsXmlDigesterConfigurer.java:209-217 | in the whole table schema, each of the table's eight slot elements (five rows, two group rows, the no-data cell) receives exactly that slot's own rules |
| TableLayout.TableNoData | jasperreports/src/net/sf/jasperreports/components/ComponentsXmlDigesterConfigurer.java:217 | `*/componentElement/table/noData` receives exactly the `DesignBaseCell` block attached with `setNoData` |
| TableLayout.TableRowSlotAt | jasperreports/src/net/sf/jasperreports/components/ComponentsXmlDigesterConfigurer.java:209-217 | in the whole table schema, on or below the element of table slot `i` the table registers exactly what that slot registers there |
| TableLayout.TableColumnSlotAt | jasperreports/src/net/sf/jasperreports/components/ComponentsXmlDigesterConfigurer.java:183-189 | in the whole table schema, on or below the element of column slot `i` the table registers exactly what that slot registers there |
| TableLayout.TableColumnGroupSlotAt | jasperreports/src/net/sf/jasperreports/components/ComponentsXmlDigesterConfigurer.java:202-207 | in the whole table schema, on or below the element of column-group slot `i` the table registers exactly what that slot registers there |
| TableLayout.TableGroupHeaderRow | jasperreports/src/net/sf/jasperreports/components/ComponentsXmlDigesterConfigurer.java:211 | `*/componentElement/table/groupHeader/row` receives exactly a row's own four rules attached with `setRow`, and its `…/printWhenExpression` exactly the print-when rules |
| TableLayout.TableHeaderPrintWhen | jasperreports/src/net/sf/jasperreports/components/ComponentsXmlDigesterConfigurer.java:209 | `*/componentElement/table/tableHeader/printWhenExpression` receives exactly the print-when rules of the table header row |
| TableLayout.ColumnGroupHeaderCell | jasperreports/src/net/sf/jasperreports/components/ComponentsXmlDigesterConfigurer.java:185 | `*/column/groupHeader/cell` receives exactly the `DesignCell` block attached with `setCell` |
| ConfigureLayout.ListWithin | jasperreports/src/net/sf/jasperreports/components/ComponentsXmlDigesterConfigurer.java:86-103 | every list rule sits on the list element or below it |
| ConfigureLayout.TableOffList | jasperreports/src/net/sf/jasperreports/components/ComponentsXmlDigesterConfigurer.java:166-218 | the table schema registers nothing on the list element or below it |
| ConfigureLayout.ConfigureAt | jasperreports/src/net/sf/jasperreports/components/ComponentsXmlDigesterConfigurer.java:77-80 | for every pattern, the list-then-table registration gives the list's rules when the pattern lies within the list element and the table's rules otherwise: the two never mix |
| ConfigureLayout.ConfigureTablePart | jasperreports/src/net/sf/jasperreports/components/ComponentsXmlDigesterConfigurer.java:77-80 | on the table, column and column-group patterns and below them, the list-then-table registration gives exactly the table schema's rules |
| ConfigureLayout.ConfigureHeads | jasperreports/src/net/sf/jasperreports/components/ComponentsXmlDigesterConfigurer.java:77-80 | after the list and table rules, the list element and `…/listContents` receive exactly the list's rules, and the table element only the `StandardTableFactory` rule |
| ConfigureLayout.ConfigureTableSlots | jasperreports/src/net/sf/jasperreports/components/ComponentsXmlDigesterConfigurer.java:77-80 | after the list and table rules, each of the table's eight slot elements receives exactly that slot's own rules |
| ConfigureLayout.ConfigureColumnSlots | jasperreports/src/net/sf/jasperreports/components/ComponentsXmlDigesterConfigurer.java:77-80 | after the list and table rules, each of the column's seven slot elements receives exactly that slot's own rules |
| ConfigureLayout.ConfigureGroupHeaderRow | jasperreports/src/net/sf/jasperreports/components/ComponentsXmlDigesterConfigurer.java:77-80 | after the list and table rules, `…/table/groupHeader/row` receives exactly a row's own rules attached with `setRow` |
| ConfigureLayout.ConfigureHeaderPrintWhen | jasperreports/src/net/sf/jasperreports/components/ComponentsXmlDigesterConfigurer.java:77-80 | after the list and table rules, `…/table/tableHeader/printWhenExpression` receives exactly the print-when rules |
| ConfigureLayout.ConfigureGroupHeaderCell | jasperreports/src/net/sf/jasperreports/components/ComponentsXmlDigesterConfigurer.java:77-80 | after the list and table rules, `*/column/groupHeader/cell` receives exactly the `DesignCell` block attached with `setCell` |
| RuleNamespaces.RowStamps | jasperreports/src/net/sf/jasperreports/components/ComponentsXmlDigesterConfigurer.java:257-271 | every rule of a row block carries the row's namespace, except the print-when expression rules, which carry the JasperReports namespace |
| RuleNamespaces.ColumnStamps | jasperreports/src/net/sf/jasperreports/components/ComponentsXmlDigesterConfigurer.java:172-207 | every rule of a column or column group block carries the namespace in force, except the print-when expression rules at any depth, which carry the JasperReports namespace |
| RuleNamespaces.TableStamps | jasperreports/src/net/sf/jasperreports/components/ComponentsXmlDigesterConfigurer.java:166-218 | every rule of the table schema carries the namespace in force, except the expression rules, which all carry the JasperReports namespace |
| RuleNamespaces.ListStamps | jasperreports/src/net/sf/jasperreports/components/ComponentsXmlDigesterConfigurer.java:86-103 | every list rule carries the namespace in force |
| RuleNamespaces.ConfigureStamps | jasperreports/src/net/sf/jasperreports/components/ComponentsXmlDigesterConfigurer.java:77-81 | everything the configurer registers carries the entry namespace, except the print-when expression rules, which carry the JasperReports namespace |

## Left out

- JRImageRenderer is not part of this model. It is image loading, caching, repository access and drawing, with nothing of the rule registration in it.
- The runtime side of Commons Digester is not modelled. That covers matching patterns against the element stack, wildcard matching, the object stack and when rules fire. `RulesFor` is exact pattern equality over the registered table, not the digester's matcher.
- The rule and factory classes are recorded only as tagged actions with their constructor arguments: `XmlConstantPropertyRule`, `UuidPropertyRule`, `DatasetRunReportContextRule`, `StyleContainerRule`, `JRExpressionFactory`, `StandardTableFactory`, `ItemXmlFactory` and `ItemPropertyXmlFactory`. Enum lookup failures, UUID parsing and dataset-context inheritance are not modelled.
- ConfigureDigester: the calls to `SortComponentDigester.addSortComponentRules` and `IconLabelComponentDigester.addIconLabelComponentRules` (lines 82-83) are not modelled. Their code is not part of this model, so the contract says nothing about the rules they add or their effect on the namespace.
- Java `Class` objects and the enum `values()` arrays passed to the rules are given by class name.
- The empty property-name array of the three-argument `addSetProperties` is implicit in `SetProperties(ignored)`. The generic type parameters of the Java methods are not modelled.
- The constants `BARCODE4J_IGNORED_PROPERTIES` and `QRCODE_IGNORED_PROPERTIES` (lines 68-75) are private and nothing in the class reads them. They have no users, so the model leaves them out.
