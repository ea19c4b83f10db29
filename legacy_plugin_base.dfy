/** The plugin contract of the older engine (`src/plugins/base.ts`). Unlike the package's base
    class, nothing here throws: every hook either does nothing or returns `{}`. The engine
    (`LegacyTable`) sees a plugin as the record `Plugin` of what its hooks return. */
module LegacyPluginBase {
  import opened Values
  import PluginBase

  /** The three sections of a table, and the `from` argument that restricts a rebuild to one. */
  datatype Section = Head | Body | Footer

  datatype LegacyHook =
    | LegacyConfigure | LegacyOnUpdateData | LegacyOnMount | LegacyOnReset | LegacyExtend
    | LegacyOnCreateHeadRow | LegacyOnCreateHeadCell
    | LegacyOnCreateBodyRow | LegacyOnCreateBodyCell
    | LegacyOnCreateFooterRow | LegacyOnCreateFooterCell
    | LegacyBeforeCreate | LegacyAfterCreate

  /** The older base class's behaviour for each hook. */
  function LegacyDefault(h: LegacyHook): (o: PluginBase.Outcome)
    ensures !o.Throws?
    ensures o.NoValue? <==> h in {LegacyOnUpdateData, LegacyBeforeCreate, LegacyAfterCreate}
    ensures o.Returns? ==> o.bag == map[]
  {
    match h
    case LegacyOnUpdateData => PluginBase.NoValue
    case LegacyBeforeCreate => PluginBase.NoValue
    case LegacyAfterCreate => PluginBase.NoValue
    case _ => PluginBase.Returns(map[])
  }

  /** A plugin as the engine calls it: the objects `configure(table)` and `extend()` return,
      and the creation hooks as functions from the row or cell handed in to the extra fields. */
  datatype Plugin = Plugin(
    configured: Bag,
    extension: Bag,
    headRow: Bag -> Bag, bodyRow: Bag -> Bag, footerRow: Bag -> Bag,
    headCell: Bag -> Bag, bodyCell: Bag -> Bag, footerCell: Bag -> Bag)

  function RowHook(p: Plugin, s: Section): Bag -> Bag {
    match s
    case Head => p.headRow
    case Body => p.bodyRow
    case Footer => p.footerRow
  }

  function CellHook(p: Plugin, s: Section): Bag -> Bag {
    match s
    case Head => p.headCell
    case Body => p.bodyCell
    case Footer => p.footerCell
  }

  /** A plugin that overrides nothing, built from the defaults. */
  function Base(): (p: Plugin)
    ensures p.configured == map[] && p.extension == map[]
    ensures forall s: Section, b: Bag :: RowHook(p, s)(b) == map[] && CellHook(p, s)(b) == map[]
  {
    var none := (b: Bag) => map[];
    Plugin(PluginBase.Contribution(LegacyDefault(LegacyConfigure)), PluginBase.Contribution(LegacyDefault(LegacyExtend)),
           none, none, none, none, none, none)
  }
}
