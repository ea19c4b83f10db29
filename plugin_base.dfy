/** The plugin contract of the current package (`packages/boring-table-core/src/plugins/base.ts`):
    what every hook of `BoringPlugin` does when a subclass does not override it, the default
    priority, and the named priority levels. */
module PluginBase {
  import opened Values

  datatype HookName =
    | Name
    | OnMount | OnUnmount | OnScheduleUpdate | AfterScheduleUpdate
    | OnUpdateData | OnUpdateDataItem
    | OnUpdateColumns | OnUpdateColumn
    | OnUpdateEvents | OnUpdatePlugins
    | Configure | OnUpdateConfig
    | Extend | OnUpdateExtensions
    | BeforeCreateHeadRows | OnCreateHead | OnCreateHeadRow | OnCreateHeadCell | AfterCreateHeadRows
    | BeforeCreateBodyRows | OnCreateBody | OnCreateBodyRow | OnCreateBodyCell | AfterCreateBodyRows
    | BeforeCreateFooterRows | OnCreateFooter | OnCreateFooterRow | OnCreateFooterCell | AfterCreateFooterRows
    | OnReset
    | OnUpdateCustomBody
    | OnUpdateBodyRows | OnUpdateBodyRow | OnUpdateBodyCell
    | OnUpdateHeadRows | OnUpdateHeadRow | OnUpdateHeadCell
    | OnUpdateFooterRows | OnUpdateFooterRow | OnUpdateFooterCell

  /** What calling a hook does: return nothing, return a plain object, or throw. */
  datatype Outcome = NoValue | Returns(bag: Bag) | Throws(message: string)

  /** The hooks whose default returns `{}`: `extend` and the creation hooks. */
  predicate ReturnsObjectByDefault(h: HookName) {
    h in {Extend, OnCreateHead, OnCreateHeadRow, OnCreateHeadCell,
          OnCreateBody, OnCreateBodyRow, OnCreateBodyCell,
          OnCreateFooter, OnCreateFooterRow, OnCreateFooterCell}
  }

  /** The base class's behaviour for each hook. */
  function Default(h: HookName): (o: Outcome)
    ensures o.Throws? <==> h == Name || h == Configure
    ensures o.Returns? <==> ReturnsObjectByDefault(h)
    ensures o.Returns? ==> o.bag == map[]
    ensures o.NoValue? <==> !(o.Throws? || ReturnsObjectByDefault(h))
  {
    match h
    case Name => Throws("Plugin must override \"name\"")
    case Configure => Throws("Plugin must override \"configure\"")
    case _ => if ReturnsObjectByDefault(h) then Returns(map[]) else NoValue
  }

  /** A subclass: the hooks it overrides, with what they do, and its `priority` field. */
  datatype Plugin = Plugin(overrides: map<HookName, Outcome>, priority: int)

  /** `priority = 0` unless a subclass assigns it. */
  const DefaultPriority: int := 0

  /** A subclass that overrides nothing. */
  function Bare(): (p: Plugin)
    ensures p.priority == DefaultPriority && p.overrides == map[]
  {
    Plugin(map[], DefaultPriority)
  }

  /** Calling hook `h` on plugin `p`: the override if there is one, else the default. */
  function Call(p: Plugin, h: HookName): (o: Outcome)
    ensures h !in p.overrides ==> o == Default(h)
    ensures h in p.overrides ==> o == p.overrides[h]
  {
    if h in p.overrides then p.overrides[h] else Default(h)
  }

  /** What a hook's result adds to an object spread: `{ ...acc, ...undefined }` adds nothing. */
  function Contribution(o: Outcome): (b: Bag)
    requires !o.Throws?
    ensures o.Returns? ==> b == o.bag
    ensures o.NoValue? ==> b == map[]
  {
    if o.Returns? then o.bag else map[]
  }

  /** A plugin whose `name` and `configure` do not throw overrides both. */
  lemma MustOverrideNameAndConfigure(p: Plugin)
    requires !Call(p, Name).Throws? && !Call(p, Configure).Throws?
    ensures Name in p.overrides && Configure in p.overrides
  {
  }

  /** Every hook a plugin leaves alone, other than `name` and `configure`, is harmless: it does
      not throw, and merging its result into an accumulator leaves the accumulator as it was. */
  lemma InheritedHooksAreInert(p: Plugin, h: HookName, acc: Bag)
    requires h !in p.overrides && h != Name && h != Configure
    ensures !Call(p, h).Throws?
    ensures Merge([acc, Contribution(Call(p, h))]) == acc
  {
    var c := Contribution(Call(p, h));
    assert c == map[];
    assert [acc, c][..1] == [acc];
    assert [acc][..0] == [];
    assert Merge([acc]) == acc;
    assert acc + c == acc;
  }

  /** `BASE_PRIORITIES`. */
  const ShouldBeFirst: int := 0
  const Highest: int := 10
  const DefaultLevel: int := 100
  const Lowest: int := 1000
  const ShouldBeLast: int := 10000
}
