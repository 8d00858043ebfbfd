# Valence UI configurator and the Intacct target configurator

This project models the plugin contract of the Valence data-integration UI and
one plugin built on it.

`ValenceUIConfigurator` is the base every configuration screen extends. It
holds four property slots: `link`, `schema`, `mapping` and `configuration`.
Each setter stores its value and then runs the matching optional lifecycle
hook (`onSetLink`, `onSetSchema`, `onSetMapping`, `onSetConfiguration`) when
the plugin defines it. The configuration setter normalises its input: an
absent, falsy or key-less value is replaced by the plugin's
`getDefaultShape()`, anything else by a structural copy. `configUpdated()`
sends exactly one `updateconfig` event `{newValue, isValid}` to the host.
Constructing a plugin fails when it lacks `getDefaultShape` or `computeValid`.

`IntacctAdapterTargetConfigurator` is a concrete plugin. When a schema arrives
it derives two picklists:
- `keyFields`: one option per top-level `Target` child, sorted by value.
- `writebackFields`: the pinned `--noSelection--` option, then one option per
  editable top-level `Source` child, sorted by value.

Its `keyChange` and `writebackChange` handlers write `keyField` or
`writebackField` into the configuration and announce the result. Its default
configuration is `{keyField: 'RECORDNO', writebackField: null}`, and every
configuration is valid.

Files:
- `wrappers.dfy`: `Option` and `Result`.
- `json.dfy`: the JSON-like values held in the slots, truthiness,
  `Object.keys(...).length`, the structural copy, and property reads and writes.
- `schema_tree.dfy`: the schema tree with its `Source` and `Target` branches,
  and the values a host may assign to the `schema` slot.
- `string_order.dfy`: `localeCompare` abstracted as lexicographic order on
  character codes, proved a total order.
- `selection_options.dfy`: label formatting, per-node options, the editable
  filter, the insertion sort by value, the pinned sort, and the two picklists as
  functions of the schema with their correctness lemmas.
- `valence_ui_configurator.dfy`: the base class, configuration
  normalisation, and construction with its contract checks.
- `intacct_adapter_target_configurator.dfy`: the concrete plugin.

How the model is put together:
- Dafny classes here do not inherit, so the subclass holds its base part as
  `base`. A base setter stores the value and returns the hook the plugin
  defines, if any. The subclass then runs its own override of that hook in
  `RunHook`. The hook therefore runs once, after the store, and only if it is
  defined.
- A plugin's methods are described by a `Plugin` value. The two required
  methods and `tweakConfiguration` are `Option`s, and the defined hooks are a
  set. `computeValid` and `tweakConfiguration` are functions of the
  configuration.
- Dispatching an event appends its payload to the `outbox` sequence.
- Configurations are immutable values, so the deep copy is a value copy.
  `DeepCopyIsIdentity` proves that the explicit copy equals its input.

Where the specification and the code differ, the model follows the code:
- The specification says that constructing the base directly raises an
  instantiation error. The guard at
  `valenceUIConfigurator.js:36` compares `new.target` with a string, so it
  never fires. The model does not raise there. A bare base still fails
  construction, because it has no `getDefaultShape`: `Instantiate` returns
  `MissingGetDefaultShape`.
- The specification says that `onSetSchema` does nothing when no schema is
  present. In the code, the log line at
  `intacctAdapterTargetConfigurator.js:20` first copies the schema through
  `JSON.parse(JSON.stringify(...))`. For `undefined` that throws a
  `SyntaxError` before the guard at line 22 is reached. The model follows the
  code: `OnSetSchema` and `SetSchema` report the error for `Undefined`, after
  the schema has been stored, with both picklists unchanged. Other falsy
  values (`null`, `false`, `0`, `""`) reach the guard and change nothing.
- The specification says the live configuration never shares a reference with
  what the host receives. `configUpdated` in fact sends the live object. The
  value model cannot show this aliasing (see "Left out").

## Model

| member | source | states |
|---|---|---|
| `Json.DeepCopyIsIdentity` | force-app/main/default/lwc/valenceUIConfigurator/valenceUIConfigurator.js:92 | the structural copy of a configuration equals the original, so a stored copy is structurally equal to the input |
| `Json.SetField` | force-app/main/default/lwc/intacctAdapterTargetConfigurator/intacctAdapterTargetConfigurator.js:54 | writing one property of an object makes that property read back as the new value and leaves every other property's value as it was |
| `StringOrder.LeqTotal` | force-app/main/default/lwc/intacctAdapterTargetConfigurator/intacctAdapterTargetConfigurator.js:32 | any two strings are comparable under the order that stands for `localeCompare` |
| `StringOrder.LeqTransitive` | force-app/main/default/lwc/intacctAdapterTargetConfigurator/intacctAdapterTargetConfigurator.js:32 | the string order is transitive |
| `StringOrder.LeqAntisymmetric` | force-app/main/default/lwc/intacctAdapterTargetConfigurator/intacctAdapterTargetConfigurator.js:32 | two strings ordered both ways are equal |
| `StringOrder.LeqReflexive` | force-app/main/default/lwc/intacctAdapterTargetConfigurator/intacctAdapterTargetConfigurator.js:32 | every string is ordered before itself |
| `ValenceUI.NormalizeConfiguration` | force-app/main/default/lwc/valenceUIConfigurator/valenceUIConfigurator.js:92 | undefined, null and key-less input give the default shape; input with at least one own key is stored structurally equal to itself |
| `ValenceUI.NormalizeConfigurationIdempotent` | force-app/main/default/lwc/valenceUIConfigurator/valenceUIConfigurator.js:86-92 | handing the stored configuration back to the setter, as on "Discard Changes", stores the same value, provided the default shape has keys |
| `ValenceUI.ValenceUIConfigurator.constructor` | force-app/main/default/lwc/valenceUIConfigurator/valenceUIConfigurator.js:28-47 | a conforming plugin starts with empty `link`, `mapping` and `configuration` objects, a schema that is not a tree, and no event sent |
| `ValenceUI.ValenceUIConfigurator.SetLink` | force-app/main/default/lwc/valenceUIConfigurator/valenceUIConfigurator.js:49-58 | `link` reads back as the assigned value; the other three slots and the outbox are unchanged; `onSetLink` is dispatched exactly when the plugin defines it |
| `ValenceUI.ValenceUIConfigurator.SetSchema` | force-app/main/default/lwc/valenceUIConfigurator/valenceUIConfigurator.js:60-69 | `schema` reads back as the assigned value; the other slots and the outbox are unchanged; `onSetSchema` is dispatched exactly when defined |
| `ValenceUI.ValenceUIConfigurator.SetMapping` | force-app/main/default/lwc/valenceUIConfigurator/valenceUIConfigurator.js:71-80 | `mapping` reads back as the assigned value; the other slots and the outbox are unchanged; `onSetMapping` is dispatched exactly when defined |
| `ValenceUI.ValenceUIConfigurator.SetConfiguration` | force-app/main/default/lwc/valenceUIConfigurator/valenceUIConfigurator.js:82-96 | the stored configuration is the normalised input; the other slots and the outbox are unchanged; `onSetConfiguration` is dispatched exactly when defined |
| `ValenceUI.ValenceUIConfigurator.WriteConfigurationField` | force-app/main/default/lwc/intacctAdapterTargetConfigurator/intacctAdapterTargetConfigurator.js:54 | a plugin writing one property of the live configuration changes only that property, sends no event and touches no other slot |
| `ValenceUI.ValenceUIConfigurator.ConfigUpdated` | force-app/main/default/lwc/valenceUIConfigurator/valenceUIConfigurator.js:98-105 | appends exactly one event: `newValue` is `tweakConfiguration` of the configuration when defined, else the configuration; `isValid` is `computeValid`; no slot changes |
| `ValenceUI.Instantiate` | force-app/main/default/lwc/valenceUIConfigurator/valenceUIConfigurator.js:33-47 | construction succeeds exactly when both required methods exist; a missing `getDefaultShape` is reported first, then a missing `computeValid` |
| `SelectionOptions.PrettyFieldLabel` | force-app/main/default/lwc/intacctAdapterTargetConfigurator/intacctAdapterTargetConfigurator.js:45-47 | the label starts with the name; it is the name alone exactly when the field label is empty or equal to the name; otherwise the name is followed by ` (label)` |
| `SelectionOptions.PrettyFieldLabelExamples` | force-app/main/default/lwc/intacctAdapterTargetConfigurator/intacctAdapterTargetConfigurator.js:45-47 | `Name`/`Name` gives `Name`; `Name`/empty gives `Name`; `Name`/`Full Name` gives `Name (Full Name)` |
| `SelectionOptions.Options` | force-app/main/default/lwc/intacctAdapterTargetConfigurator/intacctAdapterTargetConfigurator.js:28-31 | one option per node, in node order, with value the field name and label the pretty label |
| `SelectionOptions.EditableNodesCount` | force-app/main/default/lwc/intacctAdapterTargetConfigurator/intacctAdapterTargetConfigurator.js:36-41 | the editable filter keeps each editable node as many times as it occurs and no non-editable node |
| `SelectionOptions.EditableOptionsMembership` | force-app/main/default/lwc/intacctAdapterTargetConfigurator/intacctAdapterTargetConfigurator.js:36-41 | an option is pushed for the `Source` children exactly when some editable child yields it |
| `SelectionOptions.InsertByValue` | force-app/main/default/lwc/intacctAdapterTargetConfigurator/intacctAdapterTargetConfigurator.js:32 | inserting into a sorted list keeps it sorted and adds exactly that option |
| `SelectionOptions.SortByValue` | force-app/main/default/lwc/intacctAdapterTargetConfigurator/intacctAdapterTargetConfigurator.js:32 | the sort by value returns a list sorted ascending by value that is a permutation of its input |
| `SelectionOptions.PinnedSort` | force-app/main/default/lwc/intacctAdapterTargetConfigurator/intacctAdapterTargetConfigurator.js:42 | the first option stays first, the rest is sorted ascending by value, and the result is a permutation of the input |
| `SelectionOptions.LocaleCompare` | force-app/main/default/lwc/intacctAdapterTargetConfigurator/intacctAdapterTargetConfigurator.js:32 | zero exactly for equal strings, negative only when the first orders first, positive only when the second orders strictly first |
| `SelectionOptions.WritebackComparatorInconsistent` | force-app/main/default/lwc/intacctAdapterTargetConfigurator/intacctAdapterTargetConfigurator.js:42 | for any option whose value orders before `--noSelection--`, the comparator as written calls each of it and the sentinel smaller than the other |
| `SelectionOptions.WritebackComparatorCounterexample` | force-app/main/default/lwc/intacctAdapterTargetConfigurator/intacctAdapterTargetConfigurator.js:42 | a field with an empty name, which orders before the sentinel under any collation, shows the inconsistency |
| `SelectionOptions.KeyFieldOptionsCorrect` | force-app/main/default/lwc/intacctAdapterTargetConfigurator/intacctAdapterTargetConfigurator.js:27-32 | `keyFields` has one entry per top-level `Target` child, is sorted ascending by value, is a permutation of the children's options, and holds an option exactly when some child yields it |
| `SelectionOptions.WritebackFieldOptionsCorrect` | force-app/main/default/lwc/intacctAdapterTargetConfigurator/intacctAdapterTargetConfigurator.js:35-42 | `writebackFields` starts with the sentinel, has length one plus the number of editable `Source` children, and its tail is sorted by value, a permutation of the editable children's options, and holds an option exactly when an editable child yields it |
| `IntacctAdapter.DefaultShape` | force-app/main/default/lwc/intacctAdapterTargetConfigurator/intacctAdapterTargetConfigurator.js:67-69 | an object of exactly two members: `keyField` is `RECORDNO` and `writebackField` is null |
| `IntacctAdapter.ComputeValid` | force-app/main/default/lwc/intacctAdapterTargetConfigurator/intacctAdapterTargetConfigurator.js:71-73 | every configuration is valid |
| `IntacctAdapter.WritebackValue` | force-app/main/default/lwc/intacctAdapterTargetConfigurator/intacctAdapterTargetConfigurator.js:59 | the chosen value is stored as null exactly when it is `--noSelection--`, and as that string otherwise |
| `IntacctAdapter.DefaultShapeIsKept` | force-app/main/default/lwc/intacctAdapterTargetConfigurator/intacctAdapterTargetConfigurator.js:67-69 | an undefined configuration becomes the default shape, and the default shape handed back to the setter is stored unchanged |
| `IntacctAdapter.BuildKeyFields` | force-app/main/default/lwc/intacctAdapterTargetConfigurator/intacctAdapterTargetConfigurator.js:27-32 | the push loop over the `Target` children followed by the sort yields the key-field picklist |
| `IntacctAdapter.BuildWritebackFields` | force-app/main/default/lwc/intacctAdapterTargetConfigurator/intacctAdapterTargetConfigurator.js:35-42 | the sentinel, the filtered push loop over the `Source` children and the pinned sort yield the writeback picklist |
| `IntacctAdapter.IntacctAdapterTargetConfigurator.constructor` | force-app/main/default/lwc/intacctAdapterTargetConfigurator/intacctAdapterTargetConfigurator.js:7-10 | the plugin conforms to the base contract, both picklists start empty, and no event has been sent |
| `IntacctAdapter.IntacctAdapterTargetConfigurator.RunHook` | force-app/main/default/lwc/valenceUIConfigurator/valenceUIConfigurator.js:64-68 | a dispatched `onSetSchema` rebuilds both picklists from a schema tree and throws exactly when the schema is `undefined`; any other hook, or a schema that is not a tree, leaves the picklists unchanged and throws nothing |
| `IntacctAdapter.IntacctAdapterTargetConfigurator.OnSetSchema` | force-app/main/default/lwc/intacctAdapterTargetConfigurator/intacctAdapterTargetConfigurator.js:19-43 | throws a `SyntaxError` exactly when the schema is `undefined`; a schema that is not a tree leaves both picklists unchanged; a schema tree sets them to its key-field and writeback picklists |
| `IntacctAdapter.IntacctAdapterTargetConfigurator.SetLink` | force-app/main/default/lwc/valenceUIConfigurator/valenceUIConfigurator.js:53-58 | stores the link; the other slots, the picklists and the outbox are unchanged, since this plugin has no `onSetLink` |
| `IntacctAdapter.IntacctAdapterTargetConfigurator.SetSchema` | force-app/main/default/lwc/valenceUIConfigurator/valenceUIConfigurator.js:64-69 | stores the schema, then through `onSetSchema` rebuilds both picklists from a schema tree or keeps them otherwise; the error leaves the setter exactly for `undefined`, after the store; nothing else changes |
| `IntacctAdapter.IntacctAdapterTargetConfigurator.SetMapping` | force-app/main/default/lwc/valenceUIConfigurator/valenceUIConfigurator.js:75-80 | stores the mapping; the other slots, the picklists and the outbox are unchanged |
| `IntacctAdapter.IntacctAdapterTargetConfigurator.SetConfiguration` | force-app/main/default/lwc/valenceUIConfigurator/valenceUIConfigurator.js:91-96 | stores the input normalised against `{keyField: 'RECORDNO', writebackField: null}`; nothing else changes |
| `IntacctAdapter.IntacctAdapterTargetConfigurator.KeyChange` | force-app/main/default/lwc/intacctAdapterTargetConfigurator/intacctAdapterTargetConfigurator.js:53-56 | `keyField` becomes the chosen value, `writebackField` is unchanged, and exactly one event carrying the new configuration with `isValid` true is sent |
| `IntacctAdapter.IntacctAdapterTargetConfigurator.WritebackChange` | force-app/main/default/lwc/intacctAdapterTargetConfigurator/intacctAdapterTargetConfigurator.js:58-61 | `writebackField` becomes null for `--noSelection--` and the chosen value otherwise, `keyField` is unchanged, and exactly one event carrying the new configuration with `isValid` true is sent |

The class invariant `IntacctAdapterTargetConfigurator.Valid`, kept by every
method, states that every event the plugin has sent has `isValid` true.

## Findings

| source | as written | input that shows it | evidently intended | confidence | as-written member | corrected member |
|---|---|---|---|---|---|---|
| force-app/main/default/lwc/intacctAdapterTargetConfigurator/intacctAdapterTargetConfigurator.js:42 | the writeback comparator returns -1 whenever its first argument is the sentinel, and otherwise compares the values; for a value that orders before `--noSelection--`, both orders of comparison say "smaller", so the comparator is inconsistent and the sort's outcome is implementation-defined | a `Source` child with an empty field name, which orders before `--noSelection--` under any collation (or, under code-point order, a name such as `!x`) | the sentinel first, the other options ascending by value | medium; not executed; an editable field with an empty name is needed, and ordinary names order after the sentinel | `SelectionOptions.WritebackComparatorInconsistent` | `SelectionOptions.PinnedSort` |

## Left out

- I/O: the output of the `console.log` in `onSetSchema` is not modelled. Its
  copy of the schema is, because it throws for `undefined`.
- LWC framework: `@api`, `LightningElement`, `CustomEvent` with its bubbling and
  composed flags, and `dispatchEvent` are not modelled. An event is the payload
  appended to `outbox`.
- Sort order: `localeCompare` is replaced by lexicographic order on character
  codes. Locale collation is not modelled. `Array.prototype.sort` is modelled
  as an insertion sort by value.
- SortByValue: states that the result is sorted by value and a permutation of
  its input. It does not state that options with equal values keep their
  order, which the stable `Array.prototype.sort` guarantees.
- Writeback sort: the list is modelled as the intended result of the pinned
  sort (see "## Findings"), not the sort the inconsistent comparator would give.
- JSON round trip: the values are a closed JSON type with integer numbers. The
  copy is exact, and losing `undefined`, functions or non-finite numbers is not
  modelled.
- Aliasing: the live configuration object handed out by the getter and sent in
  `updateconfig` is the same object in the source. The value model does not
  capture this sharing.
- Initial schema: the field initialiser `_schema = {}` is modelled as a falsy
  value (`Falsy`). `onSetSchema` runs only after the setter has replaced
  it, so the difference shows only in the getter's value before the first
  assignment.
- Schema shape: a present schema always has `Source` and `Target` branches, a
  precondition of the type. The source fails on a missing branch. Nested
  children are carried in the tree but never read.
- `KeyChange` and `WritebackChange` require the configuration to be a JSON
  object. A property write on a primitive value throws in the source. A write
  on an array succeeds there and the event is sent, but arrays are also
  excluded here.
- `computeValid` and `tweakConfiguration` are modelled as functions of the
  configuration only, and `getDefaultShape` as a constant value. In the source
  all three are methods that may read any state of the component.
- Hook dispatch: in the source the base setter calls the subclass's hook
  itself. Here the base setter returns the hook and the subclass's setter runs
  it in `RunHook`.
- Input values: `event.target.value` is modelled as a string, and a field
  label as a string, never `undefined`.
