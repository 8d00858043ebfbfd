/**
 * The Intacct adapter's target configurator: a plugin of the base contract that
 * derives the key-field and writeback-field picklists whenever a schema arrives,
 * and edits a two-key configuration `{keyField, writebackField}` from the user's
 * choices, announcing every edit to the host.
 */
module IntacctAdapter {
  import opened Wrappers
  import opened Json
  import opened SchemaTree
  import opened ValenceUI
  import opened SelectionOptions

  const DEFAULT_KEY_FIELD: string := "RECORDNO"

  /** `getDefaultShape()`: key on `RECORDNO`, no writeback field. */
  function DefaultShape(): (r: Json)
    ensures r.JObj? && |r.members| == 2
    ensures Field(r, "keyField") == Some(JStr(DEFAULT_KEY_FIELD))
    ensures Field(r, "writebackField") == Some(JNull)
  {
    var members := [Member("keyField", JStr(DEFAULT_KEY_FIELD)), Member("writebackField", JNull)];
    assert "keyField" != "writebackField" by {
      assert |"keyField"| != |"writebackField"|;
    }
    assert Lookup(members[1..], "writebackField") == Some(JNull);
    JObj(members)
  }

  /** `computeValid()`: this plugin accepts every configuration. */
  function ComputeValid(configuration: Json): (r: bool)
    ensures r
  {
    true
  }

  /** The value `writebackChange` stores for a chosen option value: the sentinel means none. */
  function WritebackValue(chosen: string): (r: Json)
    ensures r == JNull <==> chosen == NO_SELECTION
    ensures chosen != NO_SELECTION ==> r == JStr(chosen)
  {
    if chosen == NO_SELECTION then JNull else JStr(chosen)
  }

  /** The exception `onSetSchema` can raise. */
  datatype Thrown = SyntaxError

  /** The methods this subclass provides to the base contract. */
  function IntacctPlugin(): Plugin {
    Plugin(Some(DefaultShape()), Some(ComputeValid), {OnSetSchema}, None)
  }

  /** A default configuration is never replaced when handed back to the setter. */
  lemma DefaultShapeIsKept()
    ensures NormalizeConfiguration(None, DefaultShape()) == DefaultShape()
    ensures NormalizeConfiguration(Some(DefaultShape()), DefaultShape()) == DefaultShape()
  {
  }

  /**
   * The key-field picklist as `onSetSchema` builds it: one pushed option per
   * top-level `Target` child, then sorted by value.
   */
  method BuildKeyFields(schema: Schema) returns (keyFields: seq<SelectionOption>)
    ensures keyFields == KeyFieldOptions(schema)
  {
    keyFields := [];
    var targets := schema.target.children;
    var i := 0;
    while i < |targets|
      invariant 0 <= i <= |targets|
      invariant keyFields == Options(targets[..i])
    {
      var field := targets[i].field;
      keyFields := keyFields + [SelectionOption(field.fieldName, PrettyFieldLabel(field.fieldName, field.fieldLabel))];
      OptionsOfLongerPrefix(targets, i);
      i := i + 1;
    }
    assert targets[..i] == targets;
    keyFields := SortByValue(keyFields);
  }

  /**
   * The writeback picklist as `onSetSchema` builds it: the sentinel, one pushed
   * option per editable top-level `Source` child, then the pinned sort.
   */
  method BuildWritebackFields(schema: Schema) returns (writebackFields: seq<SelectionOption>)
    ensures writebackFields == WritebackFieldOptions(schema)
  {
    writebackFields := [NO_SELECTION_OPTION];
    var sources := schema.source.children;
    var j := 0;
    while j < |sources|
      invariant 0 <= j <= |sources|
      invariant writebackFields == [NO_SELECTION_OPTION] + Options(EditableNodes(sources[..j]))
    {
      var field := sources[j].field;
      EditableNodesOfLongerPrefix(sources, j);
      if field.isEditable {
        writebackFields := writebackFields + [SelectionOption(field.fieldName, PrettyFieldLabel(field.fieldName, field.fieldLabel))];
        OptionsAppend(EditableNodes(sources[..j]), sources[j]);
      }
      j := j + 1;
    }
    assert sources[..j] == sources;
    writebackFields := PinnedSort(writebackFields);
  }

  class IntacctAdapterTargetConfigurator {
    /** The base part of this component, holding the four property slots and the outbox. */
    const base: ValenceUIConfigurator
    var keyFields: seq<SelectionOption>
    var writebackFields: seq<SelectionOption>

    ghost predicate Valid()
      reads this, base
    {
      && base.plugin == IntacctPlugin()
      && base.Valid()
      && forall e | e in base.outbox :: e.isValid
    }

    constructor ()
      ensures Valid() && fresh(base)
      ensures keyFields == [] && writebackFields == []
      ensures base.link == JObj([]) && base.schema.Falsy? && base.mapping == JObj([])
      ensures base.configuration == JObj([]) && base.outbox == []
    {
      base := new ValenceUIConfigurator(IntacctPlugin());
      keyFields := [];
      writebackFields := [];
    }

    /**
     * Runs the subclass's override of a hook the base dispatched; `thrown` is
     * the exception the override raises, if any.
     */
    method RunHook(hook: Option<Hook>) returns (thrown: Option<Thrown>)
      requires Valid()
      modifies this
      ensures thrown.Some? <==> hook == Some(Hook.OnSetSchema) && base.schema.Undefined?
      ensures hook == Some(Hook.OnSetSchema) && base.schema.Tree? ==>
        keyFields == KeyFieldOptions(base.schema.tree) && writebackFields == WritebackFieldOptions(base.schema.tree)
      ensures hook != Some(Hook.OnSetSchema) || !base.schema.Tree? ==>
        keyFields == old(keyFields) && writebackFields == old(writebackFields)
    {
      thrown := None;
      if hook == Some(Hook.OnSetSchema) {
        thrown := OnSetSchema();
      }
    }

    /**
     * Rebuilds both picklists from the current schema. The schema is first
     * logged through `JSON.parse(JSON.stringify(schema))`, which throws a
     * `SyntaxError` for `undefined` (`JSON.stringify` gives `undefined`, which
     * is not valid JSON text) before the guard is reached. Any other falsy
     * schema passes the guard's early return and leaves the previous lists in
     * place.
     */
    method OnSetSchema() returns (thrown: Option<Thrown>)
      requires Valid()
      modifies this
      ensures thrown.Some? <==> base.schema.Undefined?
      ensures !base.schema.Tree? ==> keyFields == old(keyFields) && writebackFields == old(writebackFields)
      ensures base.schema.Tree? ==> keyFields == KeyFieldOptions(base.schema.tree)
      ensures base.schema.Tree? ==> writebackFields == WritebackFieldOptions(base.schema.tree)
    {
      if base.schema.Undefined? {
        return Some(SyntaxError);
      }
      thrown := None;
      if base.schema.Falsy? {
        return;
      }
      var schema := base.schema.tree;
      keyFields := BuildKeyFields(schema);
      writebackFields := BuildWritebackFields(schema);
    }

    method SetLink(newValue: Json)
      requires Valid()
      modifies this, base
      ensures Valid()
      ensures base.link == newValue
      ensures base.schema == old(base.schema) && base.mapping == old(base.mapping)
      ensures base.configuration == old(base.configuration) && base.outbox == old(base.outbox)
      ensures keyFields == old(keyFields) && writebackFields == old(writebackFields)
    {
      var hook := base.SetLink(newValue);
      var _ := RunHook(hook);
    }

    /**
     * Stores the schema and runs `onSetSchema`; `thrown` is the exception that
     * leaves the setter, which happens after the schema is stored.
     */
    method SetSchema(newValue: SchemaValue) returns (thrown: Option<Thrown>)
      requires Valid()
      modifies this, base
      ensures Valid()
      ensures base.schema == newValue
      ensures thrown.Some? <==> newValue.Undefined?
      ensures base.link == old(base.link) && base.mapping == old(base.mapping)
      ensures base.configuration == old(base.configuration) && base.outbox == old(base.outbox)
      ensures !newValue.Tree? ==> keyFields == old(keyFields) && writebackFields == old(writebackFields)
      ensures newValue.Tree? ==> keyFields == KeyFieldOptions(newValue.tree)
      ensures newValue.Tree? ==> writebackFields == WritebackFieldOptions(newValue.tree)
    {
      var hook := base.SetSchema(newValue);
      thrown := RunHook(hook);
    }

    method SetMapping(newValue: Json)
      requires Valid()
      modifies this, base
      ensures Valid()
      ensures base.mapping == newValue
      ensures base.link == old(base.link) && base.schema == old(base.schema)
      ensures base.configuration == old(base.configuration) && base.outbox == old(base.outbox)
      ensures keyFields == old(keyFields) && writebackFields == old(writebackFields)
    {
      var hook := base.SetMapping(newValue);
      var _ := RunHook(hook);
    }

    method SetConfiguration(newConfig: Option<Json>)
      requires Valid()
      modifies this, base
      ensures Valid()
      ensures base.configuration == NormalizeConfiguration(newConfig, DefaultShape())
      ensures base.link == old(base.link) && base.schema == old(base.schema) && base.mapping == old(base.mapping)
      ensures base.outbox == old(base.outbox)
      ensures keyFields == old(keyFields) && writebackFields == old(writebackFields)
    {
      var hook := base.SetConfiguration(newConfig);
      var _ := RunHook(hook);
    }

    /** The user picked a key field: store it and announce the new configuration. */
    method KeyChange(chosen: string)
      requires Valid() && base.configuration.JObj?
      modifies base
      ensures Valid()
      ensures base.configuration == SetField(old(base.configuration), "keyField", JStr(chosen))
      ensures Field(base.configuration, "keyField") == Some(JStr(chosen))
      ensures Field(base.configuration, "writebackField") == Field(old(base.configuration), "writebackField")
      ensures base.outbox == old(base.outbox) + [UpdateConfig(base.configuration, true)]
      ensures base.link == old(base.link) && base.schema == old(base.schema) && base.mapping == old(base.mapping)
    {
      base.WriteConfigurationField("keyField", JStr(chosen));
      base.ConfigUpdated();
    }

    /** The user picked a writeback field (or none): store it and announce the new configuration. */
    method WritebackChange(chosen: string)
      requires Valid() && base.configuration.JObj?
      modifies base
      ensures Valid()
      ensures base.configuration == SetField(old(base.configuration), "writebackField", WritebackValue(chosen))
      ensures chosen == NO_SELECTION ==> Field(base.configuration, "writebackField") == Some(JNull)
      ensures chosen != NO_SELECTION ==> Field(base.configuration, "writebackField") == Some(JStr(chosen))
      ensures Field(base.configuration, "keyField") == Field(old(base.configuration), "keyField")
      ensures base.outbox == old(base.outbox) + [UpdateConfig(base.configuration, true)]
      ensures base.link == old(base.link) && base.schema == old(base.schema) && base.mapping == old(base.mapping)
    {
      base.WriteConfigurationField("writebackField", WritebackValue(chosen));
      base.ConfigUpdated();
    }
  }
}
