/**
 * The base contract every Valence UI configurator plugin extends: four property
 * slots (link, schema, mapping, configuration) whose setters store the value and
 * then dispatch an optional lifecycle hook, normalisation of the configuration,
 * and the single outbound `updateconfig` notification.
 *
 * A plugin's optional and required methods are described by a `Plugin` value;
 * the setters return the hook the subclass must run next, which is how a
 * subclass's override is reached.
 */
module ValenceUI {
  import opened Wrappers
  import opened Json
  import opened SchemaTree

  /** The optional lifecycle hooks a plugin may define. */
  datatype Hook = OnSetLink | OnSetSchema | OnSetMapping | OnSetConfiguration

  /** What a subclass provides: the two required methods and the optional ones. */
  datatype Plugin = Plugin(
    getDefaultShape: Option<Json>,
    computeValid: Option<Json -> bool>,
    hooks: set<Hook>,
    tweakConfiguration: Option<Json -> Json>)

  /** The `TypeError`s raised by the constructor for a broken plugin. */
  datatype ContractViolation = MissingGetDefaultShape | MissingComputeValid

  /** The payload of one `updateconfig` event. */
  datatype UpdateConfig = UpdateConfig(newValue: Json, isValid: bool)

  /** A plugin that implements both required methods. */
  predicate Conforms(p: Plugin) {
    p.getDefaultShape.Some? && p.computeValid.Some?
  }

  /**
   * The value the configuration setter stores: the default shape when the input
   * is absent, falsy or has no own keys, otherwise a deep copy of the input.
   */
  function NormalizeConfiguration(newConfig: Option<Json>, defaultShape: Json): (r: Json)
    ensures newConfig.None? || newConfig == Some(JNull) ==> r == defaultShape
    ensures newConfig.Some? && newConfig.value != JNull && OwnKeyCount(newConfig.value) == 0 ==> r == defaultShape
    ensures newConfig.Some? && newConfig.value != JNull && OwnKeyCount(newConfig.value) > 0 ==> r == newConfig.value
  {
    if newConfig.Some? && Truthy(newConfig.value) && OwnKeyCount(newConfig.value) > 0 then
      DeepCopyIsIdentity(newConfig.value);
      DeepCopy(newConfig.value)
    else
      defaultShape
  }

  /**
   * Handing the stored configuration back to the setter (as the host does on
   * "Discard Changes" with an unchanged value) stores the same configuration,
   * provided the default shape itself has keys.
   */
  lemma NormalizeConfigurationIdempotent(newConfig: Option<Json>, defaultShape: Json)
    requires defaultShape != JNull && OwnKeyCount(defaultShape) > 0
    ensures NormalizeConfiguration(Some(NormalizeConfiguration(newConfig, defaultShape)), defaultShape)
            == NormalizeConfiguration(newConfig, defaultShape)
  {
    var stored := NormalizeConfiguration(newConfig, defaultShape);
    if stored != defaultShape {
      assert newConfig.Some? && newConfig.value != JNull && OwnKeyCount(newConfig.value) > 0;
    }
  }

  class ValenceUIConfigurator {
    const plugin: Plugin
    var link: Json
    var schema: SchemaValue
    var mapping: Json
    var configuration: Json
    /** Every `updateconfig` event dispatched so far, oldest first. */
    var outbox: seq<UpdateConfig>

    ghost predicate Valid() {
      Conforms(plugin)
    }

    constructor (p: Plugin)
      requires Conforms(p)
      ensures Valid() && plugin == p
      ensures link == JObj([]) && schema.Falsy? && mapping == JObj([]) && configuration == JObj([])
      ensures outbox == []
    {
      plugin := p;
      link := JObj([]);
      schema := Falsy;
      mapping := JObj([]);
      configuration := JObj([]);
      outbox := [];
    }

    method SetLink(newValue: Json) returns (hook: Option<Hook>)
      modifies this
      ensures link == newValue
      ensures schema == old(schema) && mapping == old(mapping) && configuration == old(configuration)
      ensures outbox == old(outbox)
      ensures hook.Some? <==> OnSetLink in plugin.hooks
      ensures hook.Some? ==> hook.value == OnSetLink
    {
      link := newValue;
      hook := if OnSetLink in plugin.hooks then Some(OnSetLink) else None;
    }

    method SetSchema(newValue: SchemaValue) returns (hook: Option<Hook>)
      modifies this
      ensures schema == newValue
      ensures link == old(link) && mapping == old(mapping) && configuration == old(configuration)
      ensures outbox == old(outbox)
      ensures hook.Some? <==> OnSetSchema in plugin.hooks
      ensures hook.Some? ==> hook.value == OnSetSchema
    {
      schema := newValue;
      hook := if OnSetSchema in plugin.hooks then Some(OnSetSchema) else None;
    }

    method SetMapping(newValue: Json) returns (hook: Option<Hook>)
      modifies this
      ensures mapping == newValue
      ensures link == old(link) && schema == old(schema) && configuration == old(configuration)
      ensures outbox == old(outbox)
      ensures hook.Some? <==> OnSetMapping in plugin.hooks
      ensures hook.Some? ==> hook.value == OnSetMapping
    {
      mapping := newValue;
      hook := if OnSetMapping in plugin.hooks then Some(OnSetMapping) else None;
    }

    /** `newConfig == None` stands for `undefined`. */
    method SetConfiguration(newConfig: Option<Json>) returns (hook: Option<Hook>)
      requires Valid()
      modifies this
      ensures configuration == NormalizeConfiguration(newConfig, plugin.getDefaultShape.value)
      ensures link == old(link) && schema == old(schema) && mapping == old(mapping)
      ensures outbox == old(outbox)
      ensures hook.Some? <==> OnSetConfiguration in plugin.hooks
      ensures hook.Some? ==> hook.value == OnSetConfiguration
    {
      configuration := NormalizeConfiguration(newConfig, plugin.getDefaultShape.value);
      hook := if OnSetConfiguration in plugin.hooks then Some(OnSetConfiguration) else None;
    }

    /**
     * A subclass writing one property of the live configuration object it got
     * from the getter (`this.configuration.key = value`): no hook, no event.
     */
    method WriteConfigurationField(key: string, value: Json)
      requires configuration.JObj?
      modifies this
      ensures configuration == SetField(old(configuration), key, value)
      ensures link == old(link) && schema == old(schema) && mapping == old(mapping)
      ensures outbox == old(outbox)
    {
      configuration := SetField(configuration, key, value);
    }

    /**
     * Dispatches exactly one `updateconfig` event: the tweaked configuration if
     * the plugin defines `tweakConfiguration`, else the configuration itself,
     * with the plugin's verdict on its validity.
     */
    method ConfigUpdated()
      requires Valid()
      modifies this
      ensures outbox == old(outbox) + [UpdateConfig(
        if plugin.tweakConfiguration.Some? then plugin.tweakConfiguration.value(configuration) else configuration,
        plugin.computeValid.value(configuration))]
      ensures link == old(link) && schema == old(schema) && mapping == old(mapping)
      ensures configuration == old(configuration)
    {
      var newValue := if plugin.tweakConfiguration.Some? then plugin.tweakConfiguration.value(configuration) else configuration;
      var isValid := plugin.computeValid.value(configuration);
      outbox := outbox + [UpdateConfig(newValue, isValid)];
    }
  }

  /**
   * Constructing a plugin: fails with a contract violation when `getDefaultShape`
   * is missing (checked first) or `computeValid` is missing, and otherwise yields
   * a fresh component with the slots' field initialisers.
   */
  method Instantiate(p: Plugin) returns (r: Result<ValenceUIConfigurator, ContractViolation>)
    ensures r.Success? <==> Conforms(p)
    ensures p.getDefaultShape.None? ==> r == Failure(MissingGetDefaultShape)
    ensures p.getDefaultShape.Some? && p.computeValid.None? ==> r == Failure(MissingComputeValid)
    ensures r.Success? ==> fresh(r.value) && r.value.Valid() && r.value.plugin == p
    ensures r.Success? ==> r.value.link == JObj([]) && r.value.schema.Falsy? && r.value.mapping == JObj([])
    ensures r.Success? ==> r.value.configuration == JObj([]) && r.value.outbox == []
  {
    if p.getDefaultShape.None? {
      return Failure(MissingGetDefaultShape);
    }
    if p.computeValid.None? {
      return Failure(MissingComputeValid);
    }
    var c := new ValenceUIConfigurator(p);
    return Success(c);
  }
}
