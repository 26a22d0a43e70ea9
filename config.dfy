/** The routing configuration (the mapping loaded from routes.yml, empty when there is no
    file) and the environment settings the alert decisions read (app.py, `Settings` and
    `_config_section` to `_config_services`). */
module RouteConfig {
  import opened PyJson

  /** The environment settings that reach the decisions. */
  datatype Settings = Settings(
    telegramChatId: string,
    telegramTopicId: string,
    includeResolved: bool,
    mgmtToken: string,
    dataset: string)

  /** `_config_section(name, default)`: the configured value, or the default when there is
      no configuration or the value is missing or `None`. */
  function Section(routes: Dict, name: string, default: Json): (r: Json)
    ensures r == default || (HasKey(routes, name) && r == At(routes, name) && r != JNull)
    ensures At(routes, name) != JNull ==> r == At(routes, name)
    ensures r == JNull ==> default == JNull
  {
    GetSpec(routes, name);
    if routes == [] then default
    else
      var value := At(routes, name);
      if value == JNull then default else value
  }

  /** A value written into the configuration is the section read back, unless it is `None`. */
  lemma {:induction false} SectionPut(routes: Dict, name: string, value: Json, default: Json)
    ensures value != JNull ==> Section(Put(routes, name, value), name, default) == value
    ensures value == JNull ==> Section(Put(routes, name, value), name, default) == default
  {
  }

  /** A section the configuration does not name is its default. */
  lemma {:induction false} SectionMissing(routes: Dict, name: string, default: Json)
    requires !HasKey(routes, name)
    ensures Section(routes, name, default) == default
  {
  }

  /** A section that must be a mapping: the configured mapping, empty for anything else. */
  function MappingSection(routes: Dict, name: string): (r: Dict)
    ensures At(routes, name).JObj? ==> r == At(routes, name).entries
    ensures !At(routes, name).JObj? ==> r == []
  {
    var section := Section(routes, name, JObj([]));
    if section.JObj? then section.entries else []
  }

  /** A mapping written into the configuration reads back; any other value reads as empty. */
  lemma {:induction false} MappingSectionPut(routes: Dict, name: string, value: Json)
    ensures value.JObj? ==> MappingSection(Put(routes, name, value), name) == value.entries
    ensures !value.JObj? ==> MappingSection(Put(routes, name, value), name) == []
  {
  }

  /** `_config_defaults()`. */
  function Defaults(routes: Dict): (r: Dict)
    ensures At(routes, "defaults").JObj? ==> r == At(routes, "defaults").entries
    ensures !At(routes, "defaults").JObj? ==> r == []
  {
    MappingSection(routes, "defaults")
  }

  /** `_config_profiles()`. */
  function Profiles(routes: Dict): (r: Dict)
    ensures At(routes, "profiles").JObj? ==> r == At(routes, "profiles").entries
    ensures !At(routes, "profiles").JObj? ==> r == []
  {
    MappingSection(routes, "profiles")
  }

  /** `_config_services()`. */
  function Services(routes: Dict): (r: Dict)
    ensures At(routes, "services").JObj? ==> r == At(routes, "services").entries
    ensures !At(routes, "services").JObj? ==> r == []
  {
    MappingSection(routes, "services")
  }

  /** `_config_drop_rules()`: the configured list, empty for anything else. */
  function DropRules(routes: Dict): (r: seq<Json>)
    ensures At(routes, "drop").JList? ==> r == At(routes, "drop").items
    ensures !At(routes, "drop").JList? ==> r == []
    ensures forall rule :: rule in r ==> At(routes, "drop").JList? && rule in At(routes, "drop").items
  {
    var drop := Section(routes, "drop", JList([]));
    if drop.JList? then drop.items else []
  }

  /** A list of rules written into the configuration reads back. */
  lemma {:induction false} DropRulesPut(routes: Dict, rules: seq<Json>)
    ensures DropRules(Put(routes, "drop", JList(rules))) == rules
  {
  }

  const DefaultUserImpactTag := "#user-impact"
  const DefaultServiceErrorsTag := "#service-errors"

  /** `_config_tags()`: each tag is the `str()` of its configured value, or its default when
      the tags mapping does not name it. */
  function Tags(routes: Dict): (r: (string, string))
    ensures HasKey(MappingSection(routes, "tags"), "user_impact") ==>
      r.0 == Str(At(MappingSection(routes, "tags"), "user_impact"))
    ensures !HasKey(MappingSection(routes, "tags"), "user_impact") ==> r.0 == DefaultUserImpactTag
    ensures HasKey(MappingSection(routes, "tags"), "service_errors") ==>
      r.1 == Str(At(MappingSection(routes, "tags"), "service_errors"))
    ensures !HasKey(MappingSection(routes, "tags"), "service_errors") ==> r.1 == DefaultServiceErrorsTag
  {
    var tags := MappingSection(routes, "tags");
    GetSpec(tags, "user_impact");
    GetSpec(tags, "service_errors");
    (Str(GetOr(tags, "user_impact", JStr(DefaultUserImpactTag))),
     Str(GetOr(tags, "service_errors", JStr(DefaultServiceErrorsTag))))
  }

  /** Tags written into the configuration as strings are the tags read back. */
  lemma {:induction false} TagsPut(routes: Dict, userImpact: string, serviceErrors: string)
    ensures Tags(Put(routes, "tags", JObj([("user_impact", JStr(userImpact)), ("service_errors", JStr(serviceErrors))])))
      == (userImpact, serviceErrors)
  {
    var tags := [("user_impact", JStr(userImpact)), ("service_errors", JStr(serviceErrors))];
    assert Get(tags, "user_impact") == Some(JStr(userImpact));
    assert Get(tags, "service_errors") == Some(JStr(serviceErrors));
  }
}
