/** The resolver `getTracConfig`: turns the environment's optional instance
    selector and optional base-URL override into the configuration of one Trac
    instance. */
module Resolver {
  import opened Wrappers
  import opened Instances
  import opened Registry

  /** The environment fields the resolver reads. `TRAC_INSTANCE` is typed as
      an instance type but is an arbitrary string at run time. */
  datatype Env = Env(tracInstance: Option<string>, tracBaseUrl: Option<string>)

  /** The resolved configuration of one Trac instance. */
  datatype TracInstanceConfig = TracInstanceConfig(
    baseUrl: string,
    instanceName: string,
    instanceType: InstanceType,
    displayName: string)

  /** The key the resolver looks up when no instance is selected. */
  const DefaultInstanceKey: string := "meta"

  /** JavaScript truthiness of an optional string: absent and empty are falsy. */
  predicate Truthy(o: Option<string>) {
    o.Some? && o.value != ""
  }

  /** JavaScript `o || fallback` for an optional string operand. */
  function Or(o: Option<string>, fallback: string): string {
    if Truthy(o) then o.value else fallback
  }

  /** The table entry the resolver picks: the entry under the selected key
      when that key is one of the seven, otherwise the `meta` entry. An absent
      or empty selector selects `meta`. The result is always an entry of the
      table. */
  function SelectEntry(selector: Option<string>): (m: Metadata)
    ensures m == InstanceConfig(m.instanceType)
    ensures forall t :: Truthy(selector) && selector.value == Key(t) ==> m.instanceType == t
    ensures Truthy(selector) && (forall t :: Key(t) != selector.value) ==> m.instanceType == Meta
    ensures !Truthy(selector) ==> m.instanceType == Meta
  {
    var key := Or(selector, DefaultInstanceKey);
    match ParseInstance(key)
    case Some(t) => InstanceConfig(t)
    case None => InstanceConfig(Meta)
  }

  /** `getTracConfig`. The instance is chosen by the selector as in
      `SelectEntry`; the instance and display names always come from the
      chosen entry; a non-empty base-URL override is returned verbatim and an
      absent or empty one yields the chosen entry's default base URL. */
  function GetTracConfig(env: Env): (c: TracInstanceConfig)
    ensures forall t :: Truthy(env.tracInstance) && env.tracInstance.value == Key(t) ==> c.instanceType == t
    ensures Truthy(env.tracInstance) && (forall t :: Key(t) != env.tracInstance.value) ==> c.instanceType == Meta
    ensures !Truthy(env.tracInstance) ==> c.instanceType == Meta
    ensures c.instanceName == InstanceConfig(c.instanceType).instanceName
    ensures c.displayName == InstanceConfig(c.instanceType).displayName
    ensures Truthy(env.tracBaseUrl) ==> c.baseUrl == env.tracBaseUrl.value
    ensures !Truthy(env.tracBaseUrl) ==> c.baseUrl == InstanceConfig(c.instanceType).defaultBaseUrl
  {
    var entry := SelectEntry(env.tracInstance);
    TracInstanceConfig(
      Or(env.tracBaseUrl, entry.defaultBaseUrl),
      entry.instanceName,
      entry.instanceType,
      entry.displayName)
  }

  /** With no instance selected and no override, the result is the `meta`
      instance's configuration, field by field, and the same as selecting
      `meta` explicitly. */
  lemma DefaultIsMeta(env: Env)
    requires !Truthy(env.tracInstance) && !Truthy(env.tracBaseUrl)
    ensures GetTracConfig(env) == TracInstanceConfig(
      "https://meta.trac.wordpress.org", "WordPress Meta Trac", Meta, "WordPress.org Infrastructure")
    ensures GetTracConfig(env) == GetTracConfig(Env(Some(Key(Meta)), None))
  {
  }

  /** Selecting a registered instance by its key, without an override, yields
      that instance with its registered default base URL and names. */
  lemma RegisteredSelection(t: InstanceType, baseOverride: Option<string>)
    requires !Truthy(baseOverride)
    ensures var c := GetTracConfig(Env(Some(Key(t)), baseOverride));
      && c.instanceType == t
      && c.baseUrl == InstanceConfig(t).defaultBaseUrl
      && c.instanceName == InstanceConfig(t).instanceName
      && c.displayName == InstanceConfig(t).displayName
  {
  }

  /** A non-empty base-URL override is returned verbatim whatever the
      selected instance and its default are, and changing the override changes
      nothing but the base URL. */
  lemma OverrideOnlySetsBaseUrl(selector: Option<string>, b1: Option<string>, b2: Option<string>)
    requires Truthy(b2)
    ensures GetTracConfig(Env(selector, b2)).baseUrl == b2.value
    ensures GetTracConfig(Env(selector, b2))
         == GetTracConfig(Env(selector, b1)).(baseUrl := b2.value)
  {
  }

  /** An empty string in either environment field behaves exactly like an
      absent field. */
  lemma EmptyIsAbsent(selector: Option<string>, baseOverride: Option<string>)
    ensures GetTracConfig(Env(Some(""), baseOverride)) == GetTracConfig(Env(None, baseOverride))
    ensures GetTracConfig(Env(selector, Some(""))) == GetTracConfig(Env(selector, None))
  {
  }

  /** A selector that names none of the seven instances is not an error: the
      resolver falls back to the `meta` entry, exactly as if nothing had been
      selected. */
  lemma UnknownSelectorFallsBack(s: string, baseOverride: Option<string>)
    requires forall t :: Key(t) != s
    ensures GetTracConfig(Env(Some(s), baseOverride)).instanceType == Meta
    ensures GetTracConfig(Env(Some(s), baseOverride)) == GetTracConfig(Env(None, baseOverride))
  {
  }
}
