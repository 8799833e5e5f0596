/** The instance table `INSTANCE_CONFIGS`: the fixed metadata of every Trac
    instance. */
module Registry {
  import opened Instances

  /** A table entry: the configuration of an instance without its base URL,
      plus the default base URL. */
  datatype Metadata = Metadata(
    defaultBaseUrl: string,
    instanceName: string,
    instanceType: InstanceType,
    displayName: string)

  /** The scheme prefix every default base URL starts with. */
  const HttpsPrefix: string := "https://"

  /** True when `url` starts with the `https://` scheme prefix and has
      something after it. The rest of the URL is not checked. */
  predicate HasHttpsPrefix(url: string) {
    |url| > |HttpsPrefix| && url[..|HttpsPrefix|] == HttpsPrefix
  }

  /** The table entry stored under an instance type's key. Every entry records
      the type it is stored under, has non-empty names, and has a default base
      URL that starts with `https://`. */
  function InstanceConfig(t: InstanceType): (m: Metadata)
    ensures m.instanceType == t
    ensures m.instanceName != "" && m.displayName != ""
    ensures HasHttpsPrefix(m.defaultBaseUrl)
  {
    match t
    case Core => Metadata("https://core.trac.wordpress.org", "WordPress Core Trac", Core, "WordPress Core")
    case Meta => Metadata("https://meta.trac.wordpress.org", "WordPress Meta Trac", Meta, "WordPress.org Infrastructure")
    case Plugins => Metadata("https://plugins.trac.wordpress.org", "WordPress Plugins Trac", Plugins, "Plugin Directory")
    case Themes => Metadata("https://themes.trac.wordpress.org", "WordPress Themes Trac", Themes, "Theme Directory")
    case BbPress => Metadata("https://bbpress.trac.wordpress.org", "bbPress Trac", BbPress, "bbPress")
    case BuddyPress => Metadata("https://buddypress.trac.wordpress.org", "BuddyPress Trac", BuddyPress, "BuddyPress")
    case GlotPress => Metadata("https://glotpress.trac.wordpress.org", "GlotPress Trac", GlotPress, "GlotPress")
  }
}
