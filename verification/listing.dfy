/** The lister `getAllTracInstances`: one summary per entry of the instance
    table, in declaration order. */
module Listing {
  import opened Wrappers
  import opened Instances
  import opened Registry
  import opened Resolver

  /** One listed instance. The source names the first field `type`. */
  datatype InstanceSummary = InstanceSummary(instanceType: InstanceType, name: string, url: string)

  /** The summary built from the table entry stored under `t`. */
  function Summarize(t: InstanceType): InstanceSummary {
    InstanceSummary(t, InstanceConfig(t).instanceName, InstanceConfig(t).defaultBaseUrl)
  }

  /** The `map` over the table's entries: one summary per listed key, in
      order, carrying that key's instance name and default base URL. */
  function ProjectEntries(order: seq<InstanceType>): (r: seq<InstanceSummary>)
    ensures |r| == |order|
    ensures forall i :: 0 <= i < |order| ==>
      && r[i].instanceType == order[i]
      && r[i].name == InstanceConfig(order[i]).instanceName
      && r[i].url == InstanceConfig(order[i]).defaultBaseUrl
  {
    if order == [] then []
    else [Summarize(order[0])] + ProjectEntries(order[1..])
  }

  /** `getAllTracInstances`: seven summaries whose types are the seven
      instance types in declaration order, each carrying its registered
      instance name and default base URL. */
  function GetAllTracInstances(): (r: seq<InstanceSummary>)
    ensures |r| == 7
    ensures forall i :: 0 <= i < |r| ==>
      && r[i].instanceType == DeclarationOrder()[i]
      && r[i].name == InstanceConfig(r[i].instanceType).instanceName
      && r[i].url == InstanceConfig(r[i].instanceType).defaultBaseUrl
  {
    ProjectEntries(DeclarationOrder())
  }

  /** Every instance type is listed exactly once, with its own summary, and
      the listing starts `core, meta, plugins, themes, bbpress, buddypress,
      glotpress`. */
  lemma ListingCoversEveryTypeOnce()
    ensures forall t :: Summarize(t) in GetAllTracInstances()
    ensures forall i, j :: 0 <= i < j < |GetAllTracInstances()| ==>
      GetAllTracInstances()[i].instanceType != GetAllTracInstances()[j].instanceType
    ensures var r := GetAllTracInstances();
      && r[0].instanceType == Core && r[1].instanceType == Meta
      && r[2].instanceType == Plugins && r[3].instanceType == Themes
      && r[4].instanceType == BbPress && r[5].instanceType == BuddyPress
      && r[6].instanceType == GlotPress
  {
  }

  /** The listing agrees with the resolver: every listed URL is the base URL
      the resolver yields for that instance's key when there is no override,
      and every listed name is that configuration's instance name. */
  lemma ListingAgreesWithResolver()
    ensures forall i :: 0 <= i < |GetAllTracInstances()| ==>
      var s := GetAllTracInstances()[i];
      var c := GetTracConfig(Env(Some(Key(s.instanceType)), None));
      && c.instanceType == s.instanceType
      && c.baseUrl == s.url
      && c.instanceName == s.name
  {
    var r := GetAllTracInstances();
    forall i | 0 <= i < |r|
      ensures var c := GetTracConfig(Env(Some(Key(r[i].instanceType)), None));
        && c.instanceType == r[i].instanceType
        && c.baseUrl == r[i].url
        && c.instanceName == r[i].name
    {
      RegisteredSelection(r[i].instanceType, None);
    }
  }
}
