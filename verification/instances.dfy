/** The closed enumeration of WordPress.org Trac instances and the string keys
    under which the instance table stores them. */
module Instances {
  import opened Wrappers

  /** One constructor per member of the `TracInstanceType` union. */
  datatype InstanceType = Core | Meta | Plugins | Themes | BbPress | BuddyPress | GlotPress

  /** The string literal that names an instance type; it is also the property
      key of that instance in the instance table. Every key is a non-empty run
      of lower-case letters, so it is a truthy JavaScript string. */
  function Key(t: InstanceType): (k: string)
    ensures |k| > 0
    ensures forall i :: 0 <= i < |k| ==> 'a' <= k[i] <= 'z'
  {
    match t
    case Core => "core"
    case Meta => "meta"
    case Plugins => "plugins"
    case Themes => "themes"
    case BbPress => "bbpress"
    case BuddyPress => "buddypress"
    case GlotPress => "glotpress"
  }

  /** No two instance types share a key. */
  lemma KeysDistinct()
    ensures forall a, b :: Key(a) == Key(b) ==> a == b
  {
  }

  /** The order in which the instance table declares its properties, which is
      the order in which `Object.entries` enumerates them (none of the keys is
      an array index). */
  const Declared: seq<InstanceType> := [Core, Meta, Plugins, Themes, BbPress, BuddyPress, GlotPress]

  /** The declaration order, with its guarantees: it lists every instance
      type exactly once. */
  function DeclarationOrder(): (order: seq<InstanceType>)
    ensures |order| == 7
    ensures forall t :: t in order
    ensures forall i, j :: 0 <= i < j < |order| ==> order[i] != order[j]
  {
    EveryTypeDeclared();
    Declared
  }

  /** The declaration order leaves no instance type out. */
  lemma EveryTypeDeclared()
    ensures forall t :: t in Declared
  {
    forall t ensures t in Declared {
      match t
      case Core => assert Declared[0] == t;
      case Meta => assert Declared[1] == t;
      case Plugins => assert Declared[2] == t;
      case Themes => assert Declared[3] == t;
      case BbPress => assert Declared[4] == t;
      case BuddyPress => assert Declared[5] == t;
      case GlotPress => assert Declared[6] == t;
    }
  }

  /** Looks a string up among the keys of the listed instance types. */
  function FindKey(order: seq<InstanceType>, s: string): (r: Option<InstanceType>)
    ensures r.Some? ==> r.value in order && Key(r.value) == s
    ensures r.None? ==> forall t :: t in order ==> Key(t) != s
    decreases |order|
  {
    if order == [] then None
    else if Key(order[0]) == s then Some(order[0])
    else FindKey(order[1..], s)
  }

  /** The lookup `INSTANCE_CONFIGS[s]` on the instance table, restricted to
      the table's seven own keys: it finds the instance type whose key is
      exactly `s`, and nothing when `s` is not one of the seven keys.
      Properties inherited from the object prototype are not modelled. */
  function ParseInstance(s: string): (r: Option<InstanceType>)
    ensures forall t :: r == Some(t) <==> Key(t) == s
    ensures r.None? <==> forall t :: Key(t) != s
  {
    KeysDistinct();
    FindKey(DeclarationOrder(), s)
  }

  /** Parsing an instance type's own key gives that instance type back. */
  lemma ParseKeyRoundTrip(t: InstanceType)
    ensures ParseInstance(Key(t)) == Some(t)
  {
  }
}
