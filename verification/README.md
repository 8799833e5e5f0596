# WordPress.org Trac instance configuration, in Dafny

This project models the instance-configuration resolver of the meta-trac
client (`src/config.ts`). The client can talk to any of the seven
WordPress.org Trac installations: core, meta, plugins, themes, bbpress,
buddypress and glotpress. The resolver has three parts:

- the **instance table** `INSTANCE_CONFIGS`. It maps each `TracInstanceType`
  to its default base URL, its instance name, its own type and its display
  name (modules `Instances` and `Registry`);
- the **resolver** `getTracConfig`. It reads the optional `TRAC_INSTANCE`
  selector and the optional `TRAC_BASE_URL` override from the environment
  and returns a `TracInstanceConfig` (module `Resolver`);
- the **lister** `getAllTracInstances`. It projects the table into
  `(type, name, url)` summaries in declaration order (module `Listing`).

Everything is a pure, total function. There is no `requires` on any
operation, because the resolver has no error path. JavaScript's `x || d` on
an optional string is modelled by `Resolver.Truthy` and `Resolver.Or`. An
absent field and an empty string both fall through to the default.
`INSTANCE_CONFIGS[s]` is modelled as a lookup among the seven own keys of
the table (`Instances.ParseInstance`), which misses for every other string;
the keys the object inherits from its prototype are left out (see "Left
out"). The order `Object.entries` enumerates the table in is
`Instances.DeclarationOrder`.

Files: `wrappers.dfy` (Option), `instances.dfy`, `registry.dfy`,
`resolver.dfy`, `listing.dfy`.

## Model

| member | source | states |
|---|---|---|
| Instances.Key | src/config.ts:6 | the literal naming each instance type is a non-empty run of lower-case letters, so it is a truthy key |
| Instances.KeysDistinct | src/config.ts:6 | no two instance types share a key literal, so a key determines its instance type |
| Instances.EveryTypeDeclared | src/config.ts:26-69 | the declared key order leaves no instance type out |
| Instances.DeclarationOrder | src/config.ts:26-69 | the table declares seven properties, one per instance type, none repeated |
| Instances.FindKey | src/config.ts:73 | a key search over a list of types finds only a listed type whose key is the string, and misses only when no listed type has that key |
| Instances.ParseInstance | src/config.ts:73 | the table lookup finds type `t` exactly when the string is `t`'s key, and misses exactly when the string is none of the seven keys |
| Instances.ParseKeyRoundTrip | src/config.ts:73 | looking up an instance type's own key yields that type |
| Registry.InstanceConfig | src/config.ts:26-69 | the entry stored under `t` records `t` as its own instance type, has non-empty instance and display names, and has a default base URL that starts with `https://` |
| Resolver.SelectEntry | src/config.ts:72-73 | the chosen entry is always a table entry; a selector equal to a key chooses that instance; an absent, empty or unknown selector chooses `meta` |
| Resolver.GetTracConfig | src/config.ts:71-81 | the instance follows the selection rules; instance and display names come from the chosen entry; a non-empty override is the base URL verbatim, otherwise the chosen entry's default is |
| Resolver.DefaultIsMeta | src/config.ts:72-76 | with nothing selected and no override the result is meta's configuration (`https://meta.trac.wordpress.org`, `WordPress Meta Trac`, `WordPress.org Infrastructure`), the same as selecting `meta` explicitly |
| Resolver.RegisteredSelection | src/config.ts:71-81 | selecting any of the seven keys without an override yields that type with its registered default base URL and names |
| Resolver.OverrideOnlySetsBaseUrl | src/config.ts:76-79 | a non-empty override becomes the base URL verbatim, and changing the override changes no field except the base URL |
| Resolver.EmptyIsAbsent | src/config.ts:72-76 | an empty selector or an empty override gives the same result as an absent one |
| Resolver.UnknownSelectorFallsBack | src/config.ts:73 | a selector that is none of the seven keys resolves to `meta`, the same result as no selector, instead of failing |
| Listing.ProjectEntries | src/config.ts:87-91 | the projection keeps the length and order of the entries, and each summary carries its type's instance name and default base URL |
| Listing.GetAllTracInstances | src/config.ts:86-92 | the listing has seven summaries in declaration order, each with the registered name and default URL of its type |
| Listing.ListingCoversEveryTypeOnce | src/config.ts:86-92 | every instance type's summary is listed, no type is listed twice, and the order is core, meta, plugins, themes, bbpress, buddypress, glotpress |
| Listing.ListingAgreesWithResolver | src/config.ts:86-92 | each listed URL and name equal the base URL and instance name the resolver returns for that type's key with no override |

## Left out

- `buildTracUrl` (src/config.ts:97-105) is not modelled. It delegates entirely to the platform `URL` class, which applies the WHATWG URL Standard's basic URL parser and `URLSearchParams` serialization. Its only failure, an invalid-URL error, comes from that library.
- The environment fields `ENVIRONMENT` and `CF_VERSION_METADATA` are not modelled, because the resolver never reads them.
- Prototype keys are not modelled. The JavaScript lookup `INSTANCE_CONFIGS[s]` also finds inherited properties: `TRAC_INSTANCE = "toString"` (or `"constructor"`, or `"__proto__"`) finds a truthy inherited value instead of falling back to `meta`. For such a selector, `getTracConfig` returns `instanceName`, `instanceType` and `displayName` as `undefined`, and `baseUrl` too when there is no override. The model's lookup only matches the seven declared keys, so for such strings it falls back to `meta`. This is a known divergence from the code.
- `TRAC_INSTANCE` is statically typed as `TracInstanceType`, but any string can reach it at run time. The model takes it as an optional arbitrary string.
- The summary field `type` of `getAllTracInstances` is called `instanceType` in the model, because `type` is a Dafny keyword.
- Idempotence of the resolver and the lister is not stated separately. They are Dafny functions, so equal inputs always give equal outputs.
- Registry.InstanceConfig: each default base URL has the form `https://<key>.trac.wordpress.org`, but the contract only states the `https://` prefix. The exact literals are in the table itself. For `meta` they are stated in Resolver.DefaultIsMeta.
