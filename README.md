# Servers collection of the Hetzner Cloud PHP client, in Dafny

This project models the `Servers` collection class of the Hetzner Cloud PHP
client (`src/Models/Servers/Servers.php`) and proves properties of that model.
The class does five things that depend on its own code and not on the REST API:

- It assembles the JSON body of a create request. Ten keys are always sent.
  `labels`, `firewalls`, `public_net` and `placement_group` are sent only when
  their own test passes.
- It shapes the create response into `action`, `server` and `next_actions`,
  plus `root_password` when the payload has that property.
- It picks the entry under key 0 of a listed page for `getByName`.
- It keeps a parsed copy of a raw list in `setAdditionalData`. This copy keeps
  order, length and keys, and leaves null entries null.
- list, getById, deleteById and the create methods return null when
  `HetznerAPIClient::hasError` reports an error. getByName then fails in PHP 8
  (see "## Left out"); the model returns null there too.

Files and modules:

- `wrappers.dfy` (`Wrappers`): the `Option` type, which stands for PHP's
  "value or null".
- `php.dfy` (`Php`): PHP values and the PHP rules the class relies on.
  - The values are null, bool, int, string, ordered arrays, and objects from
    `json_decode`.
  - The rules are `empty()`, loose `== null`, reading a property,
    `property_exists`, a key lookup, and the key-preserving
    `collect(...)->map(...)->toArray()`.
  - `collect` of a decoded object goes through PHP's `(array)` cast, which
    stores a property named like a decimal integer (such as "0") under that
    integer key. `IntegerKeyIff` proves which names are turned into keys.
- `models.dfy` (`Models`): the objects the class is passed (server type,
  image, datacenter, location) and the objects it returns (server, action,
  meta).
- `api.dfy` (`Api`): the transport's response and the `APIResponse` envelope.
  - A response carries the verdict of `HetznerAPIClient::hasError`, the decoded
    body and the headers.
  - An envelope is a map from part names to parts, together with the headers.
- `servers.dfy` (`Servers`): the class itself.
  - The mutable `servers` field is modelled as a Dafny `class`.
  - The read operations and the create response are pure functions.
  - The create body is an imperative method. It sets the base keys and then
    adds each optional key under its own `if`, as the PHP does.

The create body is a value of type `Parameters`. It has one slot for each key
the body can carry, and each optional slot holds `None` when its key is not
set. `Get(k)` reads the body as the PHP array `$parameters`, and `Keys()` gives
the set keys. `Json(p, body)` is the `map<string, Value>` that is posted, with
each key under its JSON name. The placement key is a single `Place` key. Its
JSON name is `datacenter` for createInDatacenter and `location` for
createInLocation. The property lemmas are stated about `RequestBody(p, a)`, and
`BuildParameters` is proved equal to it.

## Model

| member | source | states |
|---|---|---|
| Php.Lookup | src/Models/Servers/Servers.php:94 | `$array[k]`: None exactly when no entry has key k; otherwise the value of the first entry with key k |
| Php.Prop | src/Models/Servers/Servers.php:69-73 | `$obj->name`: an existing property's value, which sits in the object under that name; null when the property is missing or the value is not an object |
| Php.Empty | src/Models/Servers/Servers.php:190-195 | `empty($v)` holds exactly for null, false, 0, "", "0" and the empty array |
| Php.LooseNull | src/Models/Servers/Servers.php:199-201 | `$v == null` holds exactly for null, false, 0, "" and the empty array: "0" and every object are not loosely null |
| Php.PropertyExists | src/Models/Servers/Servers.php:215 | `property_exists($v, $name)` holds exactly when `v` is an object with a property of that name; a non-object has none |
| Php.Collect | src/Models/Servers/Servers.php:307 | the items of `collect($v)`: an array's own entries; an object's properties in order, each under the key the `(array)` cast gives its name; nothing for null; a single entry under key 0 for a scalar |
| Php.IntegerKeyIntString | src/Models/Servers/Servers.php:307 | PHP's decimal form of any 64-bit integer n is stored as the integer key n |
| Php.IntStringIntegerKey | src/Models/Servers/Servers.php:307 | a name stored as an integer key is exactly PHP's decimal form of that integer, which is in the 64-bit range |
| Php.IntegerKeyIff | src/Models/Servers/Servers.php:307 | a property name becomes the integer key n exactly when it is PHP's decimal form of n and n is a 64-bit PHP integer, so "0" becomes 0 while "00", "-0" and " 1" stay strings |
| Php.MapValues | src/Models/Servers/Servers.php:307-315 | `collect(...)->map(f)->toArray()`: same length, each entry keeps its key and position and holds f of the original value |
| Php.LookupMapValues | src/Models/Servers/Servers.php:94 | `$mapped[k]` after `collect(...)->map(f)->toArray()` is f of the value found under k before mapping, and missing exactly when it was missing |
| Php.LookupFirst | src/Models/Servers/Servers.php:94 | `$array[k]` finds the entry with key k that no earlier entry's key matches |
| Php.MapValuesKeepsList | src/Models/Servers/Servers.php:307-315 | mapping a list (keys 0, 1, 2, ...) gives a list |
| Php.ListKeyZero | src/Models/Servers/Servers.php:94 | in a non-empty list, key 0 holds the first element |
| Php.LooseNullIsEmptyButZeroString | src/Models/Servers/Servers.php:190-201 | the `! empty` test and the `!= null` test of the create methods disagree only on the string "0" |
| Servers.GetKeys | src/Models/Servers/Servers.php:332-335 | `_getKeys()` is exactly `one` => "server" and `many` => "servers", two distinct payload keys |
| Servers.ParseEntry | src/Models/Servers/Servers.php:308-314 | an entry becomes null exactly when it equals null (null, false, 0, "" or the empty array) and the parsed server otherwise |
| Servers.ParsedServers | src/Models/Servers/Servers.php:307-315 | one entry per item of `collect($input)`, with the same key, in the same order; null exactly where the item equals null, and the parsed server elsewhere |
| Servers.Servers.constructor | src/Models/Servers/Servers.php:31 | a new collection object holds no list yet |
| Servers.Servers.SetAdditionalData | src/Models/Servers/Servers.php:305-318 | the held list becomes the parsed list of the input; returns the same object |
| Servers.Servers.Parse | src/Models/Servers/Servers.php:324-327 | a fresh object whose held list is the parsed list of the input |
| Servers.List | src/Models/Servers/Servers.php:62-78 | null exactly on an error; otherwise the parts are exactly `meta` (the parsed meta) and `servers` (the parsed list of the payload's `servers`), with the response headers |
| Servers.GetByName | src/Models/Servers/Servers.php:90-95 | null on an error; otherwise null when the collected `servers` is empty or has no key 0, and the entry under key 0 (parsed, or null when it equals null) otherwise; for a list-shaped payload that entry is the first |
| Servers.GetByNameFirst | src/Models/Servers/Servers.php:94 | on a successful, non-empty, list-shaped page, getByName returns element 0 |
| Servers.GetByNameNumericProperty | src/Models/Servers/Servers.php:94 | on every successful page whose decoded `servers` is an object whose first property named "0" holds v, getByName returns v parsed (or null when v equals null), because `collect` keys that property as 0 |
| Servers.GetById | src/Models/Servers/Servers.php:107-115 | null exactly on an error; otherwise the server parsed from the payload's `server` |
| Servers.DeleteById | src/Models/Servers/Servers.php:127-137 | null exactly on an error; otherwise the action parsed from the payload's `action` |
| Servers.DefaultArgs | src/Models/Servers/Servers.php:166-176 | the declared defaults: empty arrays for the keys, volumes, networks, labels and firewalls; start after create on, automount off, empty user data; no public network and no placement group |
| Servers.WireName | src/Models/Servers/Servers.php:179-188 | the placement is written `datacenter` by createInDatacenter and `location` by createInLocation, and no other key takes either name |
| Servers.PlaceValue | src/Models/Servers/Servers.php:181 | `$datacenter == null ? null : $datacenter->id` (and the same for the location at line 261): null exactly when nothing is passed, the id otherwise |
| Servers.WireNames | src/Models/Servers/Servers.php:179-200 | the JSON names of the fourteen keys: `name`, `server_type`, `datacenter` or `location`, `image`, `start_after_create`, `user_data`, `ssh_keys`, `volumes`, `automount`, `networks`, `labels`, `firewalls`, `public_net`, `placement_group` |
| Servers.WireNameInjective | src/Models/Servers/Servers.php:178-201 | distinct body keys are posted under distinct JSON names |
| Servers.ParametersByKey | src/Models/Servers/Servers.php:258-281 | two bodies that hold the same value under every key are equal, so `Get` says all there is to say about a body |
| Servers.Json | src/Models/Servers/Servers.php:282-284 | the posted JSON has exactly the JSON names of the set keys, and each holds that key's value |
| Servers.JsonHasKey | src/Models/Servers/Servers.php:202-204 | a key's JSON name is posted exactly when the key is set |
| Servers.RequestBody | src/Models/Servers/Servers.php:178-201 | the reference create body about which the lemmas below are proved: the ten base values, and each optional key only when its test passes |
| Servers.BuildParameters | src/Models/Servers/Servers.php:178-201 | the array built by the base display and the four conditional insertions is the create body `RequestBody(p, a)` |
| Servers.BaseParameters | src/Models/Servers/Servers.php:178-189 | the ten base keys are always set; `name`, `start_after_create`, `user_data`, `ssh_keys`, `volumes`, `automount` and `networks` hold the arguments, and `server_type` and `image` hold the ids of the passed objects |
| Servers.DatacenterParameter | src/Models/Servers/Servers.php:181 | createInDatacenter always sends `datacenter`, holding null when none is passed and its id otherwise |
| Servers.LocationParameter | src/Models/Servers/Servers.php:261 | createInLocation always sends `location`, holding null when none is passed and its id otherwise |
| Servers.LabelsAndFirewallsRule | src/Models/Servers/Servers.php:190-195 | `labels` is set exactly when the argument is non-empty and then equals it; the same for `firewalls` |
| Servers.PublicNetRule | src/Models/Servers/Servers.php:196-198 | `public_net` is set exactly when the argument is given (not null), so an empty array is still sent, and then equals it |
| Servers.PlacementGroupRule | src/Models/Servers/Servers.php:199-201 | `placement_group` is set exactly when the argument is neither null nor 0, and then holds it |
| Servers.ParameterKeys | src/Models/Servers/Servers.php:258-281 | the set keys are exactly the ten base keys plus the optional keys whose tests pass |
| Servers.DefaultParameters | src/Models/Servers/Servers.php:162-177 | with every optional argument at its default, exactly the ten base keys are set; with the datacenter or location left at its default null, the placement is sent as null |
| Servers.DatacenterAndLocationAgree | src/Models/Servers/Servers.php:243-281 | for the same shared arguments both create methods set the same value under every key except the placement; the JSON names agree except that the placement is `datacenter` in one and `location` in the other |
| Servers.CreateResult | src/Models/Servers/Servers.php:205-219 | null exactly on an error; otherwise the response headers, `action` and `server` parsed from the payload, `next_actions` parsed element by element with the same keys and order, and `root_password` (when present) holding the payload's value |
| Servers.CreateResultKeys | src/Models/Servers/Servers.php:288-295 | a successful result has `root_password` exactly when the payload has that property, and apart from it exactly `action`, `server` and `next_actions` |
| Servers.CreateInDatacenter | src/Models/Servers/Servers.php:162-219 | builds `RequestBody` for the datacenter, posts it as `Json` of that body (keys under their JSON names, `datacenter` for the placement), and returns `CreateResult` of the response |
| Servers.CreateInLocation | src/Models/Servers/Servers.php:243-299 | builds `RequestBody` for the location, posts it as `Json` of that body (keys under their JSON names, `location` for the placement), and returns `CreateResult` of the response |

## Left out

- The HTTP transport (`httpClient->get/post/delete`), the request paths and the query string built by `RequestOpts::buildQuery`/`ServerRequestOpts`. These are network I/O and code outside this file. An operation takes the transport's response as a parameter, and a create method returns the body it builds together with the JSON object it would post.
- The name filter of `getByName`. It only shapes the request, so the model takes the page that the filtered list returns.
- `json_decode`. It is a foreign call; a response carries the decoded body.
- `HetznerAPIClient::hasError`. Its code is not part of this model and it may throw. A response carries its verdict as a boolean.
- `Server::parse`, `Action::parse` and `Meta::parse`. Their code is not part of this model. Each parsed object is represented by the decoded value it was parsed from.
- GetById and DeleteById assume that each parser returns an object for every input, including the null that a missing property gives. Their promise to return null only on an error rests on that assumption. If a parser returned null for some payload, these two operations would return null without an error, and the model does not capture that.
- List and CreateResult return an envelope whatever the parsers give. The parts `MetaPart`, `ServerPart` and `ActionPart` hold a parsed object and cannot hold null, so the model never has a null part, which a parser returning null would give in PHP.
- The magic getters of `APIResponse` and `APIResponse::create`. The envelope is a map from part names to parts plus the headers.
- `all()` and `_all` from `GetFunctionTrait` (pagination). That code is not part of this model.
- Response headers are carried through as an opaque map, without modelling their contents.
- Floating-point numbers are not modelled among PHP values.
- PHP warnings are not modelled. PHP warns when a missing property or a property of a non-object is read (`Prop`), and when getByName reads `[0]` from an array without key 0. The model gives the value PHP continues with, null, and records no warning.
- Php.Collect: the integer range of the `(array)` cast is that of 64-bit PHP builds. 32-bit builds are not modelled.
- Object identity and aliasing of parsed models are not modelled. A parsed object is a value.
- GetByName: on an error response PHP 8 raises a TypeError from `count(null)`. The model returns null there instead.
- CreateResult: `property_exists` on a null, boolean, integer or array payload raises a TypeError in PHP 8. On a string payload PHP looks up a class of that name instead. The model treats every non-object payload as having no such property.
- CreateResult: `array_merge` appends `root_password` after the other three parts. The model's envelope is an unordered map, so it does not record that order. The keys never collide, so the merge is a map update.
- BuildParameters: `$parameters` is a record with one slot per possible key, read as a key-to-value map through `Get`, and `Json` gives the posted map. The order in which PHP inserts keys, and so the key order of the JSON text, is not modelled.
- CreateInDatacenter: the untyped parameters `$ssh_keys`, `$startAfterCreate`, `$user_data`, `$volumes`, `$automount` and `$networks` carry the types the method's documentation gives them. These are the types createInLocation declares. Arguments of other PHP types are not modelled.
- The placement key is one key, `Place`, whose JSON name depends on the method (`datacenter` or `location`). It is not two keys of which only one is ever set.
