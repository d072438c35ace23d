/**
 The servers collection (class Servers): listing, fetching and deleting
 servers, assembling the body of a create request, shaping the create
 response, and the parsed list the collection object holds. Each operation
 takes the transport's response as a parameter; every operation returns
 null when HetznerAPIClient::hasError reports an error, before any part of
 the body is read.
 */
module Servers {
  import opened Wrappers
  import opened Php
  import opened Models
  import opened Api

  /** `_getKeys()`: the payload key of one server and of a list of servers. */
  function GetKeys(): (keys: map<string, string>)
    ensures keys == map["one" := "server", "many" := "servers"]
    ensures keys["one"] != keys["many"]
  {
    map["one" := "server", "many" := "servers"]
  }

  // ---------------------------------------------------------------------------
  // The parsed list held by the collection object
  // ---------------------------------------------------------------------------

  /** What setAdditionalData keeps for one raw entry: an entry equal to null stays null. */
  function ParseEntry(raw: Value): (r: Option<Server>)
    ensures r.None? <==> raw in {Null, Bool(false), Int(0), Str(""), Arr([])}
    ensures r.Some? ==> r.value == ParseServer(raw)
  {
    if LooseNull(raw) then None else Some(ParseServer(raw))
  }

  /**
   The array that setAdditionalData assigns: one entry per item of
   `collect($input)`, under the same key and in the same order, null where
   the item equals null and the parsed server elsewhere.
   */
  function ParsedServers(input: Value): (r: seq<Item<Option<Server>>>)
    ensures |r| == |Collect(input)|
    ensures forall i :: 0 <= i < |r| ==> r[i].key == Collect(input)[i].key
    ensures forall i :: 0 <= i < |r| ==> (r[i].value.None? <==> LooseNull(Collect(input)[i].value))
    ensures forall i :: 0 <= i < |r| && r[i].value.Some? ==>
      r[i].value.value == ParseServer(Collect(input)[i].value)
  {
    MapValues(Collect(input), ParseEntry)
  }

  class Servers {
    /** The parsed servers; null until setAdditionalData assigns them. */
    var servers: Option<seq<Item<Option<Server>>>>

    constructor ()
      ensures servers == None
    {
      servers := None;
    }

    /** setAdditionalData($input): replaces the held list and returns this object. */
    method SetAdditionalData(input: Value) returns (self: Servers)
      modifies this
      ensures servers == Some(ParsedServers(input))
      ensures self == this
    {
      servers := Some(ParsedServers(input));
      self := this;
    }

    /** Servers::parse($input): a new collection object holding the parsed list. */
    static method Parse(input: Value) returns (r: Servers)
      ensures fresh(r)
      ensures r.servers == Some(ParsedServers(input))
    {
      var s := new Servers();
      r := s.SetAdditionalData(input);
    }
  }

  // ---------------------------------------------------------------------------
  // Reading and deleting
  // ---------------------------------------------------------------------------

  /**
   list(): null on an error; otherwise an envelope holding exactly the parsed
   `meta` and the list setAdditionalData makes of the payload's `servers`,
   with the response headers.
   */
  function List(response: Response): (r: Option<ApiResponse>)
    ensures r.None? <==> response.hasError
    ensures r.Some? ==> r.value.headers == response.headers
    ensures r.Some? ==> r.value.parts.Keys == {"meta", "servers"}
    ensures r.Some? ==> r.value.parts["meta"] == MetaPart(ParseMeta(Prop(response.body, "meta")))
    ensures r.Some? ==> r.value.parts["servers"] == ServersPart(ParsedServers(Prop(response.body, "servers")))
  {
    if response.hasError then None
    else
      var many := GetKeys()["many"];
      Some(ApiResponse(
        map["meta" := MetaPart(ParseMeta(Prop(response.body, "meta"))),
            many := ServersPart(ParsedServers(Prop(response.body, many)))],
        response.headers))
  }

  /**
   getByName(): the entry under key 0 of the listed servers when the list is
   not empty, null otherwise. The name filter only shapes the request, which
   is not part of this model.
   */
  function GetByName(response: Response): (r: Option<Server>)
    ensures response.hasError ==> r.None?
    ensures !response.hasError ==>
      var raw := Collect(Prop(response.body, "servers"));
      r == if |raw| == 0 || Lookup(raw, IntKey(0)).None? then None else ParseEntry(Lookup(raw, IntKey(0)).value)
    ensures !response.hasError && IsList(Collect(Prop(response.body, "servers"))) ==>
      var raw := Collect(Prop(response.body, "servers"));
      r == if |raw| == 0 then None else ParseEntry(raw[0].value)
  {
    match List(response)
    case None => None
    case Some(envelope) =>
      var servers := envelope.parts["servers"].servers;
      LookupMapValues(Collect(Prop(response.body, "servers")), ParseEntry, IntKey(0));
      if |servers| > 0 then
        match Lookup(servers, IntKey(0))
        case Some(entry) => entry
        case None => None
      else None
  }

  /** getById(): null on an error, otherwise the server parsed from the payload's `server`. */
  function GetById(response: Response): (r: Option<Server>)
    ensures r.None? <==> response.hasError
    ensures r.Some? ==> r.value == ParseServer(Prop(response.body, "server"))
  {
    if response.hasError then None
    else Some(ParseServer(Prop(response.body, GetKeys()["one"])))
  }

  /** deleteById(): null on an error, otherwise the action parsed from the payload's `action`. */
  function DeleteById(response: Response): (r: Option<Action>)
    ensures r.None? <==> response.hasError
    ensures r.Some? ==> r.value == ParseAction(Prop(response.body, "action"))
  {
    if response.hasError then None
    else Some(ParseAction(Prop(response.body, "action")))
  }

  // ---------------------------------------------------------------------------
  // Creating: the request body
  // ---------------------------------------------------------------------------

  /** Where the server goes: the datacenter of createInDatacenter or the location of createInLocation. */
  datatype Placement = InDatacenter(datacenter: Option<Datacenter>) | InLocation(location: Option<Location>)

  /**
   The arguments the two create methods share. The parameters that
   createInDatacenter leaves untyped carry the types its documentation
   gives them, which are the types createInLocation declares.
   */
  datatype CreateArgs = CreateArgs(
    name: string,
    serverType: ServerType,
    image: Image,
    sshKeys: PhpArray,
    startAfterCreate: bool,
    userData: string,
    volumes: PhpArray,
    automount: bool,
    networks: PhpArray,
    labels: PhpArray,
    firewalls: PhpArray,
    publicNet: Option<PhpArray>,
    placementGroup: Option<int>)

  /** The arguments left at their defaults. */
  function DefaultArgs(name: string, serverType: ServerType, image: Image): (a: CreateArgs)
    ensures a.name == name && a.serverType == serverType && a.image == image
    ensures a.startAfterCreate && !a.automount && a.userData == ""
    ensures a.sshKeys == a.volumes == a.networks == a.labels == a.firewalls == Arr([])
    ensures a.publicNet.None? && a.placementGroup.None?
  {
    CreateArgs(name, serverType, image, Arr([]), true, "", Arr([]), false, Arr([]), Arr([]), Arr([]), None, None)
  }

  /**
   The keys a create body can carry. `Place` is the key of the placement,
   which createInDatacenter writes `datacenter` and createInLocation
   writes `location`.
   */
  datatype Param =
    | Name | ServerTypeId | Place | ImageId | StartAfterCreate | UserData | SshKeys
    | Volumes | Automount | Networks | Labels | Firewalls | PublicNet | PlacementGroupId

  /** Every key a create body can carry. */
  const AllParams: set<Param> :=
    {Name, ServerTypeId, Place, ImageId, StartAfterCreate, UserData, SshKeys,
     Volumes, Automount, Networks, Labels, Firewalls, PublicNet, PlacementGroupId}

  /** The ten keys every create body carries. */
  const BaseKeys: set<Param> :=
    {Name, ServerTypeId, Place, ImageId, StartAfterCreate, UserData, SshKeys, Volumes, Automount, Networks}

  /** Every key is one of AllParams. */
  lemma InAllParams(k: Param)
    ensures k in AllParams
  {
  }

  /**
   The key as it is written in the JSON body. The placement is the only
   key whose name depends on the method, and no other key takes either of
   its two names.
   */
  function WireName(p: Placement, k: Param): (name: string)
    ensures k == Place ==> name == if p.InDatacenter? then "datacenter" else "location"
    ensures k != Place ==> name != "datacenter" && name != "location"
  {
    match k
    case Name => "name"
    case ServerTypeId => "server_type"
    case Place => if p.InDatacenter? then "datacenter" else "location"
    case ImageId => "image"
    case StartAfterCreate => "start_after_create"
    case UserData => "user_data"
    case SshKeys => "ssh_keys"
    case Volumes => "volumes"
    case Automount => "automount"
    case Networks => "networks"
    case Labels => "labels"
    case Firewalls => "firewalls"
    case PublicNet => "public_net"
    case PlacementGroupId => "placement_group"
  }

  /** The JSON names of the fourteen keys, as the create methods write them. */
  lemma WireNames(p: Placement)
    ensures WireName(p, Name) == "name" && WireName(p, ServerTypeId) == "server_type"
    ensures WireName(p, Place) == if p.InDatacenter? then "datacenter" else "location"
    ensures WireName(p, ImageId) == "image" && WireName(p, StartAfterCreate) == "start_after_create"
    ensures WireName(p, UserData) == "user_data" && WireName(p, SshKeys) == "ssh_keys"
    ensures WireName(p, Volumes) == "volumes" && WireName(p, Automount) == "automount"
    ensures WireName(p, Networks) == "networks" && WireName(p, Labels) == "labels"
    ensures WireName(p, Firewalls) == "firewalls" && WireName(p, PublicNet) == "public_net"
    ensures WireName(p, PlacementGroupId) == "placement_group"
  {
  }

  /** Distinct keys have distinct JSON names. */
  lemma WireNameInjective(p: Placement, k: Param, l: Param)
    requires k != l
    ensures WireName(p, k) != WireName(p, l)
  {
  }

  /** `$datacenter == null ? null : $datacenter->id`, and the same for a location. */
  function PlaceValue(p: Placement): (v: Value)
    ensures v == Null <==> (p.InDatacenter? && p.datacenter.None?) || (p.InLocation? && p.location.None?)
    ensures p.InDatacenter? && p.datacenter.Some? ==> v == Int(p.datacenter.value.id)
    ensures p.InLocation? && p.location.Some? ==> v == Int(p.location.value.id)
  {
    match p
    case InDatacenter(d) => if d.None? then Null else Int(d.value.id)
    case InLocation(l) => if l.None? then Null else Int(l.value.id)
  }

  /** `$public_net`: null when the argument was left out. */
  function PublicNetValue(a: CreateArgs): Value {
    if a.publicNet.None? then Null else a.publicNet.value
  }

  /** `$placement_group`: null when the argument was left out. */
  function PlacementGroupValue(a: CreateArgs): Value {
    if a.placementGroup.None? then Null else Int(a.placementGroup.value)
  }

  /** The test an optional key of the create body must pass to be sent. */
  datatype Test =
    | NotEmpty       // `! empty($value)`
    | NotNull        // `$value !== null`
    | NotLooseNull   // `$value != null`
  {
    predicate Passes(v: Value) {
      match this
      case NotEmpty => !Empty(v)
      case NotNull => v != Null
      case NotLooseNull => !LooseNull(v)
    }
  }

  /** An optional key's entry: the value when it passes the test, nothing otherwise. */
  function SendIf(t: Test, v: Value): Option<Value> {
    if t.Passes(v) then Some(v) else None
  }

  /**
   The `$parameters` array the create methods post: the ten keys it always
   holds, then the four it holds only when their tests pass (None when the
   key is not set).
   */
  datatype Parameters = Parameters(
    name: Value, serverType: Value, place: Value, image: Value, startAfterCreate: Value,
    userData: Value, sshKeys: Value, volumes: Value, automount: Value, networks: Value,
    labels: Option<Value>, firewalls: Option<Value>, publicNet: Option<Value>, placementGroup: Option<Value>)
  {
    /** `$parameters[k]`, or None when `k` is not set. */
    function Get(k: Param): Option<Value> {
      match k
      case Name => Some(name)
      case ServerTypeId => Some(serverType)
      case Place => Some(place)
      case ImageId => Some(image)
      case StartAfterCreate => Some(startAfterCreate)
      case UserData => Some(userData)
      case SshKeys => Some(sshKeys)
      case Volumes => Some(volumes)
      case Automount => Some(automount)
      case Networks => Some(networks)
      case Labels => labels
      case Firewalls => firewalls
      case PublicNet => publicNet
      case PlacementGroupId => placementGroup
    }

    /** The keys that are set. */
    function Keys(): set<Param> {
      set k | k in AllParams && Get(k).Some?
    }
  }

  /**
   Two bodies that hold the same value under every key are the same body:
   `Get` loses nothing, so the properties below, which are stated through
   `Get` and `Keys`, speak about the whole `$parameters` array.
   */
  lemma {:induction false} ParametersByKey(b: Parameters, c: Parameters)
    requires forall k :: b.Get(k) == c.Get(k)
    ensures b == c
  {
    assert b.Get(Name) == c.Get(Name) && b.Get(ServerTypeId) == c.Get(ServerTypeId);
    assert b.Get(Place) == c.Get(Place) && b.Get(ImageId) == c.Get(ImageId);
    assert b.Get(StartAfterCreate) == c.Get(StartAfterCreate) && b.Get(UserData) == c.Get(UserData);
    assert b.Get(SshKeys) == c.Get(SshKeys) && b.Get(Volumes) == c.Get(Volumes);
    assert b.Get(Automount) == c.Get(Automount) && b.Get(Networks) == c.Get(Networks);
    assert b.Get(Labels) == c.Get(Labels) && b.Get(Firewalls) == c.Get(Firewalls);
    assert b.Get(PublicNet) == c.Get(PublicNet) && b.Get(PlacementGroupId) == c.Get(PlacementGroupId);
  }

  /** The JSON object a body is posted as (`['json' => $parameters]`): each key that is set, under its name. */
  function Json(p: Placement, body: Parameters): (json: map<string, Value>)
    ensures json.Keys == set k | k in body.Keys() :: WireName(p, k)
    ensures forall k | k in body.Keys() :: json[WireName(p, k)] == body.Get(k).value
  {
    var keys := body.Keys();
    forall k, l | k in keys && l in keys && WireName(p, k) == WireName(p, l) ensures k == l {
      if k != l { WireNameInjective(p, k, l); }
    }
    map k | k in keys :: WireName(p, k) := body.Get(k).value
  }

  /**
   The create body as the two create methods describe it: the ten base
   keys with the given values, and each optional key under its test.
   */
  function RequestBody(p: Placement, a: CreateArgs): Parameters {
    Parameters(
      Str(a.name), Int(a.serverType.id), PlaceValue(p), Int(a.image.id), Bool(a.startAfterCreate),
      Str(a.userData), a.sshKeys, a.volumes, Bool(a.automount), a.networks,
      SendIf(NotEmpty, a.labels), SendIf(NotEmpty, a.firewalls),
      SendIf(NotNull, PublicNetValue(a)), SendIf(NotLooseNull, PlacementGroupValue(a)))
  }

  /**
   The `$parameters` array of createInDatacenter and createInLocation:
   the ten base keys, then each optional key set when its test passes.
   */
  method BuildParameters(p: Placement, a: CreateArgs) returns (parameters: Parameters)
    ensures parameters == RequestBody(p, a)
  {
    parameters := Parameters(
      name := Str(a.name),
      serverType := Int(a.serverType.id),
      place := PlaceValue(p),
      image := Int(a.image.id),
      startAfterCreate := Bool(a.startAfterCreate),
      userData := Str(a.userData),
      sshKeys := a.sshKeys,
      volumes := a.volumes,
      automount := Bool(a.automount),
      networks := a.networks,
      labels := None, firewalls := None, publicNet := None, placementGroup := None);
    if !Empty(a.labels) {
      parameters := parameters.(labels := Some(a.labels));
    }
    if !Empty(a.firewalls) {
      parameters := parameters.(firewalls := Some(a.firewalls));
    }
    if a.publicNet.Some? {
      parameters := parameters.(publicNet := Some(a.publicNet.value));
    }
    var placementGroup := PlacementGroupValue(a);
    if !LooseNull(placementGroup) {
      parameters := parameters.(placementGroup := Some(placementGroup));
    }
  }

  // ---------------------------------------------------------------------------
  // Creating: the response
  // ---------------------------------------------------------------------------

  /** The `next_actions` part holds the payload's next actions, each parsed, under the same keys in the same order. */
  predicate NextActionsParsed(part: Part, raw: Value) {
    && part.ActionsPart?
    && |part.actions| == |Collect(raw)|
    && forall i :: 0 <= i < |part.actions| ==>
         part.actions[i] == Item(Collect(raw)[i].key, ParseAction(Collect(raw)[i].value))
  }

  /**
   The result of both create methods: null on an error; otherwise `action`,
   `server` and `next_actions`, merged with `root_password` only when the
   payload has that property.
   */
  function CreateResult(response: Response): (r: Option<ApiResponse>)
    ensures r.None? <==> response.hasError
    ensures r.Some? ==> r.value.headers == response.headers
    ensures r.Some? ==> "action" in r.value.parts && "server" in r.value.parts && "next_actions" in r.value.parts
    ensures r.Some? ==> r.value.parts["action"] == ActionPart(ParseAction(Prop(response.body, "action")))
    ensures r.Some? ==> r.value.parts["server"] == ServerPart(ParseServer(Prop(response.body, "server")))
    ensures r.Some? ==> NextActionsParsed(r.value.parts["next_actions"], Prop(response.body, "next_actions"))
    ensures r.Some? && "root_password" in r.value.parts ==>
      r.value.parts["root_password"] == RawPart(Prop(response.body, "root_password"))
  {
    if response.hasError then None
    else
      var payload := response.body;
      var parts := map[
        "action" := ActionPart(ParseAction(Prop(payload, "action"))),
        "server" := ServerPart(ParseServer(Prop(payload, "server"))),
        "next_actions" := ActionsPart(MapValues(Collect(Prop(payload, "next_actions")), ParseAction))];
      var merged := if PropertyExists(payload, "root_password")
        then parts["root_password" := RawPart(Prop(payload, "root_password"))]
        else parts;
      Some(ApiResponse(merged, response.headers))
  }

  /**
   A successful create result holds `action`, `server` and `next_actions`,
   holds `root_password` exactly when the payload has that property, and
   nothing else.
   */
  lemma CreateResultKeys(response: Response)
    requires !response.hasError
    ensures "root_password" in CreateResult(response).value.parts <==> PropertyExists(response.body, "root_password")
    ensures CreateResult(response).value.parts.Keys - {"root_password"} == {"action", "server", "next_actions"}
  {
  }

  /**
   createInDatacenter(): the body it builds, the JSON object it posts, and
   the result it returns for the transport's response.
   */
  method CreateInDatacenter(a: CreateArgs, datacenter: Option<Datacenter>, response: Response)
    returns (parameters: Parameters, json: map<string, Value>, result: Option<ApiResponse>)
    ensures parameters == RequestBody(InDatacenter(datacenter), a)
    ensures json == Json(InDatacenter(datacenter), parameters)
    ensures result == CreateResult(response)
  {
    parameters := BuildParameters(InDatacenter(datacenter), a);
    json := Json(InDatacenter(datacenter), parameters);
    result := CreateResult(response);
  }

  /**
   createInLocation(): the body it builds, the JSON object it posts, and
   the result it returns for the transport's response.
   */
  method CreateInLocation(a: CreateArgs, location: Option<Location>, response: Response)
    returns (parameters: Parameters, json: map<string, Value>, result: Option<ApiResponse>)
    ensures parameters == RequestBody(InLocation(location), a)
    ensures json == Json(InLocation(location), parameters)
    ensures result == CreateResult(response)
  {
    parameters := BuildParameters(InLocation(location), a);
    json := Json(InLocation(location), parameters);
    result := CreateResult(response);
  }

  // ---------------------------------------------------------------------------
  // Properties of the create body
  // ---------------------------------------------------------------------------

  /** The ten base keys are always sent, with the given values and the ids of the given objects. */
  lemma BaseParameters(p: Placement, a: CreateArgs)
    ensures BaseKeys <= RequestBody(p, a).Keys()
    ensures var body := RequestBody(p, a);
      && body.Get(Name) == Some(Str(a.name))
      && body.Get(ServerTypeId) == Some(Int(a.serverType.id))
      && body.Get(ImageId) == Some(Int(a.image.id))
      && body.Get(StartAfterCreate) == Some(Bool(a.startAfterCreate))
      && body.Get(UserData) == Some(Str(a.userData))
      && body.Get(SshKeys) == Some(a.sshKeys)
      && body.Get(Volumes) == Some(a.volumes)
      && body.Get(Automount) == Some(Bool(a.automount))
      && body.Get(Networks) == Some(a.networks)
  {
  }

  /** createInDatacenter always sends `datacenter`: null when none was passed, its id otherwise. */
  lemma DatacenterParameter(d: Option<Datacenter>, a: CreateArgs)
    ensures WireName(InDatacenter(d), Place) == "datacenter"
    ensures RequestBody(InDatacenter(d), a).Get(Place) == Some(if d.None? then Null else Int(d.value.id))
  {
  }

  /** createInLocation always sends `location`: null when none was passed, its id otherwise. */
  lemma LocationParameter(l: Option<Location>, a: CreateArgs)
    ensures WireName(InLocation(l), Place) == "location"
    ensures RequestBody(InLocation(l), a).Get(Place) == Some(if l.None? then Null else Int(l.value.id))
  {
  }

  /** `labels` and `firewalls` are sent exactly when they are non-empty, and then as given. */
  lemma LabelsAndFirewallsRule(p: Placement, a: CreateArgs)
    ensures RequestBody(p, a).Get(Labels) == if |a.labels.entries| > 0 then Some(a.labels) else None
    ensures RequestBody(p, a).Get(Firewalls) == if |a.firewalls.entries| > 0 then Some(a.firewalls) else None
  {
  }

  /** `public_net` is sent exactly when it is not null, so an empty array is still sent. */
  lemma PublicNetRule(p: Placement, a: CreateArgs)
    ensures RequestBody(p, a).Get(PublicNet).Some? <==> a.publicNet.Some?
    ensures a.publicNet.Some? ==> RequestBody(p, a).Get(PublicNet) == Some(a.publicNet.value)
  {
  }

  /** `placement_group` is sent exactly when it is neither null nor 0. */
  lemma PlacementGroupRule(p: Placement, a: CreateArgs)
    ensures RequestBody(p, a).Get(PlacementGroupId) ==
      if a.placementGroup.Some? && a.placementGroup.value != 0 then Some(Int(a.placementGroup.value)) else None
  {
  }

  /** The keys that are sent depending on the arguments. */
  function OptionalKeys(a: CreateArgs): set<Param> {
    (if |a.labels.entries| > 0 then {Labels} else {})
    + (if |a.firewalls.entries| > 0 then {Firewalls} else {})
    + (if a.publicNet.Some? then {PublicNet} else {})
    + (if a.placementGroup.Some? && a.placementGroup.value != 0 then {PlacementGroupId} else {})
  }

  /** Nothing else is sent: the body's keys are the base keys and the optional keys whose tests pass. */
  lemma ParameterKeys(p: Placement, a: CreateArgs)
    ensures RequestBody(p, a).Keys() == BaseKeys + OptionalKeys(a)
  {
    var body := RequestBody(p, a);
    BaseParameters(p, a);
    LabelsAndFirewallsRule(p, a);
    PublicNetRule(p, a);
    PlacementGroupRule(p, a);
    forall k ensures k in body.Keys() <==> k in BaseKeys + OptionalKeys(a) {
      InAllParams(k);
    }
  }

  /**
   With every optional argument at its default, only the base keys are
   sent, and with the datacenter or location left at its default the
   placement is sent as null.
   */
  lemma DefaultParameters(p: Placement, name: string, serverType: ServerType, image: Image)
    ensures RequestBody(p, DefaultArgs(name, serverType, image)).Keys() == BaseKeys
    ensures RequestBody(InDatacenter(None), DefaultArgs(name, serverType, image)).Get(Place) == Some(Null)
    ensures RequestBody(InLocation(None), DefaultArgs(name, serverType, image)).Get(Place) == Some(Null)
  {
  }

  /** A key's JSON name is posted exactly when the key is set. */
  lemma JsonHasKey(p: Placement, body: Parameters, k: Param)
    ensures WireName(p, k) in Json(p, body) <==> k in body.Keys()
  {
    var json := Json(p, body);
    if k in body.Keys() {
      assert WireName(p, k) in json;
    } else if WireName(p, k) in json {
      var l :| l in body.Keys() && WireName(p, l) == WireName(p, k);
      WireNameInjective(p, k, l);
      assert false;
    }
  }

  /**
   createInDatacenter and createInLocation send the same body for the same
   shared arguments, except for the placement, which one writes under
   `datacenter` and the other under `location`.
   */
  lemma DatacenterAndLocationAgree(d: Option<Datacenter>, l: Option<Location>, a: CreateArgs)
    ensures forall k :: k != Place ==> RequestBody(InDatacenter(d), a).Get(k) == RequestBody(InLocation(l), a).Get(k)
    ensures WireName(InDatacenter(d), Place) == "datacenter" && WireName(InLocation(l), Place) == "location"
    ensures forall k :: k != Place ==> WireName(InDatacenter(d), k) == WireName(InLocation(l), k)
  {
  }

  /** In a successful list whose servers form a list, getByName returns the first entry, parsed. */
  lemma GetByNameFirst(response: Response)
    requires !response.hasError
    requires IsList(Collect(Prop(response.body, "servers")))
    requires |Collect(Prop(response.body, "servers"))| > 0
    ensures GetByName(response) == ParseEntry(Collect(Prop(response.body, "servers"))[0].value)
  {
  }

  /**
   A successful page whose `servers` is a decoded object with a property
   named "0": the `(array)` cast of `collect` stores that property under
   the integer key 0, so getByName returns it. json_decode names every
   property with a string.
   */
  lemma GetByNameNumericProperty(response: Response, v: Value)
    requires !response.hasError
    requires Prop(response.body, "servers").Obj?
    requires forall i :: 0 <= i < |Prop(response.body, "servers").props| ==>
      Prop(response.body, "servers").props[i].key.StrKey?
    requires Lookup(Prop(response.body, "servers").props, StrKey("0")) == Some(v)
    ensures GetByName(response) == ParseEntry(v)
  {
    var props := Prop(response.body, "servers").props;
    var raw := Collect(Prop(response.body, "servers"));
    forall i | 0 <= i < |props| ensures raw[i].key == IntKey(0) <==> props[i].key == StrKey("0") {
      IntegerKeyIff(props[i].key.s, 0);
    }
    var i :| 0 <= i < |props| && props[i] == Item(StrKey("0"), v) && forall j :: 0 <= j < i ==> props[j].key != StrKey("0");
    assert raw[i] == Item(IntKey(0), v);
    LookupFirst(raw, i, IntKey(0));
  }
}
