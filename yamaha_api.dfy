/**
 * The request side of the receiver client: the action table, the zone
 * handling of its segments, and the object tree that `buildRequestData`
 * assembles before it is serialised to XML.
 */
module YamahaApi {
  import opened Wrappers
  import opened JsObject
  import Strings

  /** The table placeholder for the zone-B node. */
  const ZoneIdentifier: string := "$ZONE$"

  /** The zone-B name used when none (or an empty one) is configured. */
  const DefaultZoneBName: string := "ZONE_B"

  datatype YamahaAction = Power | VolumeSet | VolumeGet | Mute

  datatype YamahaActionValue = On | Standby | Off | Up | Down | GetParam

  datatype YamahaCommand = Set | Get

  /** The string value of each `YamahaAction` member: only `Power` is spelled `POWER`. */
  function ActionName(a: YamahaAction): (name: string)
    ensures name == "POWER" <==> a == Power
  {
    match a
    case Power => "POWER"
    case VolumeSet => "VOLUME_SET"
    case VolumeGet => "VOLUME_GET"
    case Mute => "MUTE"
  }

  /**
   * The string value of each `YamahaActionValue` member, as the device spells
   * it: a capitalised word, so never the text of a JSON document.
   */
  function Token(v: YamahaActionValue): (token: string)
    ensures |token| >= 2 && 'A' <= token[0] <= 'Z'
  {
    match v
    case On => "On"
    case Standby => "Standby"
    case Off => "Off"
    case Up => "Up"
    case Down => "Down"
    case GetParam => "GetParam"
  }

  /** The `cmd` attribute each command puts on the root element: `PUT` for a set, `GET` for a get. */
  function CommandToken(c: YamahaCommand): (token: string)
    ensures token == "PUT" <==> c == Set
    ensures token == "GET" <==> c == Get
  {
    match c
    case Set => "PUT"
    case Get => "GET"
  }

  /** Distinct enum members have distinct strings, so a token names its member. */
  lemma TokensDistinct(v: YamahaActionValue, w: YamahaActionValue)
    ensures Token(v) == Token(w) <==> v == w
    ensures CommandToken(Set) != CommandToken(Get)
  {
  }

  /** Distinct actions have distinct names. */
  lemma ActionNamesDistinct(a: YamahaAction, b: YamahaAction)
    ensures ActionName(a) == ActionName(b) <==> a == b
  {
  }

  /** `YamahaActionStructures`: the node-name segments of each action, outermost first. */
  function ActionStructure(a: YamahaAction): (segments: seq<string>)
    ensures |segments| >= 2 && segments[0] != ZoneIdentifier
  {
    match a
    case Power => ["Power_Control", "Power"]
    case VolumeSet => ["Volume", ZoneIdentifier, "Val.Exp.Unit"]
    case VolumeGet => ["Volume", ZoneIdentifier, "Lvl"]
    case Mute => ["Volume", ZoneIdentifier, "Mute"]
  }

  /**
   * What one segment becomes: `None` when it is skipped, otherwise the node
   * string to split. The zone placeholder is skipped for the main zone and
   * replaced by the zone-B name for zone B; a segment equal to "POWER" is
   * renamed for zone B.
   */
  function ResolveSegment(segment: string, isZoneB: bool, zoneBName: string): (r: Option<string>)
    ensures r.None? <==> segment == ZoneIdentifier && !isZoneB
    ensures segment == ZoneIdentifier && isZoneB ==> r == Some(zoneBName)
    ensures r == Some(zoneBName + "_" + segment) <== isZoneB && segment == "POWER"
    ensures r.Some? && segment != ZoneIdentifier && segment != "POWER" ==> r.value == segment
    ensures !isZoneB && segment != ZoneIdentifier ==> r == Some(segment)
  {
    if segment == ZoneIdentifier then
      if !isZoneB then None else Some(zoneBName)
    else if isZoneB && segment == "POWER" then Some(zoneBName + "_" + segment)
    else Some(segment)
  }

  /** The names one segment splits into: `split` never returns none. */
  type NodeNames = names: seq<string> | |names| >= 1 witness [""]

  /** How often `x` occurs in `s`. */
  function Count(s: seq<string>, x: string): nat {
    if s == [] then 0 else Count(s[..|s| - 1], x) + (if s[|s| - 1] == x then 1 else 0)
  }

  /** The node names written at each level: one split list per segment that is not skipped. */
  function ResolvedParts(segments: seq<string>, isZoneB: bool, zoneBName: string): (parts: seq<NodeNames>)
    ensures |parts| == |segments| - (if isZoneB then 0 else Count(segments, ZoneIdentifier))
  {
    if segments == [] then []
    else
      var init := ResolvedParts(segments[..|segments| - 1], isZoneB, zoneBName);
      match ResolveSegment(segments[|segments| - 1], isZoneB, zoneBName)
      case None => init
      case Some(name) => init + [Strings.Split(name, '.')]
  }

  /** Resolving one more segment adds its split names as a level, unless the segment is skipped. */
  lemma ResolvedPartsSnoc(segments: seq<string>, i: nat, isZoneB: bool, zoneBName: string)
    requires i < |segments|
    ensures ResolvedParts(segments[..i + 1], isZoneB, zoneBName)
         == match ResolveSegment(segments[i], isZoneB, zoneBName)
            case None => ResolvedParts(segments[..i], isZoneB, zoneBName)
            case Some(name) => ResolvedParts(segments[..i], isZoneB, zoneBName) + [Strings.Split(name, '.')]
  {
    assert segments[..i + 1][..i] == segments[..i];
  }

  /** The first name of every level: the property path the builder's cursor follows. */
  function Firsts(parts: seq<NodeNames>): (path: seq<string>)
    ensures |path| == |parts|
  {
    if parts == [] then [] else [parts[0][0]] + Firsts(parts[1..])
  }

  /** The object that `for (n of names) o[n] = {}` leaves in an empty `o`. */
  function Level(names: seq<string>): (o: Json)
    ensures o.Obj?
  {
    if names == [] then Empty else Put(Level(names[..|names| - 1]), names[|names| - 1], Empty)
  }

  /** A level is a real object: no name listed twice, and each listed name is a property. */
  lemma {:induction false} LevelProper(names: seq<string>)
    ensures Proper(Level(names))
    decreases |names|
  {
    if names != [] {
      LevelProper(names[..|names| - 1]);
      PutProper(Level(names[..|names| - 1]), names[|names| - 1], Empty);
    }
  }

  /** Every property of a level is an empty object. */
  lemma {:induction false} LevelValue(names: seq<string>, n: string)
    requires n in Level(names).props
    ensures Level(names).props[n] == Empty
    decreases |names|
  {
    if names != [] {
      var init := names[..|names| - 1];
      if n != names[|names| - 1] {
        LevelValue(init, n);
      }
    }
  }

  /** Each name given becomes a property of the level. */
  lemma {:induction false} LevelHas(names: seq<string>, i: nat)
    requires i < |names|
    ensures Prop(Level(names), names[i]) == Some(Empty)
    decreases |names|
  {
    var init := names[..|names| - 1];
    var last := names[|names| - 1];
    if names[i] != last {
      LevelHas(init, i);
      PutOther(Level(init), last, Empty, names[i]);
    }
  }

  /** A level has no property that was not given as a name. */
  lemma {:induction false} LevelOnly(names: seq<string>, n: string)
    requires n in Level(names).keys
    ensures n in names
    decreases |names|
  {
    if names != [] {
      var init := names[..|names| - 1];
      var last := names[|names| - 1];
      if n != last {
        LevelOnly(init, n);
        assert init[..] == names[..|names| - 1];
      }
    }
  }

  /** The first name given is the first property of the level. */
  lemma {:induction false} LevelFirst(names: seq<string>)
    requires names != []
    ensures |Level(names).keys| > 0 && Level(names).keys[0] == names[0]
    decreases |names|
  {
    var init := names[..|names| - 1];
    if init != [] {
      LevelFirst(init);
    }
  }

  /** Level of names that are all different lists them in split order. */
  lemma {:induction false} LevelOrder(names: seq<string>)
    requires forall i, j :: 0 <= i < j < |names| ==> names[i] != names[j]
    ensures Level(names).keys == names
    decreases |names|
  {
    if names != [] {
      var init := names[..|names| - 1];
      LevelOrder(init);
      assert names[|names| - 1] !in init;
    }
  }

  /** What a level holds: exactly the names given, the first of them first, each an empty object. */
  lemma LevelShape(names: seq<string>)
    ensures forall n :: n in Level(names).keys <==> n in names
    ensures forall n :: n in Level(names).props ==> Level(names).props[n] == Empty
    ensures names != [] ==> |Level(names).keys| > 0 && Level(names).keys[0] == names[0]
  {
    forall n | n in Level(names).keys ensures n in names { LevelOnly(names, n); }
    forall i | 0 <= i < |names| ensures names[i] in Level(names).keys { LevelHas(names, i); }
    forall n | n in Level(names).props ensures Level(names).props[n] == Empty { LevelValue(names, n); }
    if names != [] { LevelFirst(names); }
  }

  /** The first name of a level reads as an empty object. */
  lemma LevelFirstEmpty(names: seq<string>)
    requires |names| >= 1
    ensures Prop(Level(names), names[0]) == Some(Empty)
  {
    LevelHas(names, 0);
  }

  /**
   * The subtree the builder leaves under `Main_Zone`, described from the
   * inside out: each level holds its names as empty objects, except that the
   * first name holds the rest of the chain.
   */
  function Chain(parts: seq<NodeNames>): (t: Json)
    ensures t.Obj?
    decreases |parts|
  {
    if parts == [] then Empty
    else Put(Level(parts[0]), parts[0][0], Chain(parts[1..]))
  }

  /** The complete object handed to the XML serialiser: the `cmd` attribute and the zone subtree. */
  function RequestTree(command: YamahaCommand, mainZone: Json): (t: Json)
    ensures Prop(t, "Main_Zone") == Some(mainZone)
    ensures Prop(t, "@").Some? && Prop(Prop(t, "@").value, "cmd") == Some(Str(CommandToken(command)))
  {
    Obj(["@", "Main_Zone"],
        map["@" := Obj(["cmd"], map["cmd" := Str(CommandToken(command))]), "Main_Zone" := mainZone])
  }

  /**
   * The tree `buildRequestData` builds for an action. The action value is not
   * a parameter: the source never writes it into the tree.
   */
  function BuiltTree(command: YamahaCommand, action: YamahaAction, isZoneB: bool, zoneBName: string): (t: Json)
    ensures At(t, CursorPath(ResolvedParts(ActionStructure(action), isZoneB, zoneBName))) == Some(Empty)
  {
    RequestTerminal(command, ResolvedParts(ActionStructure(action), isZoneB, zoneBName));
    RequestTree(command, Chain(ResolvedParts(ActionStructure(action), isZoneB, zoneBName)))
  }

  /** A one-level chain is just the level: the cursor's node stays empty. */
  lemma ChainSingle(names: seq<string>)
    requires |names| >= 1
    ensures Chain([names]) == Level(names)
  {
    LevelFirstEmpty(names);
    PutUnchanged(Level(names), names[0], Empty);
    assert [names][1..] == [];
  }

  /**
   * Adding a level at the end of the chain is the same as filling the empty
   * object at the end of the cursor path.
   */
  lemma {:induction false} ChainSnoc(parts: seq<NodeNames>, names: NodeNames)
    ensures Graft(Chain(parts), Firsts(parts), Level(names)) == Chain(parts + [names])
    decreases |parts|
  {
    var longer := parts + [names];
    if parts == [] {
      ChainSingle(names);
      assert longer == [names];
    } else {
      var rest := parts[1..];
      var k := parts[0][0];
      ChainSnoc(rest, names);
      assert Firsts(parts) == [k] + Firsts(rest);
      GraftStep(Chain(parts), k, Firsts(rest), Level(names));
      PutTwice(Level(parts[0]), k, Chain(rest), Chain(rest + [names]));
      assert longer[0] == parts[0] && longer[1..] == rest + [names];
    }
  }

  /** Following the cursor path through a chain ends at an empty object: the terminal node. */
  lemma {:induction false} ChainTerminal(parts: seq<NodeNames>)
    ensures At(Chain(parts), Firsts(parts)) == Some(Empty)
    decreases |parts|
  {
    if parts != [] {
      var rest := parts[1..];
      ChainTerminal(rest);
      AtStep(Chain(parts), parts[0][0], Firsts(rest));
    }
  }

  /** One pass of the inner loop: writing the next name into the level under construction. */
  lemma LevelStep(tree: Json, path: seq<string>, names: seq<string>, j: nat)
    requires At(tree, path) == Some(Empty) && j < |names|
    ensures At(Graft(tree, path, Level(names[..j])), path) == Some(Level(names[..j]))
    ensures SetProperty(Graft(tree, path, Level(names[..j])), path, names[j], Empty)
         == Graft(tree, path, Level(names[..j + 1]))
  {
    assert names[..j + 1][..j] == names[..j];
    GraftTwice(tree, path, Level(names[..j]), Put(Level(names[..j]), names[j], Empty));
  }

  /** The inner loop's last prefix is the whole list of names. */
  lemma LevelWhole(names: seq<string>)
    ensures Level(names[..|names|]) == Level(names)
  {
    assert names[..|names|] == names;
  }

  /**
   * The builder's cursor: `Main_Zone` followed by the first name of every
   * level built so far, so that it ends at the first name of the last level.
   */
  function CursorPath(parts: seq<NodeNames>): (path: seq<string>)
    ensures |path| == |parts| + 1 && path[0] == "Main_Zone"
    ensures parts != [] ==> path[|parts|] == parts[|parts| - 1][0]
  {
    FirstsLast(parts);
    ["Main_Zone"] + Firsts(parts)
  }

  /** The last key of the cursor path is the first name of the last level. */
  lemma {:induction false} FirstsLast(parts: seq<NodeNames>)
    ensures parts != [] ==> Firsts(parts)[|parts| - 1] == parts[|parts| - 1][0]
    decreases |parts|
  {
    if |parts| > 1 {
      FirstsLast(parts[1..]);
    }
  }

  /** At the end of the cursor path through any request tree sits an empty object. */
  lemma RequestTerminal(command: YamahaCommand, parts: seq<NodeNames>)
    ensures At(RequestTree(command, Chain(parts)), CursorPath(parts)) == Some(Empty)
  {
    ChainTerminal(parts);
    AtStep(RequestTree(command, Chain(parts)), "Main_Zone", Firsts(parts));
  }

  /** The request root holds the zone subtree under `Main_Zone`. */
  lemma RootMainZone(command: YamahaCommand, mainZone: Json, replaced: Json)
    ensures Prop(RequestTree(command, mainZone), "Main_Zone") == Some(mainZone)
    ensures Put(RequestTree(command, mainZone), "Main_Zone", replaced) == RequestTree(command, replaced)
  {
    var root := RequestTree(command, mainZone);
    assert root.keys[1] == "Main_Zone";
    assert root.props["Main_Zone" := replaced] == RequestTree(command, replaced).props;
  }

  /** `ChainSnoc` seen from the root of the request. */
  lemma ExtendRequest(command: YamahaCommand, parts: seq<NodeNames>, names: NodeNames)
    ensures At(RequestTree(command, Chain(parts)), CursorPath(parts)) == Some(Empty)
    ensures Graft(RequestTree(command, Chain(parts)), CursorPath(parts), Level(names))
         == RequestTree(command, Chain(parts + [names]))
    ensures CursorPath(parts + [names]) == CursorPath(parts) + [names[0]]
  {
    ChainSnoc(parts, names);
    ChainTerminal(parts);
    var root := RequestTree(command, Chain(parts));
    var grafted := Graft(Chain(parts), Firsts(parts), Level(names));
    RootMainZone(command, Chain(parts), grafted);
    AtStep(root, "Main_Zone", Firsts(parts));
    GraftStep(root, "Main_Zone", Firsts(parts), Level(names));
    FirstsSnoc(parts, names);
  }

  lemma {:induction false} FirstsSnoc(parts: seq<NodeNames>, names: NodeNames)
    ensures Firsts(parts + [names]) == Firsts(parts) + [names[0]]
    decreases |parts|
  {
    if parts != [] {
      FirstsSnoc(parts[1..], names);
      assert (parts + [names])[1..] == parts[1..] + [names];
    }
  }

  /** A skipped segment adds no level. */
  lemma SkipSegment(segments: seq<string>, i: nat, isZoneB: bool, zoneBName: string)
    requires i < |segments| && ResolveSegment(segments[i], isZoneB, zoneBName).None?
    ensures ResolvedParts(segments[..i + 1], isZoneB, zoneBName) == ResolvedParts(segments[..i], isZoneB, zoneBName)
  {
    ResolvedPartsSnoc(segments, i, isZoneB, zoneBName);
  }

  /**
   * One pass of the outer loop for a segment that is not skipped: the cursor
   * points at an empty object, filling it with the segment's level gives the
   * request of one more level, and the cursor moves into its first name.
   */
  lemma AddSegment(command: YamahaCommand, segments: seq<string>, i: nat, isZoneB: bool, zoneBName: string,
                   value: string, parts: seq<NodeNames>)
    requires i < |segments| && ResolveSegment(segments[i], isZoneB, zoneBName) == Some(value)
    requires parts == ResolvedParts(segments[..i], isZoneB, zoneBName)
    ensures parts + [Strings.Split(value, '.')] == ResolvedParts(segments[..i + 1], isZoneB, zoneBName)
    ensures At(RequestTree(command, Chain(parts)), CursorPath(parts)) == Some(Empty)
    ensures Graft(RequestTree(command, Chain(parts)), CursorPath(parts), Level(Strings.Split(value, '.')))
         == RequestTree(command, Chain(parts + [Strings.Split(value, '.')]))
    ensures CursorPath(parts + [Strings.Split(value, '.')]) == CursorPath(parts) + [Strings.Split(value, '.')[0]]
  {
    ResolvedPartsSnoc(segments, i, isZoneB, zoneBName);
    ExtendRequest(command, parts, Strings.Split(value, '.'));
  }

  /** The zone-B name the constructor keeps: the configured one unless it is missing or empty. */
  function ZoneBNameOrDefault(configured: Option<string>): (name: string)
    ensures name != ""
    ensures configured.Some? && configured.value != "" ==> name == configured.value
    ensures configured.None? || configured.value == "" ==> name == DefaultZoneBName
  {
    match configured
    case Some(n) => if n != "" then n else DefaultZoneBName
    case None => DefaultZoneBName
  }

  /** The control endpoint of the receiver at `receiverIP`. */
  function BaseUrl(receiverIP: string): (url: string)
    ensures |url| == |receiverIP| + 33
    ensures url[..7] == "http://" && url[|url| - 26..] == "/YamahaRemoteControl/ctrl/"
    ensures url[7..|url| - 26] == receiverIP
  {
    "http://" + receiverIP + "/YamahaRemoteControl/ctrl/"
  }

  /**
   * The inner loop of `buildRequestData`: `lastNode[nodeName] = {}` for every
   * name, where `lastNode` refers to the (empty) object at `lastNode` in `data`.
   * The object there becomes the level of those names; nothing else changes.
   */
  method AddNodes(data: Json, lastNode: seq<string>, nodeNames: seq<string>) returns (result: Json)
    requires At(data, lastNode) == Some(Empty)
    ensures result == Graft(data, lastNode, Level(nodeNames))
  {
    result := data;
    GraftSame(data, lastNode);
    for j := 0 to |nodeNames|
      invariant result == Graft(data, lastNode, Level(nodeNames[..j]))
    {
      LevelStep(data, lastNode, nodeNames, j);
      result := SetProperty(result, lastNode, nodeNames[j], Empty);
    }
    LevelWhole(nodeNames);
  }

  /** The receiver client; its two configuration fields are fixed at construction. */
  class YamahaAvrApi {
    const baseUrl: string
    const zoneBName: string

    constructor(receiverIP: string, zoneBName: Option<string>)
      ensures this.baseUrl == BaseUrl(receiverIP)
      ensures this.zoneBName == ZoneBNameOrDefault(zoneBName)
    {
      this.baseUrl := BaseUrl(receiverIP);
      this.zoneBName := ZoneBNameOrDefault(zoneBName);
    }

    /**
     * `buildRequestData` up to the serialisation: the tree for the action's
     * entry of the table. The closing `lastNode = actionValue` only rebinds
     * the local cursor, so the action value is not written anywhere.
     */
    method BuildRequestData(command: YamahaCommand, action: YamahaAction, actionValue: YamahaActionValue, isZoneB: bool)
      returns (data: Json)
      ensures data == BuiltTree(command, action, isZoneB, zoneBName)
    {
      data := WalkSegments(command, ActionStructure(action), isZoneB);
    }

    /**
     * The loop of `buildRequestData` over one table entry: walks the segments
     * with a cursor into the tree, writing an empty object for every name of
     * a segment and then moving the cursor into the first of them.
     */
    method WalkSegments(command: YamahaCommand, structure: seq<string>, isZoneB: bool) returns (data: Json)
      ensures data == RequestTree(command, Chain(ResolvedParts(structure, isZoneB, zoneBName)))
    {
      data := RequestTree(command, Empty);
      var lastNode: seq<string> := ["Main_Zone"];
      ghost var parts: seq<NodeNames> := [];
      for i := 0 to |structure|
        invariant parts == ResolvedParts(structure[..i], isZoneB, zoneBName)
        invariant data == RequestTree(command, Chain(parts))
        invariant lastNode == CursorPath(parts)
      {
        var nodeString := structure[i];
        var nodeStringValue := nodeString;
        if nodeString == ZoneIdentifier {
          if !isZoneB {
            SkipSegment(structure, i, isZoneB, zoneBName);
            continue;
          } else {
            nodeStringValue := zoneBName;
          }
        }
        if isZoneB && nodeString == "POWER" {
          nodeStringValue := zoneBName + "_" + nodeString;
        }
        var nodeNames := Strings.Split(nodeStringValue, '.');
        AddSegment(command, structure, i, isZoneB, zoneBName, nodeStringValue, parts);
        data := AddNodes(data, lastNode, nodeNames);
        lastNode := lastNode + [nodeNames[0]];
        parts := parts + [nodeNames];
      }
      assert structure[..|structure|] == structure;
    }

    /** `postReceiverSetAction`: the request it posts is a PUT carrying the action's tree. */
    method PostReceiverSetAction(action: YamahaAction, actionValue: YamahaActionValue, isZoneB: bool)
      returns (request: Json)
      ensures request == BuiltTree(Set, action, isZoneB, zoneBName)
    {
      request := BuildRequestData(Set, action, actionValue, isZoneB);
    }

    /** `postReceiverGetAction`: the request it posts is a GET built with the `GetParam` value. */
    method PostReceiverGetAction(action: YamahaAction, isZoneB: bool) returns (request: Json)
      ensures request == BuiltTree(Get, action, isZoneB, zoneBName)
    {
      request := BuildRequestData(Get, action, GetParam, isZoneB);
    }
  }
}
