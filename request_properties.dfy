/**
 * What `buildRequestData` builds, action by action: the levels each table
 * entry resolves to, the concrete trees for the main zone and for zone B,
 * and the shape every built tree has (root, cursor depth, empty nodes).
 */
module RequestProperties {
  import opened Wrappers
  import opened JsObject
  import opened YamahaApi
  import Strings

  /** An object with the single property `k`. */
  function Node(k: string, child: Json): Json {
    Obj([k], map[k := child])
  }

  /** The segments the zone-B name splits into. */
  function ZoneParts(zoneBName: string): NodeNames {
    Strings.Split(zoneBName, '.')
  }

  /** The dotted table segment splits into the three sibling names. */
  lemma SplitValExpUnit()
    ensures Strings.Split("Val.Exp.Unit", '.') == ["Val", "Exp", "Unit"]
  {
    Strings.SplitJoin(["Val", "Exp", "Unit"], '.');
    assert Strings.Join(["Val", "Exp", "Unit"], '.') == "Val.Exp.Unit";
  }

  /** A table entry shaped `[x, $ZONE$, y]` resolves to two levels, or three in zone B. */
  lemma ResolvedZoned(x: string, y: string, isZoneB: bool, zoneBName: string)
    requires x != ZoneIdentifier && x != "POWER" && y != ZoneIdentifier && y != "POWER"
    ensures ResolvedParts([x, ZoneIdentifier, y], isZoneB, zoneBName)
         == [Strings.Split(x, '.')] + (if isZoneB then [ZoneParts(zoneBName)] else []) + [Strings.Split(y, '.')]
  {
    var s := [x, ZoneIdentifier, y];
    assert s[..2] == [x, ZoneIdentifier];
    assert s[..2][..1] == [x];
    assert [x][..0] == [];
    assert ResolvedParts([x], isZoneB, zoneBName) == [Strings.Split(x, '.')];
    assert ResolvedParts(s[..2], isZoneB, zoneBName)
        == [Strings.Split(x, '.')] + (if isZoneB then [ZoneParts(zoneBName)] else []);
  }

  /** A table entry of two plain segments resolves to one level each, in either zone. */
  lemma ResolvedPlain(x: string, y: string, isZoneB: bool, zoneBName: string)
    requires x != ZoneIdentifier && x != "POWER" && y != ZoneIdentifier && y != "POWER"
    ensures ResolvedParts([x, y], isZoneB, zoneBName) == [Strings.Split(x, '.'), Strings.Split(y, '.')]
  {
    var s := [x, y];
    assert s[..1] == [x];
    assert [x][..0] == [];
  }

  /**
   * The levels of every action: the table's segments in order, split on
   * dots; the zone placeholder adds a level of the split zone-B name in zone
   * B and nothing in the main zone.
   */
  lemma {:induction false} ActionParts(action: YamahaAction, isZoneB: bool, zoneBName: string)
    ensures ResolvedParts(ActionStructure(action), isZoneB, zoneBName)
         == match action
            case Power => [["Power_Control"], ["Power"]]
            case VolumeSet => [["Volume"]] + (if isZoneB then [ZoneParts(zoneBName)] else []) + [["Val", "Exp", "Unit"]]
            case VolumeGet => [["Volume"]] + (if isZoneB then [ZoneParts(zoneBName)] else []) + [["Lvl"]]
            case Mute => [["Volume"]] + (if isZoneB then [ZoneParts(zoneBName)] else []) + [["Mute"]]
  {
    Strings.SplitWithoutSeparator("Power_Control", '.');
    Strings.SplitWithoutSeparator("Power", '.');
    Strings.SplitWithoutSeparator("Volume", '.');
    Strings.SplitWithoutSeparator("Lvl", '.');
    Strings.SplitWithoutSeparator("Mute", '.');
    SplitValExpUnit();
    match action
    case Power => ResolvedPlain("Power_Control", "Power", isZoneB, zoneBName);
    case VolumeSet => ResolvedZoned("Volume", "Val.Exp.Unit", isZoneB, zoneBName);
    case VolumeGet => ResolvedZoned("Volume", "Lvl", isZoneB, zoneBName);
    case Mute => ResolvedZoned("Volume", "Mute", isZoneB, zoneBName);
  }

  /**
   * No table segment is the literal `POWER`, so the zone-B power rename never
   * applies: every segment but the zone placeholder is written as it stands.
   */
  lemma PowerRenameNeverApplies(action: YamahaAction, isZoneB: bool, zoneBName: string, i: nat)
    requires i < |ActionStructure(action)|
    ensures ActionStructure(action)[i] != "POWER"
    ensures ActionStructure(action)[i] != ZoneIdentifier
         ==> ResolveSegment(ActionStructure(action)[i], isZoneB, zoneBName) == Some(ActionStructure(action)[i])
  {
  }

  /** A level of one name is the object with that single empty property. */
  lemma LevelOne(n: string)
    ensures Level([n]) == Node(n, Empty)
  {
    assert [n][..0] == [];
  }

  /** Writing the one property of a single-property object replaces its value. */
  lemma PutNode(k: string, a: Json, b: Json)
    ensures Put(Node(k, a), k, b) == Node(k, b)
  {
    assert map[k := a][k := b] == map[k := b];
  }

  /** A first level of one name nests the rest of the chain under that name. */
  lemma ChainCons(parts: seq<NodeNames>)
    requires |parts| >= 1 && |parts[0]| == 1
    ensures Chain(parts) == Node(parts[0][0], Chain(parts[1..]))
  {
    var n := parts[0][0];
    assert parts[0] == [n];
    LevelOne(n);
    PutNode(n, Empty, Chain(parts[1..]));
  }

  /** A chain of a one-name level and one more level: the second level sits under the name. */
  lemma ChainPair(parts: seq<NodeNames>)
    requires |parts| == 2 && |parts[0]| == 1
    ensures Chain(parts) == Node(parts[0][0], Level(parts[1]))
  {
    ChainCons(parts);
    assert parts[1..] == [parts[1]];
    ChainSingle(parts[1]);
  }

  /**
   * A chain of a one-name level, a level, and a one-name level: the last
   * sits under the first name of the middle level only.
   */
  lemma ChainThree(parts: seq<NodeNames>)
    requires |parts| == 3 && |parts[0]| == 1 && |parts[2]| == 1
    ensures Chain(parts) == Node(parts[0][0], Put(Level(parts[1]), parts[1][0], Node(parts[2][0], Empty)))
  {
    ChainCons(parts);
    ChainLevelLeaf(parts[1..]);
  }

  /** A level followed by a one-name level: the name sits under the level's first name only. */
  lemma ChainLevelLeaf(parts: seq<NodeNames>)
    requires |parts| == 2 && |parts[1]| == 1
    ensures Chain(parts) == Put(Level(parts[0]), parts[0][0], Node(parts[1][0], Empty))
  {
    var leaf := parts[1][0];
    assert parts[1] == [leaf];
    assert parts[1..] == [parts[1]];
    ChainSingle(parts[1]);
    LevelOne(leaf);
  }

  /** A level of three different names lists them in order, each an empty object. */
  lemma LevelThree(a: string, b: string, c: string)
    requires a != b && a != c && b != c
    ensures Level([a, b, c]) == Obj([a, b, c], map[a := Empty, b := Empty, c := Empty])
  {
    var names := [a, b, c];
    assert names[..2] == [a, b] && names[..2][..1] == [a] && [a][..0] == [];
    assert Level([a]) == Obj([a], map[a := Empty]);
    assert Level([a, b]) == Obj([a, b], map[a := Empty, b := Empty]);
  }

  /** `VOLUME_GET` in the main zone: `Main_Zone → Volume → Lvl`, the zone placeholder adding nothing. */
  lemma VolumeGetMainZone(command: YamahaCommand, zoneBName: string)
    ensures BuiltTree(command, VolumeGet, false, zoneBName)
         == RequestTree(command, Node("Volume", Node("Lvl", Empty)))
  {
    var parts := ResolvedParts(ActionStructure(VolumeGet), false, zoneBName);
    ActionParts(VolumeGet, false, zoneBName);
    assert |parts| == 2 && parts[0] == ["Volume"] && parts[1] == ["Lvl"];
    ChainPair(parts);
    LevelOne("Lvl");
  }

  /**
   * `VOLUME_SET` in the main zone: `Volume` receives `Val`, `Exp` and `Unit`
   * as empty sibling children, in split order.
   */
  lemma VolumeSetMainZone(command: YamahaCommand, zoneBName: string)
    ensures BuiltTree(command, VolumeSet, false, zoneBName)
         == RequestTree(command, Node("Volume",
              Obj(["Val", "Exp", "Unit"], map["Val" := Empty, "Exp" := Empty, "Unit" := Empty])))
  {
    var parts := ResolvedParts(ActionStructure(VolumeSet), false, zoneBName);
    ActionParts(VolumeSet, false, zoneBName);
    assert |parts| == 2 && parts[0] == ["Volume"] && parts[1] == ["Val", "Exp", "Unit"];
    ChainPair(parts);
    LevelThree("Val", "Exp", "Unit");
  }

  /**
   * `MUTE` in zone B, for any zone-B name: the zone-B name is split before it
   * is written, every part becomes an empty child of `Volume`, and only the
   * first part holds `Mute`.
   */
  lemma MuteZoneB(command: YamahaCommand, zoneBName: string)
    ensures BuiltTree(command, Mute, true, zoneBName)
         == RequestTree(command, Node("Volume",
              Put(Level(ZoneParts(zoneBName)), ZoneParts(zoneBName)[0], Node("Mute", Empty))))
  {
    var parts := ResolvedParts(ActionStructure(Mute), true, zoneBName);
    ActionParts(Mute, true, zoneBName);
    assert parts[0] == ["Volume"] && parts[1] == ZoneParts(zoneBName) && parts[2] == ["Mute"];
    ChainThree(parts);
  }

  /** `MUTE` in zone B, for a zone-B name without a dot: `Main_Zone → Volume → <zone> → Mute`. */
  lemma MuteZoneBPlainName(command: YamahaCommand, zoneBName: string)
    requires '.' !in zoneBName
    ensures BuiltTree(command, Mute, true, zoneBName)
         == RequestTree(command, Node("Volume", Node(zoneBName, Node("Mute", Empty))))
  {
    MuteZoneB(command, zoneBName);
    Strings.SplitWithoutSeparator(zoneBName, '.');
    LevelOne(zoneBName);
    PutNode(zoneBName, Empty, Node("Mute", Empty));
  }

  /** `POWER` builds `Main_Zone → Power_Control → Power` whatever the zone and its name. */
  lemma PowerAnyZone(command: YamahaCommand, isZoneB: bool, zoneBName: string)
    ensures BuiltTree(command, Power, isZoneB, zoneBName)
         == RequestTree(command, Node("Power_Control", Node("Power", Empty)))
  {
    var parts := ResolvedParts(ActionStructure(Power), isZoneB, zoneBName);
    ActionParts(Power, isZoneB, zoneBName);
    assert |parts| == 2 && parts[0] == ["Power_Control"] && parts[1] == ["Power"];
    ChainPair(parts);
    LevelOne("Power");
  }

  /** Zone B changes nothing for `POWER`: the two zones build the same request. */
  lemma PowerSameInBothZones(command: YamahaCommand, zoneBName: string, otherName: string)
    ensures BuiltTree(command, Power, true, zoneBName) == BuiltTree(command, Power, false, otherName)
  {
    PowerAnyZone(command, true, zoneBName);
    PowerAnyZone(command, false, otherName);
  }

  /** The request root: the `cmd` attribute of the command, then `Main_Zone`, and nothing else. */
  lemma RootShape(command: YamahaCommand, action: YamahaAction, isZoneB: bool, zoneBName: string)
    ensures BuiltTree(command, action, isZoneB, zoneBName).keys == ["@", "Main_Zone"]
    ensures Prop(BuiltTree(command, action, isZoneB, zoneBName), "@") == Some(Node("cmd", Str(CommandToken(command))))
    ensures Prop(BuiltTree(command, action, isZoneB, zoneBName), "Main_Zone").Some?
    ensures CommandToken(command) == (if command == Set then "PUT" else "GET")
  {
    RequestRoot(command, Chain(ResolvedParts(ActionStructure(action), isZoneB, zoneBName)));
  }

  /** The root of a request, whatever its zone subtree. */
  lemma RequestRoot(command: YamahaCommand, mainZone: Json)
    ensures RequestTree(command, mainZone).keys == ["@", "Main_Zone"]
    ensures Prop(RequestTree(command, mainZone), "@") == Some(Node("cmd", Str(CommandToken(command))))
    ensures Prop(RequestTree(command, mainZone), "Main_Zone") == Some(mainZone)
  {
  }

  /** A path under `Main_Zone` reads the zone subtree. */
  lemma AtMainZone(command: YamahaCommand, mainZone: Json, path: seq<string>)
    ensures At(RequestTree(command, mainZone), ["Main_Zone"] + path) == At(mainZone, path)
  {
    RequestRoot(command, mainZone);
    AtStep(RequestTree(command, mainZone), "Main_Zone", path);
  }

  /**
   * Every name of a level other than its first is an empty object, found one
   * step off the cursor path at that level.
   */
  lemma {:induction false} ChainSibling(parts: seq<NodeNames>, i: nat, n: string)
    requires i < |parts| && n in parts[i] && n != parts[i][0]
    ensures At(Chain(parts), Firsts(parts)[..i] + [n]) == Some(Empty)
    decreases |parts|
  {
    var k := parts[0][0];
    var rest := parts[1..];
    if i == 0 {
      assert Firsts(parts)[..0] + [n] == [n] + [];
      var j :| 0 <= j < |parts[0]| && parts[0][j] == n;
      LevelHas(parts[0], j);
      PutOther(Level(parts[0]), k, Chain(rest), n);
      AtStep(Chain(parts), n, []);
    } else {
      ChainSibling(rest, i - 1, n);
      assert Firsts(parts)[..i] + [n] == [k] + (Firsts(rest)[..i - 1] + [n]);
      AtStep(Chain(parts), k, Firsts(rest)[..i - 1] + [n]);
    }
  }

  /** The zone placeholder occurs once in every entry but `POWER`. */
  lemma ZoneCount(action: YamahaAction)
    ensures Count(ActionStructure(action), ZoneIdentifier) == if action == Power then 0 else 1
  {
    var s := ActionStructure(action);
    if action != Power {
      assert s[..2] == [s[0], ZoneIdentifier] && s[..2][..1] == [s[0]] && [s[0]][..0] == [];
      assert Count([s[0]], ZoneIdentifier) == 0;
      assert Count(s[..2], ZoneIdentifier) == 1;
    } else {
      assert s[..1] == ["Power_Control"] && s[..1][..0] == [];
      assert Count(s[..1], ZoneIdentifier) == 0;
    }
  }

  /**
   * The cursor walk from `Main_Zone` goes one level per table segment, less
   * the skipped zone placeholder in the main zone, and ends at an empty
   * object: the action value is not written into it.
   */
  lemma CursorDepth(command: YamahaCommand, action: YamahaAction, isZoneB: bool, zoneBName: string)
    ensures |ResolvedParts(ActionStructure(action), isZoneB, zoneBName)|
         == |ActionStructure(action)| - (if !isZoneB && action != Power then 1 else 0)
    ensures At(BuiltTree(command, action, isZoneB, zoneBName),
               CursorPath(ResolvedParts(ActionStructure(action), isZoneB, zoneBName))) == Some(Empty)
  {
    var parts := ResolvedParts(ActionStructure(action), isZoneB, zoneBName);
    ZoneCount(action);
    ChainTerminal(parts);
    AtMainZone(command, Chain(parts), Firsts(parts));
  }

  /**
   * Every node the walk creates off the cursor path is an empty object: a
   * sibling `n` at level `i` sits under `Main_Zone` and the first names of
   * the levels above it.
   */
  lemma SiblingsEmpty(command: YamahaCommand, action: YamahaAction, isZoneB: bool, zoneBName: string, i: nat, n: string)
    requires i < |ResolvedParts(ActionStructure(action), isZoneB, zoneBName)|
    requires n in ResolvedParts(ActionStructure(action), isZoneB, zoneBName)[i]
    requires n != ResolvedParts(ActionStructure(action), isZoneB, zoneBName)[i][0]
    ensures At(BuiltTree(command, action, isZoneB, zoneBName),
               ["Main_Zone"] + (Firsts(ResolvedParts(ActionStructure(action), isZoneB, zoneBName))[..i] + [n]))
         == Some(Empty)
  {
    RequestSibling(command, ResolvedParts(ActionStructure(action), isZoneB, zoneBName), i, n);
  }

  /** `ChainSibling` seen from the root of the request. */
  lemma RequestSibling(command: YamahaCommand, parts: seq<NodeNames>, i: nat, n: string)
    requires i < |parts| && n in parts[i] && n != parts[i][0]
    ensures At(RequestTree(command, Chain(parts)), ["Main_Zone"] + (Firsts(parts)[..i] + [n])) == Some(Empty)
  {
    ChainSibling(parts, i, n);
    AtMainZone(command, Chain(parts), Firsts(parts)[..i] + [n]);
  }
}
