# Yamaha receiver request trees, in Dafny

This project models the request side of the `homebridge-yamaha-rx-v585`
plugin, which drives a Yamaha AV receiver over its XML control protocol.

The receiver client (`YamahaAVRAPI`) keeps a table that maps each of four
actions (`POWER`, `VOLUME_SET`, `VOLUME_GET`, `MUTE`) to a list of node-name
segments. `buildRequestData` turns one entry of that table into the object
tree that is serialised as the `YAMAHA_AV` command document:

- the root holds the `cmd` attribute (`PUT` or `GET`) and an empty `Main_Zone`;
- a cursor starts at `Main_Zone` and walks the segments in order;
- the `$ZONE$` placeholder is skipped in the main zone and becomes the zone-B name in zone B;
- a segment equal to `POWER` is renamed `<zone>_POWER` in zone B;
- each resolved segment is split on `.`; every part becomes an empty child of the cursor, and the cursor moves into the first part.

The speaker accessory maps HomeKit characteristic values to the receiver's
tokens (`On`, `Off`, `Standby`, `Up`, `Down`) and back. It also converts between
a 0-100 volume percentage and the receiver's volume units.

How the model is built:

- **Objects:** a JavaScript object is a `Json` value with an ordered key list
  and a property map. `Put` is a property assignment: an existing key keeps its
  place, a new key goes last. JavaScript keeps that insertion order only for
  ordinary names; array-index names and `__proto__` behave differently and are
  listed under "Left out".
- **The cursor:** the `lastNode` cursor, which aliases a node inside `data`, is
  kept as a key path into the tree. Each `lastNode[name] = {}` is a write at
  that path (`SetProperty`). Every node the builder creates is a fresh `{}`, so
  nothing else in the tree shares it, and a path stands for it exactly.
- **The builder:** `buildRequestData` is the method `BuildRequestData`, and its
  loop is `WalkSegments`, with the source's two loops, its `continue` and its
  zone and power tests. The inner loop is `AddNodes`, proved equal to grafting
  the `Level` of its names at the cursor (`Graft`). `WalkSegments` is proved
  equal to `RequestTree` of the `Chain` of the resolved segments, and
  `BuildRequestData` to the specification `BuiltTree`.
- **The specification:** `BuiltTree` describes the tree from the inside out.
  `ResolvedParts` gives the split names of each segment that is not skipped;
  `Level` is the object a list of names makes; and `Chain` nests each level
  under the first name of the level above it.
- **The properties:** `RequestProperties` proves the concrete trees for the
  actions and the shape every tree has.
- **The accessory:** the handlers are pure functions in `PlatformAccessory`.
  Their volume arithmetic is done over `real`, with `Math.round(x)` as
  `Floor(x + 1/2)`.

Where the code and the documented intent of the protocol disagree, the model
follows the code:

- **The action value is never written into the tree.** `lastNode = actionValue`
  (src/yamahaAVRAPI.ts:106) only rebinds the local variable. The terminal node
  stays `{}`, and `BuiltTree` has no action-value parameter.
- **The zone-B power rename never happens.** It compares the segment with the
  literal `POWER` (src/yamahaAVRAPI.ts:91), but the table entry is `Power`
  (src/yamahaAVRAPI.ts:16). Zone-B `POWER` builds the same tree as main-zone
  `POWER` (`PowerSameInBothZones`).
- **Nothing walks the response.** `parseXmlResponse` returns the JSON text of
  the whole parsed document (src/yamahaAVRAPI.ts:119). The accessory compares
  that text with `On`, so mute always reads as off and power as inactive
  (`DocumentAnswerReadsOff`).
- **The table is the four-entry table at src/yamahaAVRAPI.ts:15-20.** There are no `name=value`
  segments, dotted parts are never nested, and the default zone-B name is
  `ZONE_B`.

## Model

| member | source | states |
|---|---|---|
| Strings.Split | src/yamahaAVRAPI.ts:96 | `split('.')` always yields at least one part |
| Strings.SplitPartsFree | src/yamahaAVRAPI.ts:96 | no part of a split contains the separator |
| Strings.JoinSplit | src/yamahaAVRAPI.ts:96 | splitting loses nothing: joining the parts with the separator gives back the text |
| Strings.SplitWithoutSeparator | src/yamahaAVRAPI.ts:96 | a segment without a dot splits into itself alone |
| Strings.SplitPrefix | src/yamahaAVRAPI.ts:96 | a separator-free prefix is glued onto the first part of what follows |
| Strings.SplitJoin | src/yamahaAVRAPI.ts:96 | splitting undoes joining for separator-free parts |
| JsObject.Prop | src/yamahaAVRAPI.ts:102 | reading a property finds a value exactly when the object lists that key |
| JsObject.Put | src/yamahaAVRAPI.ts:99 | after `o[k] = v`, reading `o[k]` gives `v` |
| JsObject.PutOther | src/yamahaAVRAPI.ts:99 | writing one property leaves every other property as it was |
| JsObject.PutProper | src/yamahaAVRAPI.ts:99 | a write keeps the object well formed: no key listed twice, listed keys are exactly the properties |
| JsObject.PutTwice | src/yamahaAVRAPI.ts:99 | writing a property twice is the same as writing only the second value |
| JsObject.PutUnchanged | src/yamahaAVRAPI.ts:99 | writing back the value a property already holds changes nothing |
| JsObject.Graft | src/yamahaAVRAPI.ts:99-102 | replacing the node at a path makes the path read the new node; a missing path leaves the tree unchanged |
| JsObject.SetProperty | src/yamahaAVRAPI.ts:99 | a write through the cursor is a property write on the node the cursor points at |
| JsObject.At | src/yamahaAVRAPI.ts:102 | a one-key path is a single property read, and a path whose first property is missing leads nowhere |
| JsObject.AtStep | src/yamahaAVRAPI.ts:102 | following a path is one property read and then the rest of the path |
| JsObject.GraftStep | src/yamahaAVRAPI.ts:99 | replacing a node below property `k` writes the rebuilt child back into `k` |
| JsObject.GraftTwice | src/yamahaAVRAPI.ts:98-100 | two successive writes at one path keep only the second |
| JsObject.GraftSame | src/yamahaAVRAPI.ts:98-100 | writing back the node a path already holds changes nothing |
| JsObject.GraftElsewhere | src/yamahaAVRAPI.ts:98-100 | a write at one path leaves every path that is neither its prefix nor its extension unchanged |
| YamahaApi.ActionName | src/yamahaAVRAPI.ts:8-13 | the action names; only the `POWER` action is spelled `POWER` |
| YamahaApi.ActionNamesDistinct | src/yamahaAVRAPI.ts:8-13 | distinct actions have distinct names |
| YamahaApi.Token | src/yamahaAVRAPI.ts:22-29 | every action-value token is a capitalised word, so never the text of a JSON document |
| YamahaApi.CommandToken | src/yamahaAVRAPI.ts:31-34 | a set sends `cmd` `PUT` and a get sends `GET`, and only those |
| YamahaApi.TokensDistinct | src/yamahaAVRAPI.ts:22-34 | the action-value tokens name their members one-to-one; the two command tokens differ |
| YamahaApi.ActionStructure | src/yamahaAVRAPI.ts:15-20 | every table entry has at least two segments and never starts with the zone placeholder |
| YamahaApi.ResolveSegment | src/yamahaAVRAPI.ts:80-93 | the placeholder is skipped exactly in the main zone and becomes the zone-B name in zone B; only `POWER` in zone B is renamed; other segments pass unchanged |
| YamahaApi.ResolvedParts | src/yamahaAVRAPI.ts:76-96 | one level per segment, less one per placeholder in the main zone |
| YamahaApi.ResolvedPartsSnoc | src/yamahaAVRAPI.ts:76-96 | resolving one more segment appends its split names, or nothing when it is skipped |
| YamahaApi.Firsts | src/yamahaAVRAPI.ts:102 | the cursor path has one step per level |
| YamahaApi.Level | src/yamahaAVRAPI.ts:98-100 | writing a list of names into an empty node yields an object |
| YamahaApi.LevelProper | src/yamahaAVRAPI.ts:98-100 | the names written make a well-formed object |
| YamahaApi.LevelValue | src/yamahaAVRAPI.ts:98-100 | every property written by the inner loop is an empty object |
| YamahaApi.LevelHas | src/yamahaAVRAPI.ts:98-100 | every name of the segment becomes a property holding `{}` |
| YamahaApi.LevelOnly | src/yamahaAVRAPI.ts:98-100 | no property appears that was not one of the names |
| YamahaApi.LevelFirst | src/yamahaAVRAPI.ts:98-100 | the first name is the first property |
| YamahaApi.LevelOrder | src/yamahaAVRAPI.ts:98-100 | names that are all different become properties in split order |
| YamahaApi.LevelShape | src/yamahaAVRAPI.ts:98-100 | the level holds exactly the names, each `{}`, the first name first |
| YamahaApi.LevelFirstEmpty | src/yamahaAVRAPI.ts:102 | the node the cursor moves into is empty when it is entered |
| YamahaApi.Chain | src/yamahaAVRAPI.ts:76-103 | the nested levels form an object |
| YamahaApi.ChainSingle | src/yamahaAVRAPI.ts:98-102 | a single level's first node stays empty |
| YamahaApi.ChainSnoc | src/yamahaAVRAPI.ts:98-102 | filling the empty node at the end of the cursor path with a level is the chain with that level added |
| YamahaApi.ChainTerminal | src/yamahaAVRAPI.ts:102-106 | the cursor path always ends at an empty object |
| YamahaApi.LevelStep | src/yamahaAVRAPI.ts:99 | one inner-loop write extends the level under construction by one name |
| YamahaApi.RootMainZone | src/yamahaAVRAPI.ts:67-75 | the root holds the zone subtree under `Main_Zone`, and writing there replaces only that subtree |
| YamahaApi.RequestTree | src/yamahaAVRAPI.ts:67-72 | the initial object: `Main_Zone` holds the zone subtree and `@` holds `cmd` with the command's token |
| YamahaApi.BuiltTree | src/yamahaAVRAPI.ts:65-106 | the tree built for an action, with no action-value parameter; following the cursor path through it ends at an empty node |
| YamahaApi.CursorPath | src/yamahaAVRAPI.ts:75-102 | the cursor starts at `Main_Zone`, takes one step per level, and ends at the first name of the last level |
| YamahaApi.FirstsLast | src/yamahaAVRAPI.ts:102 | the last step of the cursor path is the first name of the last level |
| YamahaApi.RequestTerminal | src/yamahaAVRAPI.ts:75-106 | in every request tree, the cursor path ends at an empty node |
| YamahaApi.ExtendRequest | src/yamahaAVRAPI.ts:95-102 | from the root, the cursor points at an empty node; filling it adds one level; the cursor then extends by the first name |
| YamahaApi.FirstsSnoc | src/yamahaAVRAPI.ts:102 | adding a level adds its first name to the cursor path |
| YamahaApi.SkipSegment | src/yamahaAVRAPI.ts:80-84 | a skipped placeholder adds no level |
| YamahaApi.AddSegment | src/yamahaAVRAPI.ts:85-102 | one outer-loop pass for a kept segment: the resolved parts grow by its split names, the tree by its level, the cursor by its first name |
| YamahaApi.ZoneBNameOrDefault | src/yamahaAVRAPI.ts:48 | the zone-B name is the configured one when it is non-empty, otherwise `ZONE_B`; never empty |
| YamahaApi.BaseUrl | src/yamahaAVRAPI.ts:47 | the endpoint is `http://`, the receiver address unchanged, then `/YamahaRemoteControl/ctrl/` |
| YamahaApi.AddNodes | src/yamahaAVRAPI.ts:98-100 | the inner loop turns the cursor's empty node into the level of the names and changes nothing else |
| YamahaApi.YamahaAvrApi.constructor | src/yamahaAVRAPI.ts:46-48 | the client keeps the base URL and the defaulted zone-B name |
| YamahaApi.YamahaAvrApi.BuildRequestData | src/yamahaAVRAPI.ts:65-106 | the built tree is the specification tree of the command, action and zone; the action value plays no part |
| YamahaApi.YamahaAvrApi.WalkSegments | src/yamahaAVRAPI.ts:74-103 | the segment walk builds the root with the chain of the resolved levels under `Main_Zone` |
| YamahaApi.YamahaAvrApi.PostReceiverSetAction | src/yamahaAVRAPI.ts:123-124 | a set posts the `PUT` tree of the action |
| YamahaApi.YamahaAvrApi.PostReceiverGetAction | src/yamahaAVRAPI.ts:132-133 | a get posts the `GET` tree of the action, built with `GetParam` |
| RequestProperties.SplitValExpUnit | src/yamahaAVRAPI.ts:17 | `Val.Exp.Unit` splits into `Val`, `Exp`, `Unit` |
| RequestProperties.ResolvedZoned | src/yamahaAVRAPI.ts:76-96 | an entry `[x, $ZONE$, y]` gives the levels of `x`, the zone-B name (zone B only), and `y` |
| RequestProperties.ResolvedPlain | src/yamahaAVRAPI.ts:76-96 | an entry of two plain segments gives one level each, in either zone |
| RequestProperties.ActionParts | src/yamahaAVRAPI.ts:15-20 | the levels of every action in both zones, spelled out |
| RequestProperties.PowerRenameNeverApplies | src/yamahaAVRAPI.ts:90-93 | no table segment is `POWER`; every segment but the placeholder is written as it stands |
| RequestProperties.LevelOne | src/yamahaAVRAPI.ts:98-100 | one name makes an object with that single empty property |
| RequestProperties.PutNode | src/yamahaAVRAPI.ts:99 | rewriting the only property of a one-property object replaces its value |
| RequestProperties.ChainCons | src/yamahaAVRAPI.ts:98-102 | a first level of one name nests the rest of the chain under it |
| RequestProperties.ChainPair | src/yamahaAVRAPI.ts:98-102 | one name, then a level: the level sits under the name |
| RequestProperties.ChainThree | src/yamahaAVRAPI.ts:98-102 | one name, a level, one name: the last sits under the middle level's first name only |
| RequestProperties.ChainLevelLeaf | src/yamahaAVRAPI.ts:98-102 | a level, then one name: the name sits under the level's first name only |
| RequestProperties.LevelThree | src/yamahaAVRAPI.ts:98-100 | three different names become three empty properties in order |
| RequestProperties.VolumeGetMainZone | src/yamahaAVRAPI.ts:80-84 | `VOLUME_GET` in the main zone builds `Main_Zone → Volume → Lvl` |
| RequestProperties.VolumeSetMainZone | src/yamahaAVRAPI.ts:95-102 | `VOLUME_SET` in the main zone gives `Volume` the empty children `Val`, `Exp`, `Unit` in that order |
| RequestProperties.MuteZoneB | src/yamahaAVRAPI.ts:85-96 | `MUTE` in zone B: the zone-B name is split before it is written; every part is a child of `Volume` and only the first holds `Mute` |
| RequestProperties.MuteZoneBPlainName | src/yamahaAVRAPI.ts:85-87 | for a zone-B name without a dot, `MUTE` builds `Main_Zone → Volume → <zone> → Mute` |
| RequestProperties.PowerAnyZone | src/yamahaAVRAPI.ts:90-93 | `POWER` builds `Main_Zone → Power_Control → Power` whatever the zone and its name |
| RequestProperties.PowerSameInBothZones | src/yamahaAVRAPI.ts:90-93 | zone-B `POWER` builds the same tree as main-zone `POWER` |
| RequestProperties.RootShape | src/yamahaAVRAPI.ts:67-72 | every request root has exactly `@` (with `cmd` = `PUT` or `GET`) and `Main_Zone` |
| RequestProperties.RequestRoot | src/yamahaAVRAPI.ts:67-72 | the root of a request, whatever its zone subtree |
| RequestProperties.AtMainZone | src/yamahaAVRAPI.ts:75 | paths below `Main_Zone` read the zone subtree |
| RequestProperties.ChainSibling | src/yamahaAVRAPI.ts:98-102 | every name of a level other than its first is an empty object off the cursor path |
| RequestProperties.ZoneCount | src/yamahaAVRAPI.ts:15-20 | the placeholder occurs once in every entry but `POWER`, where it is absent |
| RequestProperties.CursorDepth | src/yamahaAVRAPI.ts:76-106 | the cursor walk has one level per segment, less the skipped placeholder in the main zone, and ends at an empty node |
| RequestProperties.SiblingsEmpty | src/yamahaAVRAPI.ts:98-102 | in every built tree, each sibling node off the cursor path is empty |
| RequestProperties.RequestSibling | src/yamahaAVRAPI.ts:98-102 | `ChainSibling` seen from the request root |
| PlatformAccessory.MuteSetValue | src/platformAccessory.ts:73 | muted sends `On`, unmuted sends `Off` |
| PlatformAccessory.MuteGetValue | src/platformAccessory.ts:63 | muted exactly when the answer is `On` |
| PlatformAccessory.ActiveSetValue | src/platformAccessory.ts:96 | `Active` sends `On`; any other value sends `Standby` |
| PlatformAccessory.ActiveGetValue | src/platformAccessory.ts:86 | 1 exactly when the answer is `On`, otherwise 0 |
| PlatformAccessory.VolumeSelectorValue | src/platformAccessory.ts:142 | `Increment` sends `Up`; any other value sends `Down` |
| PlatformAccessory.MuteRoundTrip | src/platformAccessory.ts:63-73 | reading back the token a mute set sends gives the mute state set |
| PlatformAccessory.ActiveRoundTrip | src/platformAccessory.ts:86-96 | reading back the token an active set sends gives the HomeKit value set |
| PlatformAccessory.DocumentAnswerReadsOff | src/platformAccessory.ts:62-63 | an answer that is the JSON text of a document never reads as muted or active |
| PlatformAccessory.Round | src/platformAccessory.ts:113 | `Math.round` gives the integer within half of its argument, halves rounded up |
| PlatformAccessory.RoundMonotone | src/platformAccessory.ts:113 | rounding keeps order |
| PlatformAccessory.RoundInt | src/platformAccessory.ts:113 | rounding an integer gives that integer |
| PlatformAccessory.Percentage | src/platformAccessory.ts:112 | the percentage times the span of the range is 100 times the distance above the minimum; it lies in 0-100 for a volume inside the range |
| PlatformAccessory.VolumeFromDevice | src/platformAccessory.ts:109-113 | the reported percentage is within half a point of the exact percentage of the range |
| PlatformAccessory.VolumeFromDeviceRange | src/platformAccessory.ts:109-113 | the minimum reads as 0, the maximum as 100, and anything in between within 0-100 |
| PlatformAccessory.VolumeFromDeviceMonotone | src/platformAccessory.ts:109-113 | a louder device volume never reads as a lower percentage |
| PlatformAccessory.DeviceLevel | src/platformAccessory.ts:128 | the level's distance above the minimum is the percentage's share of the span; percentages 0-100 stay inside the range |
| PlatformAccessory.VolumeToDevice | src/platformAccessory.ts:128-129 | the device volume sent is a multiple of 10 within 5 units of the exact level |
| PlatformAccessory.VolumeToDeviceEnds | src/platformAccessory.ts:128-129 | 0 % sends `round(min/10)*10`, 100 % sends `round(max/10)*10` |
| PlatformAccessory.VolumeToDeviceMonotone | src/platformAccessory.ts:128-129 | a higher percentage never sends a lower device volume |
| PlatformAccessory.VolumeRoundTrip | src/platformAccessory.ts:109-129 | setting a percentage and reading it back is off by at most one point once the range spans 500 units |

## Left out

- HTTP transport through axios (src/yamahaAVRAPI.ts:52-55, 127, 136), `getRequestConfig` and the logger: these are I/O. `PostReceiverSetAction` and `PostReceiverGetAction` return the request tree they would post, not the device's answer.
- XML serialisation by js2xmlparser (src/yamahaAVRAPI.ts:109) and XML parsing by xml2js (src/yamahaAVRAPI.ts:116-121): these are foreign libraries. The model stops at the object tree handed to the serialiser. The parsed answer is only characterised by its first character, `{`.
- Heap aliasing: `lastNode` is a key path into the tree rather than a reference. The two agree because every node written is a fresh `{}` that nothing else refers to.
- src/platform.ts (accessory cache, UUIDs, registration, discovery) and src/index.ts (plugin registration) are not part of this model. Neither is the characteristic wiring of the `YamahaTVSpeaker` constructor (src/platformAccessory.ts:15-54), nor the callback and promise plumbing.
- VolumeFromDevice: works on the integer the answer would parse to. As written, `handleVolumeGet` receives the JSON text of the whole answer document (src/yamahaAVRAPI.ts:119), so `parseInt` gives `NaN` and the handler reports `NaN`. The model states the arithmetic for a numeric answer. IEEE-754 rounding error is not modelled; arithmetic is exact over `real`.
- VolumeToDevice: the receiver call it feeds (src/platformAccessory.ts:131) and the volume-selector call (src/platformAccessory.ts:143) name the actions `VOLUME_SET_VALUE` and `VOLUME_SET_UP_DOWN`. Neither is in the four-entry table, so those requests are not modelled; only the values the handlers compute are.
- MuteSetValue: takes a `bool`; JavaScript truthiness of non-boolean characteristic values is not modelled.
- VolumeToDevice: the volume range `minVolume`/`maxVolume` is a parameter (with `minVolume < maxVolume` where a percentage is computed). src/platform.ts defines no such fields, so as written both volume handlers compute with `undefined` and produce `NaN`. `VolumeFromDevice` and `VolumeToDevice` model the arithmetic for a configured numeric range.
- Put: appends every new name. JavaScript lists array-index names (`"0"`, `"2"`) before all other names, in ascending order, and `o["__proto__"] = {}` replaces the prototype instead of adding a property. The only names from outside the table are the parts of the configured zone-B name (src/platform.ts:35, src/yamahaAVRAPI.ts:86, 96). For a zone-B name with such a part, the key order, or with `__proto__` the shape, that the model gives is not the source's.
- Level: for the same reason, `LevelFirst` and `LevelOrder` describe the source's key order only for names that are not array indices, and the tree only for names other than `__proto__`.
- MuteZoneB: holds for the source only when no part of the zone-B name is an array index or `__proto__`. The same limit applies to the other zone-B lemmas of `RequestProperties`.
- MuteZoneBPlainName: holds for the source only when the zone-B name is not an array index and not `__proto__`.
