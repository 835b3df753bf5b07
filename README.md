# riiablo core: grid-cell clearance, command aliases and cvars, in Dafny

This project models four classes of the riiablo Diablo II engine and proves
properties of the models.

- **`Point2`** (module `Pfa`, `point2.dfy`): the grid cell of the
  path-finder. A cell has mutable coordinates, an `index` and a cached
  `clearance` byte. The clearance is the index of the first of three offset
  rings (`NEAR`) that touches a cell with nonzero map flags, or 3 if none
  does. Equality, hashing and text use the coordinates only.
- **`Command`** (module `Commands`, `command.dfy`): console commands, with a
  global alias table (`COMMANDS`). Each command keeps its own alias set.
  Commands also count their required parameters, format a parameter hint,
  execute by resolving arguments, and describe themselves.
- **`CvarManager`** (module `CvarRegistry`, `cvar_manager.dfy`): a table of
  cvars keyed by lower-cased alias, with typed failures. It also holds a
  table of string serializers by class.
- **`Cvar`** (module `Settings`, `cvar.dfy`): a typed setting with a
  default value. It registers itself in a global table at construction, and
  it persists and announces value changes to per-cvar and global listeners.
  One table holds cvars of every class, as `Cvar<?>` does. So every value is
  a `Value`: a `Class` tag plus abstract content, with `equals` as equality.

Three supporting modules:
- `Wrappers` holds `Option`, `Result` and `Outcome`.
- `Sequences` holds the duplicate-free predicate on sequences.
- `JavaLang` holds the small parts of Java the classes rely on:
  - 32-bit `int` wrap-around and `^`.
  - The decimal text of an `int`.
  - ASCII `toLowerCase`.
  - `String.trim`.
  - `Class` tags.

How Java is mapped:
- Java statics become explicit objects. `Registry` stands for `Command`'s
  statics; `CvarStatics` stands for `Cvar`'s statics and the preferences
  store.
- Only the parameters whose `null` the code tests become `Option`:
  - `addAlias`'s alias;
  - `Command`'s action;
  - the `Cvar` constructor's key, type and load listener.

  Every other parameter is non-null in the model (see "## Left out").
- Exceptions become `Result`/`Outcome` error values, with "nothing changed"
  postconditions.
- Calls into code outside the model become parameters or logged events:
  - `Map.flags` is a function parameter.
  - Listener and resolver calls are appended to a sequence of events.
- `Point2`'s ring 2 has 12 offsets, not 16: the table lists no corner
  (±2, ±2). The model follows the code.

## Model

| member | source | states |
|---|---|---|
| Pfa.RingSizes | core/src/com/riiablo/map/pfa/Point2.java:47-91 | the table has three rings of 1, 8 and 12 offsets, 21 distinct offsets in all |
| Pfa.RingZeroIsTheCell | core/src/com/riiablo/map/pfa/Point2.java:48-50 | ring 0 holds exactly the offset at Chebyshev distance 0, the cell itself |
| Pfa.RingOneIsDistanceOne | core/src/com/riiablo/map/pfa/Point2.java:51-63 | ring 1 holds exactly the offsets at Chebyshev distance 1 |
| Pfa.RingTwoIsDistanceTwoWithoutCorners | core/src/com/riiablo/map/pfa/Point2.java:64-90 | ring 2 holds exactly the offsets at Chebyshev distance 2 other than the four corners (±2, ±2) |
| Pfa.RingsAreDisjoint | core/src/com/riiablo/map/pfa/Point2.java:47-91 | no offset lies in two rings |
| Pfa.RingsCoverSquareMinusCorners | core/src/com/riiablo/map/pfa/Point2.java:47-91 | the rings together are the 5x5 square minus its corners, 21 offsets |
| Pfa.FirstBlockedFromIsLeast | core/src/com/riiablo/map/pfa/Point2.java:96-102 | the scan from ring k stops at a blocked ring, or at 3, and passes no blocked ring on the way |
| Pfa.ClearanceIsFirstBlockedRing | core/src/com/riiablo/map/pfa/Point2.java:93-105 | the clearance is at most 3; below 3 it is the first ring holding a cell with nonzero flags; it is 3 exactly when no ring does |
| Pfa.ClearanceFromScan | core/src/com/riiablo/map/pfa/Point2.java:96-104 | a scan that found rings 0..k-1 open and ring k blocked (or k = 3) has computed the clearance |
| Pfa.BlockedCellHasClearanceZero | core/src/com/riiablo/map/pfa/Point2.java:93-99 | a cell with nonzero flags of its own has clearance 0 |
| Pfa.OpenFieldHasClearanceThree | core/src/com/riiablo/map/pfa/Point2.java:96-104 | with every offset of the rings open the clearance is 3 |
| Pfa.ClearanceIsMonotone | core/src/com/riiablo/map/pfa/Point2.java:96-101 | blocking more cells never raises the clearance |
| Pfa.PointText | core/src/com/riiablo/map/pfa/Point2.java:124-127 | the text starts with `(`, ends with `)` and has at least six characters |
| Pfa.SplitAtComma | core/src/com/riiablo/map/pfa/Point2.java:126 | two texts `(a, b)` and `(c, d)` with comma-free `a`, `c` agree only when `a = c` and `b = d` |
| Pfa.PointTextInjective | core/src/com/riiablo/map/pfa/Point2.java:126 | two cells print alike exactly when their coordinates agree |
| Pfa.ScanRing | core/src/com/riiablo/map/pfa/Point2.java:97-101 | the inner loop reports exactly whether some offset of ring k lands on a cell with nonzero flags |
| Pfa.FirstBlockedFrom | core/src/com/riiablo/map/pfa/Point2.java:96-104 | the scan from ring k ends between k and 3, and below 3 at a ring that holds a cell with nonzero flags |
| Pfa.Clearance | core/src/com/riiablo/map/pfa/Point2.java:93-105 | the clearance is at most 3, and below 3 it names a blocked ring |
| Pfa.NearProbesAreDistinct | core/src/com/riiablo/map/pfa/Point2.java:97-99 | two offsets in -2..2 that probe the same wrapped coordinate are the same offset |
| Pfa.OnlyCornerBlocked | core/src/com/riiablo/map/pfa/Point2.java:64-90 | with only the corner (x+2, y+2) blocked, no non-corner offset of the 5x5 square is blocked |
| Pfa.BlockedCornerIsNotSeen | core/src/com/riiablo/map/pfa/Point2.java:64-105 | a cell whose only blocked neighbour is the corner (x+2, y+2) still has clearance 3, because ring 2 lists no corner |
| Pfa.Hash | core/src/com/riiablo/map/pfa/Point2.java:107-110 | the hash mixes both coordinates: xoring it by either wrapped product gives back the other |
| Pfa.HashOfAxisCells | core/src/com/riiablo/map/pfa/Point2.java:107-110 | on an axis the hash is the other coordinate's wrapped product; at the origin it is 0 |
| Pfa.Point2.constructor | core/src/com/riiablo/map/pfa/Point2.java:13 | a new cell is (0, 0) with index 0 and clearance 0 |
| Pfa.Point2.At | core/src/com/riiablo/map/pfa/Point2.java:15-17 | the cell gets the given coordinates; index and clearance 0 |
| Pfa.Point2.Copy | core/src/com/riiablo/map/pfa/Point2.java:19-21 | the copy has the source's coordinates but index 0 and clearance 0 |
| Pfa.Point2.Set | core/src/com/riiablo/map/pfa/Point2.java:23-27 | only `x` and `y` change, to the arguments; returns the receiver |
| Pfa.Point2.SetTo | core/src/com/riiablo/map/pfa/Point2.java:35-39 | only `x` and `y` change, to the source's; returns the receiver |
| Pfa.Point2.Add | core/src/com/riiablo/map/pfa/Point2.java:41-45 | only `x` and `y` change, by componentwise 32-bit wrapping addition; returns the receiver |
| Pfa.Point2.UpdateClearance | core/src/com/riiablo/map/pfa/Point2.java:93-105 | only `clearance` changes; it becomes the clearance of (x, y) in the map, 0..3, whatever `flags` is |
| Pfa.Point2.HashCode | core/src/com/riiablo/map/pfa/Point2.java:107-110 | xoring the hash code by either coordinate's wrapped product gives back the other's |
| Pfa.Point2.Equals | core/src/com/riiablo/map/pfa/Point2.java:120-122 | equal cells have the same hash code and the same text |
| Pfa.Point2.EqualsObject | core/src/com/riiablo/map/pfa/Point2.java:112-118 | true exactly for a non-null `Point2` that `equals(Point2)` accepts |
| Pfa.Point2.ToString | core/src/com/riiablo/map/pfa/Point2.java:124-127 | the text starts with `(`, ends with `)` and has at least six characters |
| Pfa.EqualCellsHashAlike | core/src/com/riiablo/map/pfa/Point2.java:107-122 | cells equal by `equals` have equal `hashCode`, whatever their index and clearance |
| Pfa.EqualsObjectMeansSameCoordinates | core/src/com/riiablo/map/pfa/Point2.java:112-122 | `equals(Object)` holds exactly for a non-null `Point2` with the same coordinates |
| Pfa.EqualsIsEquivalence | core/src/com/riiablo/map/pfa/Point2.java:120-122 | `equals` is reflexive, symmetric and transitive |
| Pfa.ToStringAgreesWithEquals | core/src/com/riiablo/map/pfa/Point2.java:120-127 | two cells have the same text exactly when they are equal |
| JavaLang.Wrap32 | core/src/com/riiablo/map/pfa/Point2.java:41-45 | Java `int` arithmetic: the result is congruent to the exact value modulo 2^32 and equals it when it fits |
| JavaLang.XorNatBelow | core/src/com/riiablo/map/pfa/Point2.java:109 | the exclusive or of two numbers below 2^k is below 2^k |
| JavaLang.XorNatSymmetric | core/src/com/riiablo/map/pfa/Point2.java:109 | exclusive or is symmetric |
| JavaLang.XorNatWithZero | core/src/com/riiablo/map/pfa/Point2.java:109 | xor with 0 is the identity |
| JavaLang.XorNatSelf | core/src/com/riiablo/map/pfa/Point2.java:109 | a number xored with itself is 0 |
| JavaLang.XorNatCancel | core/src/com/riiablo/map/pfa/Point2.java:109 | xoring by the same number twice gives back the start |
| JavaLang.Unsigned32 | core/src/com/riiablo/map/pfa/Point2.java:109 | the two's-complement bit pattern of an `int`, read as a number below 2^32 |
| JavaLang.Signed32 | core/src/com/riiablo/map/pfa/Point2.java:109 | the `int` whose bit pattern is the given number below 2^32 |
| JavaLang.Xor32 | core/src/com/riiablo/map/pfa/Point2.java:109 | Java `^` on `int`: the bit pattern of the result is the exclusive or of the operands' bit patterns |
| JavaLang.XorCommutes | core/src/com/riiablo/map/pfa/Point2.java:109 | `a ^ b == b ^ a` |
| JavaLang.XorWithZero | core/src/com/riiablo/map/pfa/Point2.java:109 | `a ^ 0 == a`, `0 ^ a == a` and `a ^ a == 0` |
| JavaLang.XorCancels | core/src/com/riiablo/map/pfa/Point2.java:109 | `(a ^ b) ^ b == a` |
| JavaLang.NatToDecimal | core/src/com/riiablo/map/pfa/Point2.java:126 | the decimal text of a natural number is all digits, non-empty, with no leading zero |
| JavaLang.DecimalRoundTrip | core/src/com/riiablo/map/pfa/Point2.java:126 | reading the decimal text back gives the number |
| JavaLang.IntToString | core/src/com/riiablo/map/pfa/Point2.java:126 | the text of an `int` is digits after an optional minus sign, present exactly for negative values |
| JavaLang.IntToStringRoundTrip | core/src/com/riiablo/map/pfa/Point2.java:126 | parsing the text of an `int` gives it back |
| JavaLang.IntToStringInjective | core/src/com/riiablo/map/pfa/Point2.java:126 | two `int`s have the same text exactly when they are equal |
| JavaLang.ToLowerChar | core/src/com/google/collinsmith70/diablo/cvar/Cvar.java:38 | an upper-case ASCII letter becomes its lower-case letter; any other character is kept |
| JavaLang.ToLower | core/src/com/gmail/collinsmith70/cvar/CvarManager.java:102-109 | lower-casing keeps the length and maps every character by `ToLowerChar` |
| JavaLang.ToLowerIdempotent | core/src/com/google/collinsmith70/diablo/cvar/Cvar.java:37-39 | lower-casing twice is lower-casing once |
| JavaLang.ToLowerHasNoUpper | core/src/com/google/collinsmith70/diablo/cvar/Cvar.java:129 | a lower-cased text has no upper-case letter |
| JavaLang.TrimStart | core/src/com/google/collinsmith70/diablo/command/Command.java:108 | drops exactly the leading characters <= ' ' |
| JavaLang.TrimEnd | core/src/com/google/collinsmith70/diablo/command/Command.java:108 | drops exactly the trailing characters <= ' ' |
| JavaLang.Trim | core/src/com/google/collinsmith70/diablo/command/Command.java:108 | a non-empty trimmed text starts and ends with a character above ' ' |
| JavaLang.TrimDropsOneTrailingBlank | core/src/com/google/collinsmith70/diablo/command/Command.java:108 | trimming a text that starts visibly and ends in one blank removes just that blank |
| Commands.CountRequiredBounds | core/src/com/google/collinsmith70/diablo/command/Command.java:79-88 | the required count is at most the number of resolvers; it equals it exactly when none is optional and is 0 exactly when all are |
| Commands.Bracketed | core/src/com/google/collinsmith70/diablo/command/Command.java:101-105 | an optional resolver is shown as `[p] `, a required one as `<p> ` |
| Commands.HintTextShape | core/src/com/google/collinsmith70/diablo/command/Command.java:98-106 | a non-empty builder text starts with the first resolver's bracket and ends with the last one's closing bracket and a blank |
| Commands.ParametersHintDropsTrailingBlank | core/src/com/google/collinsmith70/diablo/command/Command.java:98-109 | the hint is the builder text without its final blank, and empty without resolvers |
| Commands.ExecutionCallsShape | core/src/com/google/collinsmith70/diablo/command/Command.java:71-77 | resolver i-1 gets `args[i]`, in order; the action runs last exactly when n = 0 or `args` has more than n entries |
| Commands.DescribeStartsWithFirstAlias | core/src/com/google/collinsmith70/diablo/command/Command.java:115-122 | no alias: no text; no required parameter: the first alias alone; otherwise the first alias, a blank and the hint |
| Commands.Without | core/src/com/google/collinsmith70/diablo/command/Command.java:55 | removing an alias from a set keeps every other alias and keeps the set duplicate-free |
| Commands.MoveAliasAt | core/src/com/google/collinsmith70/diablo/command/Command.java:54-59 | after the move the new owner holds the alias and no other command does; other aliases stay where they were |
| Commands.MoveAliasKeepsEntries | core/src/com/google/collinsmith70/diablo/command/Command.java:54-59 | after the move every alias of every command maps back to it in the table |
| Commands.MoveAliasKeepsOwners | core/src/com/google/collinsmith70/diablo/command/Command.java:54-59 | after the move every table entry is listed by the command it maps to |
| Commands.MoveAliasKeepsDistinct | core/src/com/google/collinsmith70/diablo/command/Command.java:54-59 | after the move every alias set is still duplicate-free |
| Commands.MoveAliasKeepsConsistent | core/src/com/google/collinsmith70/diablo/command/Command.java:47-61 | the move keeps `a ∈ c.ALIASES ⇔ COMMANDS[a] == c` |
| Commands.Registry.constructor | core/src/com/google/collinsmith70/diablo/command/Command.java:20 | the table starts empty |
| Commands.Registry.Get | core/src/com/google/collinsmith70/diablo/command/Command.java:26-28 | the exact alias is looked up; `None` where it is absent |
| Commands.Registry.Search | core/src/com/google/collinsmith70/diablo/command/Command.java:22-24 | the entries whose alias starts with the prefix, and only those |
| Commands.Registry.IsAliasIffOwner | core/src/com/google/collinsmith70/diablo/command/Command.java:54-69 | `c.isAlias(a)` holds exactly when the table maps `a` to `c` |
| Commands.Command.IsAlias | core/src/com/google/collinsmith70/diablo/command/Command.java:67-69 | membership of the alias in the command's own alias set; `Registry.IsAliasIffOwner` ties it to the table |
| Commands.Command.Init | core/src/com/google/collinsmith70/diablo/command/Command.java:38-41 | no aliases yet, the given resolvers, and `EMPTY_ACTION` in place of a null action |
| Commands.Command.AddAlias | core/src/com/google/collinsmith70/diablo/command/Command.java:47-61 | null or empty: fails and changes nothing; otherwise the table maps the alias to this command, the previous owner loses it and the alias invariant holds |
| Commands.Command.NumRequiredParameters | core/src/com/google/collinsmith70/diablo/command/Command.java:79-88 | the loop counts the resolvers that are not optional |
| Commands.Command.ParametersHint | core/src/com/google/collinsmith70/diablo/command/Command.java:98-109 | the loop builds the bracketed resolvers in order, and the result is that text trimmed |
| Commands.Command.Execute | core/src/com/google/collinsmith70/diablo/command/Command.java:71-77 | the calls made are exactly the resolver calls and the action call of the execution; it completes exactly when the arguments suffice |
| Commands.Command.ToString | core/src/com/google/collinsmith70/diablo/command/Command.java:115-122 | fails exactly when the command has no alias; otherwise gives the command's description |
| Commands.NewCommand | core/src/com/google/collinsmith70/diablo/command/Command.java:38-45 | fails, with the table unchanged, exactly on a null or empty alias; otherwise the table maps the alias to a fresh command with that one alias, the previous owner loses it, and no other command keeps it |
| CvarRegistry.DefaultSerializersCoverFourClasses | core/src/com/gmail/collinsmith70/cvar/CvarManager.java:19-26 | the default serializers cover exactly String, Boolean, Integer and Double |
| CvarRegistry.CvarManager.constructor | core/src/com/gmail/collinsmith70/cvar/CvarManager.java:31-34 | an empty table and a copy of the default serializers |
| CvarRegistry.CvarManager.IsManagingCvar | core/src/com/gmail/collinsmith70/cvar/CvarManager.java:102-105 | a managed cvar's alias is present, and the table maps its lower-cased alias to that very cvar |
| CvarRegistry.CvarManager.ContainsAlias | core/src/com/gmail/collinsmith70/cvar/CvarManager.java:107-109 | the lower-cased alias is a key of the table; `ContainsAliasIgnoresCase` shows the case of the argument does not matter |
| CvarRegistry.CvarManager.BeforeChanged | core/src/com/gmail/collinsmith70/cvar/CvarManager.java:36-39 | returns the proposed new value |
| CvarRegistry.CvarManager.CheckIfManaged | core/src/com/gmail/collinsmith70/cvar/CvarManager.java:91-100 | passes exactly for a managed cvar; otherwise fails with `UnmanagedCvar` of that cvar |
| CvarRegistry.CvarManager.Load | core/src/com/gmail/collinsmith70/cvar/CvarManager.java:78-80 | passes exactly for a managed cvar; otherwise fails with `UnmanagedCvar` |
| CvarRegistry.CvarManager.Save | core/src/com/gmail/collinsmith70/cvar/CvarManager.java:82-85 | passes exactly for a managed cvar; otherwise fails with `UnmanagedCvar` |
| CvarRegistry.CvarManager.Commit | core/src/com/gmail/collinsmith70/cvar/CvarManager.java:87-89 | passes exactly for a managed cvar; otherwise fails with `UnmanagedCvar` |
| CvarRegistry.CvarManager.GetSerializer | core/src/com/gmail/collinsmith70/cvar/CvarManager.java:111-113 | the serializer stored for the class; `None` where there is none |
| CvarRegistry.CvarManager.GetSerializerOf | core/src/com/gmail/collinsmith70/cvar/CvarManager.java:115-117 | the serializer of the cvar's value class |
| CvarRegistry.CvarManager.PutSerializer | core/src/com/gmail/collinsmith70/cvar/CvarManager.java:119-121 | afterwards the class has the new serializer and every other class keeps its own |
| CvarRegistry.CvarManager.Add | core/src/com/gmail/collinsmith70/cvar/CvarManager.java:56-68 | a managed cvar comes back with nothing changed; a case-insensitive alias clash fails with `DuplicateCvar` and changes nothing; otherwise the cvar is stored under its lower-cased alias and subscribed; success leaves it managed |
| CvarRegistry.CvarManager.Remove | core/src/com/gmail/collinsmith70/cvar/CvarManager.java:70-76 | always returns false; deletes the entry exactly when the cvar was managed |
| CvarRegistry.CvarManager.Create | core/src/com/gmail/collinsmith70/cvar/CvarManager.java:50-54 | always fails with `UnmanagedCvar` of the new cvar and leaves the table unchanged, because `load` runs before `add` |
| CvarRegistry.CvarManager.EntriesAreManaged | core/src/com/gmail/collinsmith70/cvar/CvarManager.java:65-105 | every cvar in the table is managed |
| CvarRegistry.CvarManager.AliasOfManaged | core/src/com/gmail/collinsmith70/cvar/CvarManager.java:102-109 | a managed cvar's alias is present; an unmanaged cvar whose alias is present collides with a different cvar |
| CvarRegistry.CvarManager.ContainsAliasIgnoresCase | core/src/com/gmail/collinsmith70/cvar/CvarManager.java:107-109 | `containsAlias(a)` and `containsAlias(a.toLowerCase())` agree |
| Settings.KeyCheck | core/src/com/google/collinsmith70/diablo/cvar/Cvar.java:73-82 | null key, empty key and a key already present as given are refused, in that order; every other key passes |
| Settings.ChooseLoadListener | core/src/com/google/collinsmith70/diablo/cvar/Cvar.java:88-116 | a cvar has no load listener exactly when none was given and its class is none of the eight boxed types |
| Settings.StoredString | core/src/com/google/collinsmith70/diablo/cvar/Cvar.java:121 | the stored preference text for the key, or the fallback where there is none |
| Settings.InitialValue | core/src/com/google/collinsmith70/diablo/cvar/Cvar.java:104-124 | no load listener: the default value; otherwise the parse of the stored text, or of the formatted default where nothing is stored |
| Settings.Notify | core/src/com/google/collinsmith70/diablo/cvar/Cvar.java:189-195 | one notification per listener, in order, each with the same cvar, old and new value |
| Settings.ChangeNotificationsOrder | core/src/com/google/collinsmith70/diablo/cvar/Cvar.java:189-195 | a change notifies every per-cvar listener first, then every global one, each with (old, new) |
| Settings.CvarStatics.constructor | core/src/com/google/collinsmith70/diablo/cvar/Cvar.java:25-46 | an empty table, no global listeners and no notifications |
| Settings.CvarStatics.Get | core/src/com/google/collinsmith70/diablo/cvar/Cvar.java:37-39 | the lower-cased key is looked up; `None` where it is absent |
| Settings.CvarStatics.Search | core/src/com/google/collinsmith70/diablo/cvar/Cvar.java:33-35 | the entries whose stored key starts with the prefix as given |
| Settings.CvarStatics.GetIgnoresCase | core/src/com/google/collinsmith70/diablo/cvar/Cvar.java:37-39 | `get(k)` and `get(k.toLowerCase())` agree |
| Settings.CvarStatics.SearchWithUpperCaseFindsNothing | core/src/com/google/collinsmith70/diablo/cvar/Cvar.java:33-39 | a search prefix with an upper-case letter finds nothing, since every stored key is lower case |
| Settings.CvarStatics.UpperCaseKeyPassesDuplicateCheck | core/src/com/google/collinsmith70/diablo/cvar/Cvar.java:78-129 | a key with an upper-case letter never fails the duplicate check, even when its lower-cased form is registered |
| Settings.CvarStatics.AddGlobalCvarChangeListener | core/src/com/google/collinsmith70/diablo/cvar/Cvar.java:48-50 | adds the listener at the end unless it is already there |
| Settings.CvarStatics.NewCvar | core/src/com/google/collinsmith70/diablo/cvar/Cvar.java:72-130 | fails exactly when the key check fails, with the table unchanged; otherwise a fresh cvar with the chosen class, load listener and loaded value is stored under the lower-cased key, replacing any entry there, and `get(key)` finds it |
| Settings.Cvar.constructor | core/src/com/google/collinsmith70/diablo/cvar/Cvar.java:84-86 | the fields are set and the cvar has no change listeners |
| Settings.Cvar.SetValue | core/src/com/google/collinsmith70/diablo/cvar/Cvar.java:173-196 | an equal value changes nothing and notifies no one; otherwise the value is set, persisted when there is a load listener, and the change notifications are appended |
| Settings.Cvar.SetValueFromString | core/src/com/google/collinsmith70/diablo/cvar/Cvar.java:198-206 | fails, changing nothing, exactly when there is no load listener; otherwise the value becomes the parsed text, and unless it already was, the preference is rewritten with the formatted value and the change notifications are appended |
| Settings.Cvar.Reset | core/src/com/google/collinsmith70/diablo/cvar/Cvar.java:209-211 | the value becomes the default; already the default: preferences and notifications unchanged; otherwise the preference is rewritten when there is a load listener and the change notifications are appended |
| Settings.Cvar.AddCvarChangeListener | core/src/com/google/collinsmith70/diablo/cvar/Cvar.java:132-135 | adds the listener unless present and calls it at once with a null old value and the current value |

## Left out

- `Point2.set(Vector2)`: it rounds floats with `Map.round`, which is not part of this model.
- `Map`: only `flags` is used, as an arbitrary total function of the two coordinates.
- Logging through `Gdx.app.log` (`Command`'s "Registered" message and the `Cvar` messages): it has no effect on state.
- `Cvar.saveAll` and `Preferences.flush`: the preferences store is a plain map that `setValue` writes to; nothing is flushed.
- `Cvar.getStringValue`, `Cvar.toString`, `getKey`/`getType`/`getDefaultValue`/`getValue`: plain reads of fields, which are fields of the model.
- `containsCvarChangeListener`, `removeCvarChangeListener` and their global counterparts: not part of this model.
- `Cvar.getCvars`, `Command.getCommands`, `Command.getAliases`, `getResolver`: read-only views of fields the model exposes directly.
- `Command.load`, `Cvar.load` and `afterChanged`: their bodies are empty.
- The bodies of listeners, load listeners, serializers, parameter resolvers and actions: they are outside the modelled code. Load listeners are a pair of arbitrary functions. The other calls are recorded as events.
- `CvarManager`'s cvar class (`com.gmail.collinsmith70.cvar.Cvar`) is not part of this model. Only its alias, its class and identity equality are used, so the default value and validator passed to `create` are not modelled.
- `CvarManager.Add`: the subscription `cvar.addCvarChangeListener(this)` is recorded in `subscriptions`; the listener call it makes is not modelled.
- `JavaLang.ToLower`: only ASCII letters are lower-cased; Java's locale-dependent full Unicode mapping is not modelled.
- `Commands.Registry.Search`, `Settings.CvarStatics.Search`: the result is a map, so the sorted key order of the `PatriciaTrie` prefix view is not modelled.
- Thread safety of `CopyOnWriteArraySet` and `ConcurrentHashMap`: the sets are sequences in insertion order and the maps are plain maps.
- `null` values: `Cvar` values and default values are never null in the model, so the `NullPointerException`s of `getDefaultValue().getClass()` and `this.value.equals(value)` are not modelled.
- `Command` constructor: the command object is built before `addAlias` throws; the model does not return it on failure.
- `Settings.Cvar.SetValue`: `equals` on values is taken as equality of `Value`; a class whose `equals` is not structural is not modelled.
- Non-null parameters: the model gives no way to pass `null` where the code dereferences it without a test, so those `NullPointerException`s are not modelled. This covers:
  - the key or prefix of `Command.get`/`search`, `Cvar.get`/`search`, `CvarManager.containsAlias` and `create` (for example `key.toLowerCase()` in `Cvar.get`);
  - the `src` of `Point2(Point2)` and `set(Point2)`, and the `p` of `add(Point2)`.
