# MapTypeConverter value codec

This project models the iOS value converter of the `flutter_naver_map` plugin (`ios/Classes/converter/MapTypeConverter.swift`). The converter sits between the plugin's untyped channel messages and the typed values of the Naver map SDK:

- it decodes message dictionaries into points, bounds and camera positions, and encodes them back;
- it encodes symbols, indoor selections, regions, zones and levels into dictionaries;
- it decodes an array of points into a line string and reads the points back out;
- it maps closed sets of names to SDK enumerations: camera animation, map type, location-tracking mode, overlay alignment, logo alignment, line cap and line join;
- it unpacks an ARGB integer into colour channels and packs them back.

Every conversion is a pure function, so the model is functional throughout. It has four modules:

- `Values` (`values.dfy`): the message value as a tagged union, a `Result` type whose failures name why decoding stopped, and the primitive extractors `asString`, `asInt`, `asDouble`, `asDict` and `asArr` as partial functions. The forced unwrap `d[key]!` is `Lookup`, and it fails with `MissingKey(key)`.
- `Objects` (`objects.dfy`): source lines 7-120.
- `Enums` (`enums.dfy`): source lines 126-247.
- `Color` (`color.dfy`): source lines 253-273, limited to the integer bit layout.

Floating-point fields are `real`, because the converter only copies them. SDK objects are datatypes holding exactly the fields the converter reads or writes. The SDK's Objective-C `hash` is an uninterpreted `int`.

The overlay-alignment encoder is asymmetric, and the model keeps it that way. `bottomRight` is sent as `"bottomLeft"` and `bottomLeft` as `"bottomRight"`, while all other alignments, `topLeft` and `topRight` included, keep their own names (lines 190-193). Nothing in the source says whether this swap is intended, for example to compensate for an inverted axis elsewhere, or is a defect; the model records the behaviour as written. Decode-then-encode therefore swaps the two bottom-corner names and is an involution on the nine known names.

## Model

| member | source | states |
|---|---|---|
| Objects.AsLatLng | ios/Classes/converter/MapTypeConverter.swift:7-10 | decoding succeeds exactly when the value is a dictionary of doubles holding `lat` and `lng`, and then yields those two numbers |
| Objects.LatLngToDict | ios/Classes/converter/MapTypeConverter.swift:12-16 | a point is sent as a dictionary with exactly the keys `lat` and `lng` |
| Objects.LatLngRoundTrip | ios/Classes/converter/MapTypeConverter.swift:7-16 | decoding an encoded point gives the point back |
| Objects.LatLngMissingKey | ios/Classes/converter/MapTypeConverter.swift:9 | a dictionary missing `lat` or `lng` is a failure, not a default point |
| Objects.AsLatLngBounds | ios/Classes/converter/MapTypeConverter.swift:18-24 | succeeds exactly when every value is a point and both `southWest` and `northEast` are present; the corners are those points |
| Objects.BoundsToDict | ios/Classes/converter/MapTypeConverter.swift:26-33 | bounds are sent with exactly the keys `southWest` and `northEast` |
| Objects.BoundsRoundTrip | ios/Classes/converter/MapTypeConverter.swift:18-33 | decoding encoded bounds gives the bounds back |
| Objects.BoundsMissingKey | ios/Classes/converter/MapTypeConverter.swift:21-22 | a dictionary missing either corner is a failure |
| Objects.AsCameraPosition | ios/Classes/converter/MapTypeConverter.swift:35-43 | succeeds exactly when `target` is a point and `zoom`, `tilt`, `bearing` are doubles; `bearing` becomes the heading |
| Objects.CameraToDict | ios/Classes/converter/MapTypeConverter.swift:45-54 | a camera is sent with exactly the keys `target`, `zoom`, `tilt`, `bearing` and no `heading` key |
| Objects.CameraRoundTrip | ios/Classes/converter/MapTypeConverter.swift:35-54 | decoding an encoded camera gives it back, the heading travelling as `bearing` |
| Objects.CameraMissingKey | ios/Classes/converter/MapTypeConverter.swift:38-41 | a dictionary missing any of the four keys is a failure; there are no defaults |
| Objects.SymbolToDict | ios/Classes/converter/MapTypeConverter.swift:56-64 | a symbol is sent with keys `caption`, `position`, `hashCode`, holding its caption (`""` when absent), a dictionary that decodes back to its position, and its hash |
| Objects.SymbolToDictEqual | ios/Classes/converter/MapTypeConverter.swift:56-64 | two symbols encode alike if and only if they agree on caption text, position and identity |
| Objects.SymbolAbsentCaptionIsEmpty | ios/Classes/converter/MapTypeConverter.swift:59 | an absent caption and an empty caption cannot be told apart once encoded |
| Objects.LevelToDict | ios/Classes/converter/MapTypeConverter.swift:98-105 | a level is sent with keys `name` and `hashCode`, holding its name and its hash |
| Objects.ZoneToDict | ios/Classes/converter/MapTypeConverter.swift:86-96 | a zone is sent with its id under `id`, its default level under `defaultLevelIndex`, and one level dictionary per level under `levels`, same length and order |
| Objects.RegionToDict | ios/Classes/converter/MapTypeConverter.swift:76-84 | a region is sent with one zone dictionary per zone, same length and order |
| Objects.SelectionToDict | ios/Classes/converter/MapTypeConverter.swift:66-74 | a selection is sent with its level index under `levelIndex`, its zone index under `zoneIndex` and its region dictionary under `region` |
| Objects.LevelToDictInjective | ios/Classes/converter/MapTypeConverter.swift:98-105 | distinct levels give distinct dictionaries |
| Objects.ZoneToDictInjective | ios/Classes/converter/MapTypeConverter.swift:86-96 | distinct zones give distinct dictionaries |
| Objects.RegionToDictInjective | ios/Classes/converter/MapTypeConverter.swift:76-84 | distinct regions give distinct dictionaries |
| Objects.SelectionToDictInjective | ios/Classes/converter/MapTypeConverter.swift:66-74 | distinct selections give distinct dictionaries: the indoor encoding loses nothing |
| Objects.AsLineString | ios/Classes/converter/MapTypeConverter.swift:107-110 | succeeds exactly when the value is an array of points; keeps their number and order |
| Objects.LatLngPoints | ios/Classes/converter/MapTypeConverter.swift:112-120 | returns the line string's points, same length and order |
| Objects.EmptyLineString | ios/Classes/converter/MapTypeConverter.swift:107-110 | an empty array gives an empty line string, not a failure |
| Objects.LineStringRoundTrip | ios/Classes/converter/MapTypeConverter.swift:107-120 | an array of encoded points decodes to a line string whose points are exactly those points |
| Enums.AsCameraAnimation | ios/Classes/converter/MapTypeConverter.swift:126-133 | decodes every string, failing only on a non-string |
| Enums.CameraAnimationNames | ios/Classes/converter/MapTypeConverter.swift:126-133 | `"easing"` ↦ easeIn, `"fly"` ↦ fly, `"linear"` ↦ linear, each if and only if; every other string ↦ none |
| Enums.AsMapType | ios/Classes/converter/MapTypeConverter.swift:135-144 | decodes every string, failing only on a non-string |
| Enums.MapTypeNames | ios/Classes/converter/MapTypeConverter.swift:135-144 | each of the five names decodes to its type, if and only if; every other string decodes to none |
| Enums.AsLocationTrackingMode | ios/Classes/converter/MapTypeConverter.swift:146-153 | fails only on a non-string; `"face"` ↦ compass, `"follow"` ↦ direction, `"noFollow"` ↦ normal, each if and only if; every other string ↦ disabled |
| Enums.TrackingModeName | ios/Classes/converter/MapTypeConverter.swift:155-165 | compass ↦ `"face"`, direction ↦ `"follow"`, normal ↦ `"noFollow"`, disabled ↦ `"none"`, each if and only if |
| Enums.TrackingModeRoundTrip | ios/Classes/converter/MapTypeConverter.swift:146-165 | every mode survives encode then decode; disabled goes through `"none"` and the default |
| Enums.TrackingModeNameRoundTrip | ios/Classes/converter/MapTypeConverter.swift:146-165 | decode then encode returns the string if and only if it is `face`, `follow`, `noFollow` or `none`; other strings decode to disabled |
| Enums.AsAlign | ios/Classes/converter/MapTypeConverter.swift:167-180 | each of the nine names decodes to its same-named alignment, if and only if; any other string fails |
| Enums.AlignName | ios/Classes/converter/MapTypeConverter.swift:182-197 | seven alignments are sent under their own names; bottomRight is sent as `"bottomLeft"` and bottomLeft as `"bottomRight"`, each if and only if |
| Enums.AlignRoundTrip | ios/Classes/converter/MapTypeConverter.swift:167-197 | encode then decode returns the alignment with bottomLeft and bottomRight exchanged; it is unchanged exactly for the other seven |
| Enums.AlignNameRoundTrip | ios/Classes/converter/MapTypeConverter.swift:167-197 | for the nine names, decode then encode swaps `bottomLeft`/`bottomRight` and returns every other name unchanged |
| Enums.AlignEchoInvolution | ios/Classes/converter/MapTypeConverter.swift:167-197 | decode-then-encode applied twice returns every known name |
| Enums.AsLogoAlign | ios/Classes/converter/MapTypeConverter.swift:199-207 | decodes every string, failing only on a non-string |
| Enums.LogoAlignNames | ios/Classes/converter/MapTypeConverter.swift:199-207 | unknown strings decode to leftBottom, the same as `"leftBottom"`; each other name to its own variant, if and only if |
| Enums.AsLineCap | ios/Classes/converter/MapTypeConverter.swift:209-216 | fails only on a non-string; `"round"` ↦ round and `"square"` ↦ square, each if and only if; every other string, `"butt"` included, ↦ butt |
| Enums.LineCapName | ios/Classes/converter/MapTypeConverter.swift:218-227 | butt ↦ `"butt"`, round ↦ `"round"`, square ↦ `"square"`, each if and only if |
| Enums.LineCapRoundTrip | ios/Classes/converter/MapTypeConverter.swift:209-227 | every cap survives encode then decode |
| Enums.LineCapNameRoundTrip | ios/Classes/converter/MapTypeConverter.swift:209-227 | decode then encode returns the string if and only if it is one of the three names; other strings decode to butt |
| Enums.AsLineJoin | ios/Classes/converter/MapTypeConverter.swift:229-236 | fails only on a non-string; `"miter"` ↦ miter and `"round"` ↦ round, each if and only if; every other string, `"bevel"` included, ↦ bevel |
| Enums.LineJoinName | ios/Classes/converter/MapTypeConverter.swift:238-247 | bevel ↦ `"bevel"`, miter ↦ `"miter"`, round ↦ `"round"`, each if and only if |
| Enums.LineJoinRoundTrip | ios/Classes/converter/MapTypeConverter.swift:229-247 | every join survives encode then decode |
| Enums.LineJoinNameRoundTrip | ios/Classes/converter/MapTypeConverter.swift:229-247 | decode then encode returns the string if and only if it is one of the three names; other strings decode to bevel |
| Color.ByteAt | ios/Classes/converter/MapTypeConverter.swift:259-262 | shift-and-mask yields a value in 0..255 |
| Color.ColorOfArgb | ios/Classes/converter/MapTypeConverter.swift:258-264 | each of the four extracted channels lies in 0..255 |
| Color.AsUIColor | ios/Classes/converter/MapTypeConverter.swift:253-255 | succeeds exactly on integers; the channels are those unpacked from the integer, and repacking them gives its low 32 bits |
| Color.ToInt | ios/Classes/converter/MapTypeConverter.swift:266-273 | repacking byte channels gives an integer in 0..2^32-1 |
| Color.ShiftOrIsSum | ios/Classes/converter/MapTypeConverter.swift:272 | on byte channels, OR of the fields shifted to 24/16/8/0 equals their sum, which is how `ToInt` is written |
| Color.PackUnpack | ios/Classes/converter/MapTypeConverter.swift:259-272 | unpacking then repacking any integer keeps its low 32 bits |
| Color.ArgbRoundTrip | ios/Classes/converter/MapTypeConverter.swift:259-272 | unpacking then repacking an integer in 0..2^32-1 gives it back |
| Color.ChannelsRoundTrip | ios/Classes/converter/MapTypeConverter.swift:259-272 | repacking then unpacking four byte channels gives them back |
| Color.ArgbBoundaries | ios/Classes/converter/MapTypeConverter.swift:259-262 | `0x00000000`, `0xFFFFFFFF` and `0x80402010` split into the expected channels |

## Left out

- The primitive extractors `asString`, `asInt`, `asDouble`, `asDict` and `asArr` are defined in a file that is not part of this model. `Values` gives them the simplest reading: each accepts exactly its own kind of value. `asDict(v, valueCaster:)` fails if the caster rejects any value, and `asArr(v, elementCaster:)` fails if it rejects any element. If the real helpers coerce numbers, for example an integer read as a double, or drop entries they cannot cast, the model accepts fewer inputs than the source.
- Forced unwraps (`!`) and the `NSError` thrown by `asAlign` crash or throw in the source. Here they are `Err` results: `MissingKey` and `UnknownName`. The source's `NSError()` carries no payload; the string that `UnknownName` holds is extra detail the program does not report.
- The `as! NMGLineString<NMGPointable>` cast and `toLatLng!()` in `latLngPoints` (lines 115-116) are runtime casting details. The model treats them as the identity on the stored points.
- The `@unknown default` and `default` branches of the encoders (lines 162, 194, 224, 244) are unreachable for the closed datatypes used here, so they are not modelled.
- Colour floats are not modelled. This covers the division by 255.0 when a colour is built, the multiplication by 255 and the `Int(...)` truncation in `toInt`, and UIKit's `getRed` colour-space conversion. A colour is its four channel bytes, and the float round trip is taken as exact.
- Color.ToInt: requires byte channels, which is what `Int(x * 255)` yields for a channel `x` in [0, 1]. It is written as the sum of the shifted channels rather than their bitwise OR. `ShiftOrIsSum` proves the two agree on bytes. Channels outside 0..255, which could only come from an extended colour space, are not covered.
- SDK object identity (`hash`, lines 61 and 102) is an uninterpreted integer copied into the dictionary.
- Swift's 64-bit `Int` width is not modelled: integers are unbounded. No computation at lines 259-262 or 272 can overflow a 64-bit `Int`: the shifts right and the masks only shrink values, and repacking byte channels stays below 2^32. `ColorOfArgb` and `PackUnpack` hold for every integer; `ArgbRoundTrip` is stated for 0..2^32-1 and `ChannelsRoundTrip` for byte channels.
