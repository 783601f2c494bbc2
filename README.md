# RT90 position bookkeeping (MightyLittleGeodesy)

A Dafny model of `RT90Position`, the coordinate holder for the Swedish RT90 grid in
MightyLittleGeodesy. It models three things:

- the mapping from the `RT90Projection` enum to the lookup key that configures the
  Gauss-Krüger engine (`GetProjectionString`), with its fallback arm;
- the derived `ProjectionString` property and the mutable `Projection` property;
- the three constructors and `ToWGS84`, with the engine as a parameter.

`projection.dfy` (module `RT90Projections`) holds the enum and the key mapping.
`RT90Projection` is a datatype with the six named members and `Other(value)`. `Other`
stands for any integer an enum variable can hold that is not a named member, so the
fallback arm `_ => "rt90_2.5_gon_v"` can be reached. The model proves these facts:

- the mapping is total, and every key is one of six 14-character strings that start
  with `rt90_` and end with `_gon_v` or `_gon_o`;
- the mapping has a left inverse: `FindByKey`, a reference search for the first named
  projection whose key equals a string, gives back the projection from its key, or the
  default `rt90_2_5_gon_v` for an unknown value;
- two values share a key exactly when they are the same named projection, with
  unknown values counted as the default;
- the mapping is therefore injective on the six named members.

`positions.dfy` (module `Positions`) holds `RT90Position` and `WGS84Position` as
classes with `Latitude`, `Longitude` and `GridFormat` fields; `RT90Position` also has
`Projection`. The engine (`GaussKreuger.swedishParams` followed by `geodetic_to_grid`
or `grid_to_geodetic`) is the datatype `GaussKrueger`. It holds two function values
from (key, first coordinate, second coordinate) to the pair the engine returns. The
pair's parts `.0` and `.1` are the array elements `[0]` and `[1]`. Doubles are modelled
as `real`. The model only stores these values and passes them on.

An unknown `RT90Projection` value silently gets the default key
(`MightyLittleGeodesyPackage/Models/Positions/RT90.cs:101`); the model follows the code.

## Model

| member | source | states |
|---|---|---|
| RT90Projections.GetProjectionString | MightyLittleGeodesyPackage/Models/Positions/RT90.cs:91-104 | total: every projection, named or not, gets one of the six keys, 14 characters long, starting `rt90_` and ending `_gon_v` or `_gon_o` |
| RT90Projections.Canonical | MightyLittleGeodesyPackage/Models/Positions/RT90.cs:95-101 | reference definition, not a source operation: the named projection a value is treated as (itself, or 2.5 gon V for a value outside the named six); its result is always named, and KeyRoundTrip and SameKeyIffSameCanonical prove the switch agrees with it |
| RT90Projections.FindByKey | MightyLittleGeodesyPackage/Models/Positions/RT90.cs:95-101 | reference inverse of the switch at 95-101, not a lookup in this file: a found projection is a candidate whose key equals the string; not found means no candidate has that key |
| RT90Projections.FindFirstMatch | MightyLittleGeodesyPackage/Models/Positions/RT90.cs:95-101 | about the reference inverse of the switch: it returns the first candidate whose key is the given one, the fact KeyRoundTrip rests on |
| RT90Projections.KeyRoundTrip | MightyLittleGeodesyPackage/Models/Positions/RT90.cs:93-102 | looking up the key of any projection gives back that projection, or the default for a value outside the named six |
| RT90Projections.FoundIffKey | MightyLittleGeodesyPackage/Models/Positions/RT90.cs:95-100 | a string is found among the named projections exactly when it is one of the six keys |
| RT90Projections.SameKeyIffSameCanonical | MightyLittleGeodesyPackage/Models/Positions/RT90.cs:95-101 | two projections get the same key if and only if they are treated as the same named projection |
| RT90Projections.KeyInjectiveOnNamed | MightyLittleGeodesyPackage/Models/Positions/RT90.cs:95-100 | on the six named projections, equal keys hold exactly for equal projections |
| RT90Projections.KeysDistinct | MightyLittleGeodesyPackage/Models/Positions/RT90.cs:95-100 | the six keys are pairwise distinct, and the i-th named projection has the i-th key |
| RT90Projections.UnknownFallsBackToDefault | MightyLittleGeodesyPackage/Models/Positions/RT90.cs:97-101 | any value that is not a named member gets `rt90_2.5_gon_v`, the key of 2.5 gon V |
| Positions.WGS84Position.constructor | MightyLittleGeodesyPackage/Models/Positions/RT90.cs:81-86 | the new WGS84 position holds exactly the given latitude, longitude and grid tag |
| Positions.RT90Position.WithDefaultProjection | MightyLittleGeodesyPackage/Models/Positions/RT90.cs:37-41 | grid tag RT90, both coordinates stored, projection 2.5 gon V, so the key is `rt90_2.5_gon_v` |
| Positions.RT90Position.constructor | MightyLittleGeodesyPackage/Models/Positions/RT90.cs:49-53 | grid tag RT90, both coordinates stored, projection exactly the given one |
| Positions.RT90Position.FromWGS84 | MightyLittleGeodesyPackage/Models/Positions/RT90.cs:60-69 | projection is the argument, 2.5 gon V by default; Latitude and Longitude are outputs [0] and [1] of the forward transform, run under that projection's key on the WGS84 latitude and longitude |
| Positions.RT90Position.ProjectionString | MightyLittleGeodesyPackage/Models/Positions/RT90.cs:107-113 | always the key of the stored projection, and the key lookup gives the stored projection back (or the default) |
| Positions.RT90Position.SetProjection | MightyLittleGeodesyPackage/Models/Positions/RT90.cs:106 | only `Projection` changes, and `ProjectionString` then identifies the new value |
| Positions.RT90Position.ToWGS84 | MightyLittleGeodesyPackage/Models/Positions/RT90.cs:75-89 | the receiver is unchanged; the result is a new position tagged WGS84 whose Latitude and Longitude are outputs [0] and [1] of the inverse transform, run under the receiver's key on its Latitude and Longitude |

## Left out

- Positions.RT90Position.WithDefaultProjection: the contract leaves open which of `x` and `y` becomes `Latitude`. The base constructor `Position(x, y, Grid)` is not part of this model. The doc comments at `MightyLittleGeodesyPackage/Models/Positions/RT90.cs:35` and `:46` call `x` the longitude, but the test at `MightLittleGeodesyPackageTest/PositionsTest.cs:46` passes the northing as `x`.
- Positions.RT90Position.constructor: the axis order of `x` and `y` is left open, for the same reason.
- The Gauss-Krüger engine (`GaussKreuger`) is not part of this model, including `swedishParams`, which turns the key into projection parameters. It is 64-bit floating-point series arithmetic, and here it is an uninterpreted parameter. Its round-trip tolerance and the RT90 range bounds are numeric accuracy claims, and no contract states them.
- Floating point: coordinates are `real`. Rounding, NaN and infinities are not modelled.
- The ordinals of the `RT90Projection` enum are not part of this model, because its declaration is not among the modelled files. `Other(v)` means a value outside the six named members, whatever its ordinal.
- `ToString` is left out: it formats doubles with culture-dependent `string.Format`.
- The `Position` base class and `WGS84Position` parsing and formatting in degrees, minutes and seconds are not part of this model. Only the three fields that `RT90Position` uses are modelled.
- The `SWEREFProjection` enum is not modelled. It is data only, and the SWEREF99 key mapping is not part of this model.
- Aliasing between positions is not modelled: no operation here shares or hands out an existing object.
