/** RT90Position and the WGS84 position it converts to (RT90.cs). Coordinates are
    doubles in the source; here they are reals that the model only stores and
    passes on. The Gauss-Krueger engine is not part of this model: it is the
    parameter `engine`, two functions of the projection key and a coordinate pair. */
module Positions {
  import opened RT90Projections

  /** The grid a position is expressed in. */
  datatype Grid = WGS84 | RT90 | SWEREF99

  /** The Gauss-Krueger engine once configured with a projection key: the
      forward transform (geodetic to grid) and the inverse one (grid to
      geodetic). The pair's first and second parts are elements [0] and [1] of
      the array the engine returns. */
  datatype GaussKrueger = GaussKrueger(
    geodeticToGrid: (string, real, real) -> (real, real),
    gridToGeodetic: (string, real, real) -> (real, real))

  /** A WGS84 position: latitude and longitude in decimal degrees. */
  class WGS84Position {
    var Latitude: real
    var Longitude: real
    var GridFormat: Grid

    /** The parameterless constructor followed by an object initializer that sets all three properties. */
    constructor (latitude: real, longitude: real, gridFormat: Grid)
      ensures Latitude == latitude && Longitude == longitude && GridFormat == gridFormat
    {
      Latitude := latitude;
      Longitude := longitude;
      GridFormat := gridFormat;
    }
  }

  /** A position in an RT90 projection. */
  class RT90Position {
    var Latitude: real
    var Longitude: real
    var GridFormat: Grid
    var Projection: RT90Projection

    /** What the base constructor Position(x, y, Grid.RT90) establishes: the grid
        tag, and the two coordinates stored in one of the two axis orders. */
    ghost predicate HoldsAxes(x: real, y: real)
      reads this
    {
      GridFormat == RT90 &&
      ((Latitude == x && Longitude == y) || (Latitude == y && Longitude == x))
    }

    /** A position in the default projection, 2.5 gon V. */
    constructor WithDefaultProjection(x: real, y: real)
      ensures HoldsAxes(x, y)
      ensures Projection == DefaultProjection
      ensures ProjectionString() == "rt90_2.5_gon_v"
    {
      Latitude, Longitude, GridFormat := x, y, RT90;
      Projection := rt90_2_5_gon_v;
    }

    /** A position in the given projection, stored as given. */
    constructor (x: real, y: real, projection: RT90Projection)
      ensures HoldsAxes(x, y)
      ensures Projection == projection
      ensures ProjectionString() == GetProjectionString(projection)
    {
      Latitude, Longitude, GridFormat := x, y, RT90;
      Projection := projection;
    }

    /** A position obtained by projecting a WGS84 position; the projection
        defaults to 2.5 gon V. The engine is configured with the key of the
        requested projection and its two outputs become Latitude and Longitude. */
    constructor FromWGS84(position: WGS84Position, engine: GaussKrueger,
                          rt90projection: RT90Projection := rt90_2_5_gon_v)
      ensures GridFormat == RT90
      ensures Projection == rt90projection
      ensures var grid := engine.geodeticToGrid(GetProjectionString(rt90projection),
                                                position.Latitude, position.Longitude);
              Latitude == grid.0 && Longitude == grid.1
    {
      GridFormat := RT90;
      var grid := engine.geodeticToGrid(GetProjectionString(rt90projection),
                                        position.Latitude, position.Longitude);
      Latitude := grid.0;
      Longitude := grid.1;
      Projection := rt90projection;
    }

    /** The key of the stored projection. It always identifies that projection:
        looking it up among the named projections gives the stored one back, or
        the default when the stored value is none of the named six. */
    function ProjectionString(): (key: string)
      reads this
      ensures key == GetProjectionString(Projection)
      ensures FindByKey(key, NamedProjections) == Some(Canonical(Projection))
    {
      KeyRoundTrip(Projection);
      GetProjectionString(Projection)
    }

    /** The setter of the Projection property: only Projection changes, and the
        derived key follows it. */
    method SetProjection(p: RT90Projection)
      modifies this`Projection
      ensures Projection == p
      ensures ProjectionString() == GetProjectionString(p)
      ensures FindByKey(ProjectionString(), NamedProjections) == Some(Canonical(p))
    {
      Projection := p;
    }

    /** Converts to WGS84 with the engine configured by this position's key.
        The receiver is left as it was (the method may modify nothing). */
    method ToWGS84(engine: GaussKrueger) returns (newPos: WGS84Position)
      ensures fresh(newPos) && unchanged(this)
      ensures newPos.GridFormat == WGS84
      ensures var geo := engine.gridToGeodetic(ProjectionString(), Latitude, Longitude);
              newPos.Latitude == geo.0 && newPos.Longitude == geo.1
    {
      var geo := engine.gridToGeodetic(ProjectionString(), Latitude, Longitude);
      newPos := new WGS84Position(geo.0, geo.1, WGS84);
    }
  }
}
