/** The scene-graph entities the mesh shaper reads and rewrites: geometry
    nodes, the IndexedFaceSet mesh node and the Shape node that owns one
    geometry. Coordinates are `real`; the loader that builds these nodes is not
    part of this model. */
module Scene {

  datatype Option<T> = None | Some(value: T)

  /** An SFVec3f / SFColor value. */
  datatype Vec3 = Vec3(x: real, y: real, z: real)

  const Origin: Vec3 := Vec3(0.0, 0.0, 0.0)

  /** cos and sin of one angle, as the floating-point library returns them. */
  datatype CosSin = CosSin(cos: real, sin: real)

  /** The trigonometric values the curved primitives use, given as inputs:
      `around(i)` for the longitude angle i * 2 * PI / N, `down(i)` for the
      latitude angle i * PI / N, N being the division number. */
  datatype Trig = Trig(around: int -> CosSin, down: int -> CosSin)

  /** VRML ElevationGrid parameters. */
  datatype Grid = Grid(xDimension: int, zDimension: int, xSpacing: real, zSpacing: real,
                       height: seq<real>, creaseAngle: real)

  /** The closed set of geometry kinds; `Unsupported` stands for every other
      geometry node and for an absent one. */
  datatype Geometry =
    | Box(size: Vec3)
    | Cone(bottomRadius: real, height: real)
    | Cylinder(radius: real, height: real)
    | Sphere(radius: real)
    | ElevationGrid(grid: Grid)
    | Extrusion
    | IndexedFaceSet(mesh: FaceSet)
    | Unsupported

  /** The value of an IndexedFaceSet's fields. A missing Color node is an
      empty `colors`; a missing Normal node is `hasNormal == false`. */
  datatype MeshData = MeshData(
    hasCoord: bool, points: seq<Vec3>, coordIndex: seq<int>,
    colors: seq<Vec3>, colorIndex: seq<int>, colorPerVertex: bool,
    hasNormal: bool, normals: seq<Vec3>, normalIndex: seq<int>, normalPerVertex: bool,
    creaseAngle: real)

  /** A freshly created IndexedFaceSet (VRML97 field defaults) with a fresh,
      empty Coordinate node. */
  const NewMesh: MeshData :=
    MeshData(true, [], [], [], [], true, false, [], [], true, 0.0)

  /** An IndexedFaceSet node, updated in place by the shaper. */
  class FaceSet {
    var hasCoord: bool
    var points: seq<Vec3>
    var coordIndex: seq<int>
    var colors: seq<Vec3>
    var colorIndex: seq<int>
    var colorPerVertex: bool
    var hasNormal: bool
    var normals: seq<Vec3>
    var normalIndex: seq<int>
    var normalPerVertex: bool
    var creaseAngle: real

    function Data(): MeshData
      reads this
    {
      MeshData(hasCoord, points, coordIndex, colors, colorIndex, colorPerVertex,
               hasNormal, normals, normalIndex, normalPerVertex, creaseAngle)
    }

    /** A new node together with its new Coordinate node. */
    constructor ()
      ensures Data() == NewMesh
    {
      hasCoord, points, coordIndex := true, [], [];
      colors, colorIndex, colorPerVertex := [], [], true;
      hasNormal, normals, normalIndex, normalPerVertex := false, [], [], true;
      creaseAngle := 0.0;
    }
  }

  /** A Shape node: its geometry field is replaced on conversion. */
  class Shape {
    var geometry: Geometry

    constructor (g: Geometry)
      ensures geometry == g
    {
      geometry := g;
    }
  }
}
