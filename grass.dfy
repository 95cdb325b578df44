/**
 * The grass settings a ground type or a height band carries: the engine's
 * FGrassTypeSettings, ULandscapeGrassType and FGrassVariety, reduced to the
 * parts the rebuild reads. Meshes are identified by a number.
 */
module Grass {
  import opened EngineTypes

  /** EGrassScaling; `Unsupported` stands for any other value the enum byte may hold */
  datatype GrassScaling = Uniform | Free | LockXY | Unsupported

  /** FFloatInterval */
  datatype FloatInterval = FloatInterval(min: real, max: real)

  datatype GrassVariety = GrassVariety(
    grassMesh: nat,
    density: real,
    scaling: GrassScaling,
    scaleX: FloatInterval,
    scaleY: FloatInterval,
    scaleZ: FloatInterval,
    randomRotation: bool)

  /** ULandscapeGrassType: the varieties planted together */
  datatype GrassType = GrassType(varieties: seq<GrassVariety>)

  /** FGrassTypeSettings: a possibly missing grass type and the steepest slope it grows on */
  datatype GrassTypeSettings = GrassTypeSettings(grassType: Option<GrassType>, maxSlopeAngle: real)
}
