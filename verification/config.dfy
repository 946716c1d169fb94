/** The simulation configuration block (`ParticleConfig`) that the host keeps
    as a resource, edits between frames and uploads to the GPU. The fields are
    those the GUI hand-off and the debug printer use, plus the per-frame
    `delta_time` the buffer-preparation system writes. The f32 values are only
    copied by the modelled code, so they are kept as `real`. */
module Config {
  import opened Types

  datatype ParticleConfig = ParticleConfig(
    particleCount: u32,
    particleSize: real,
    smoothingRadius: real,
    maxEnergy: real,
    dampingFactor: real,
    fixedDeltaTime: real,
    frameCount: u32,
    gravity: real,
    targetDensity: real,
    pressureMultiplier: real,
    viscosityStrength: real,
    nearDensityMultiplier: real,
    screenBounds: seq<real>,
    viewProj: seq<seq<real>>,
    deltaTime: real)
}
