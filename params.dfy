/** The node's tuning parameters, read once at start-up and never changed. */
module Params {

  datatype Config = Config(
    enemyTimeTolerance: real,   // seconds an enemy observation stays fresh
    snipeTh: real,              // engage when the enemy is closer than this (m)
    distanceToWallTh: real,     // a ray closer than this reports a wall (m)
    counterTh: int,             // fresh ticks needed before a detection is trusted
    approachDistanceTh: real,   // standoff distance kept while attacking (m)
    attackAngleTh: real,        // drive forward only within this bearing (rad)
    cameraRangeMin: real,       // camera corroboration window, near end (m)
    cameraRangeMax: real,       // camera corroboration window, far end (m)
    cameraAngleLimit: real      // camera corroboration window, bearing (rad)
  )

  /** The defaults of `get_rosparam`. `pi` stands for `math.pi`; the camera
      angle parameter is given in degrees and converted, the attack angle
      default is already in radians. */
  function DefaultConfig(pi: real): (cfg: Config)
    ensures cfg.enemyTimeTolerance == 0.5 && cfg.snipeTh == 0.8
    ensures cfg.distanceToWallTh == 0.15 && cfg.counterTh == 3
    ensures cfg.approachDistanceTh == 0.5
    ensures cfg.cameraRangeMin == 0.2 && cfg.cameraRangeMax == 0.5
    ensures cfg.attackAngleTh * 4.0 == pi && cfg.cameraAngleLimit * 6.0 == pi
    // with these defaults the bot attacks only inside the snipe distance,
    // and drives forward there while farther than the standoff
    ensures cfg.approachDistanceTh < cfg.snipeTh
    // the camera window is a non-empty band, narrower than the attack sector
    ensures cfg.cameraRangeMin < cfg.cameraRangeMax
    ensures pi > 0.0 ==> 0.0 < cfg.cameraAngleLimit < cfg.attackAngleTh
  {
    Config(
      enemyTimeTolerance := 0.5,
      snipeTh := 0.8,
      distanceToWallTh := 0.15,
      counterTh := 3,
      approachDistanceTh := 0.5,
      attackAngleTh := 45.0 * pi / 180.0,
      cameraRangeMin := 0.2,
      cameraRangeMax := 0.5,
      cameraAngleLimit := 30.0 * pi / 180.0
    )
  }
}
