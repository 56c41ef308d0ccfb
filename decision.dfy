/** Mode decision: patrol unless a trusted enemy is within sniping range. */
module ModeDecision {
  import opened Params
  import opened EnemyFusion

  /** `ActMode`. ESCAPE and DEFENCE are declared but never chosen. */
  datatype ActMode = Basic | Attack | Escape | Defence

  /** `enemy_info`: the distance and bearing cached for the attack. */
  datatype EnemyInfo = EnemyInfo(distance: real, direction: real)

  /** The mode `mode_decision` returns for a detection. */
  function ModeFor(d: Detection, cfg: Config): (m: ActMode)
    ensures m == Basic || m == Attack
    ensures m == Attack <==> d.present && d.distance < cfg.snipeTh
  {
    if !d.present then Basic
    else if d.distance < cfg.snipeTh then Attack
    else Basic
  }

  /** The `enemy_info` after `mode_decision`: refreshed only when it
      answers ATTACK, otherwise the previous value is kept. */
  function CachedInfo(d: Detection, cfg: Config, previous: EnemyInfo): (info: EnemyInfo)
    ensures ModeFor(d, cfg) == Attack ==> info == EnemyInfo(d.distance, d.bearing)
    ensures ModeFor(d, cfg) != Attack ==> info == previous
  {
    if d.present && d.distance < cfg.snipeTh then EnemyInfo(d.distance, d.bearing) else previous
  }
}
