/** The entities of one game tick, as the game's object list holds them.
    Every GameObject subclass becomes a tag of one datatype, and object identity
    becomes an explicit id. */
module Entities {
  import opened Common

  type EntityId = nat

  datatype PowerUpType = Shield | TripleShot | HealthPack

  /** EnemyBullet, Enemy, BossEnemy, PowerUp, the player's Bullet, and everything
      else the list may hold (explosions, the player itself). */
  datatype Kind =
    | EnemyShot
    | NormalEnemy
    | Boss
    | Item(powerUp: PowerUpType)
    | PlayerShot
    | Scenery

  /** Position is the centre; width and height are the full extents. The velocity
      is only meaningful for shots. */
  datatype Entity = Entity(
    id: EntityId,
    kind: Kind,
    x: real, y: real,
    width: real, height: real,
    vx: real, vy: real,
    dead: bool)

  /** Sizes the game gives its objects (Enemy.WIDTH/HEIGHT, PowerUp.WIDTH/HEIGHT,
      Bullet.WIDTH/HEIGHT). A BossEnemy keeps Enemy's 30 x 30: its own 50 x 50
      constants are never read by getWidth/getHeight. */
  const EnemySize: real := 30.0
  const PowerUpSize: real := 20.0

  /** `obj instanceof EnemyBullet && !obj.isDead()` */
  predicate IsLiveEnemyShot(e: Entity) {
    e.kind.EnemyShot? && !e.dead
  }

  /** `obj instanceof Enemy` holds for normal enemies and for bosses. */
  predicate IsEnemy(e: Entity) {
    e.kind.NormalEnemy? || e.kind.Boss?
  }

  predicate IsLiveEnemy(e: Entity) {
    IsEnemy(e) && !e.dead
  }

  predicate IsLiveBoss(e: Entity) {
    e.kind.Boss? && !e.dead
  }

  /** An object is alive when the list holds a live entity with its id; once it
      is dead, or removed (which happens only to dead objects), `isDead()` is true. */
  predicate LiveIn(objs: seq<Entity>, id: EntityId) {
    exists k :: 0 <= k < |objs| && objs[k].id == id && !objs[k].dead
  }

  /** Axis-aligned overlap of two bounding boxes, as JavaFX `Bounds.intersects`
      reports it (touching edges intersect). */
  predicate Overlaps(ax: real, ay: real, aw: real, ah: real, b: Entity) {
    && ax - aw / 2.0 <= b.x + b.width / 2.0
    && b.x - b.width / 2.0 <= ax + aw / 2.0
    && ay - ah / 2.0 <= b.y + b.height / 2.0
    && b.y - b.height / 2.0 <= ay + ah / 2.0
  }

  /** The entity a scan chose, by its position in the snapshot. */
  function Pick(view: seq<Entity>, choice: Option<nat>): Option<Entity>
    requires choice.Some? ==> choice.value < |view|
  {
    match choice
    case None => None
    case Some(m) => Some(view[m])
  }

  /** Setting the dead flag of one entity. */
  function Killed(e: Entity): Entity {
    e.(dead := true)
  }
}
