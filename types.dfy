/** The two enumerations of the game: what a power-up grants and how an obstacle moves. */
module GameTypes {

  datatype PowerUpType = Bullet | Rocket | Laser

  datatype ObstacleType = Static | MovingVertical | MovingHorizontal

  /** A power-up slot that may be empty (the source's `PowerUpType | null`). */
  datatype Option<T> = None | Some(value: T)
}
