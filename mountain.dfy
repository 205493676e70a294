/** Background mountains standing on the bottom edge and drifting left. */
module MountainEntity {

  import opened Constants
  import opened PhaserMath

  class Mountain {
    var x: real
    const y: real
    const width: int
    const height: int
    const vx: real
    var isDead: bool

    /**
     * Width and height are drawn from [150, 300] and [80, 150]; the centre is placed
     * so that the base sits on the bottom edge of the screen.
     */
    constructor (x: real, speed: real, widthDraw: real, heightDraw: real)
      requires IsUniform(widthDraw) && IsUniform(heightDraw)
      ensures this.x == x && vx == -speed && !isDead
      ensures width == Between(150.0, 300.0, widthDraw)
      ensures height == Between(80.0, 150.0, heightDraw)
      ensures 150 <= width <= 300 && 80 <= height <= 150
      ensures y == GAME_HEIGHT - height as real / 2.0
      ensures y + height as real / 2.0 == GAME_HEIGHT
    {
      BetweenWhole(150, 300, widthDraw);
      BetweenWhole(80, 150, heightDraw);
      var w := Between(150.0, 300.0, widthDraw);
      var h := Between(80.0, 150.0, heightDraw);
      width, height := w, h;
      y := GAME_HEIGHT - h as real / 2.0;
      this.x := x;
      vx := -speed;
      isDead := false;
    }

    /** update: nothing for a dead mountain; a mountain entirely past the left edge is destroyed. */
    method Update()
      modifies this
      ensures old(isDead) ==> unchanged(this)
      ensures isDead == (old(isDead) || x < -(width as real))
      ensures x == old(x)
    {
      if isDead {
        return;
      }
      if x < -(width as real) {
        Destroy();
      }
    }

    /** destroy: mark dead; a second call changes nothing. */
    method Destroy()
      modifies this
      ensures isDead && x == old(x)
    {
      if !isDead {
        isDead := true;
      }
    }
  }
}
