/**
  `BirdScript`: the alive flag, the jump and the deaths by leaving the
  camera's view or by hitting an obstacle. The calls it makes into the
  audio manager and `LogicScript.GameOver` are returned as events, in
  order; whether the jump action was pressed this frame and the bird's
  position are inputs.
 */
module Bird {
  /** The two clips the bird plays. */
  datatype Sound = JumpSound | DeathSound

  datatype Event = PlaySound(sound: Sound, volume: real) | GameOverCalled

  const FLAP_STRENGTH: real := 10.0
  const JUMP_VOLUME: real := 0.5
  const DEATH_VOLUME: real := 0.7
  /** All obstacles are on this layer. */
  const OBSTACLE_LAYER: int := 6

  /** The bird has left the view: strictly above its top or below its
      bottom. */
  predicate OutOfBounds(y: real, camTop: real, camBottom: real)
  {
    y > camTop || y < camBottom
  }

  /** The events of one `Update`, given whether the bird is alive. */
  function UpdateEvents(alive: bool, jumpPressed: bool, y: real, camTop: real, camBottom: real): (es: seq<Event>)
    ensures !alive ==> es == []
    ensures |es| <= 3
    ensures (GameOverCalled in es) <==> alive && OutOfBounds(y, camTop, camBottom)
    ensures (PlaySound(JumpSound, JUMP_VOLUME) in es) <==> alive && jumpPressed
  {
    (if jumpPressed && alive then [PlaySound(JumpSound, JUMP_VOLUME)] else [])
    + (if alive && OutOfBounds(y, camTop, camBottom) then [PlaySound(DeathSound, DEATH_VOLUME), GameOverCalled] else [])
  }

  /** A bird exactly on a bound stays in view. */
  lemma OnBoundSurvives(camTop: real, camBottom: real)
    requires camBottom <= camTop
    ensures !OutOfBounds(camTop, camTop, camBottom) && !OutOfBounds(camBottom, camTop, camBottom)
  {
  }

  class BirdScript {
    var birdIsAlive: bool
    var velocityX: real
    var velocityY: real
    var camTop: real
    var camBottom: real

    constructor()
      ensures birdIsAlive
    {
      birdIsAlive := true;
      velocityX := 0.0;
      velocityY := 0.0;
      camTop := 0.0;
      camBottom := 0.0;
    }

    /** `UpdateCameraBounds` from the camera's y and orthographic size. */
    method UpdateCameraBounds(camY: real, orthographicSize: real)
      modifies this
      ensures camTop == camY + orthographicSize && camBottom == camY - orthographicSize
      ensures birdIsAlive == old(birdIsAlive) && velocityX == old(velocityX) && velocityY == old(velocityY)
    {
      camTop := camY + orthographicSize;
      camBottom := camY - orthographicSize;
    }

    /** `Die`: the death sound, game over, and the bird is dead for good. */
    method Die() returns (events: seq<Event>)
      modifies this
      ensures !birdIsAlive && events == [PlaySound(DeathSound, DEATH_VOLUME), GameOverCalled]
      ensures camTop == old(camTop) && camBottom == old(camBottom)
      ensures velocityX == old(velocityX) && velocityY == old(velocityY)
    {
      events := [PlaySound(DeathSound, DEATH_VOLUME), GameOverCalled];
      birdIsAlive := false;
    }

    /** `Update` for one frame. */
    method Update(jumpPressed: bool, y: real) returns (events: seq<Event>)
      modifies this
      ensures events == UpdateEvents(old(birdIsAlive), jumpPressed, y, camTop, camBottom)
      ensures birdIsAlive == (old(birdIsAlive) && !OutOfBounds(y, camTop, camBottom))
      ensures old(birdIsAlive) && jumpPressed ==> velocityX == 0.0 && velocityY == FLAP_STRENGTH
      ensures !(old(birdIsAlive) && jumpPressed) ==> velocityX == old(velocityX) && velocityY == old(velocityY)
      ensures camTop == old(camTop) && camBottom == old(camBottom)
    {
      events := [];
      if jumpPressed && birdIsAlive {
        velocityX := 0.0;
        velocityY := FLAP_STRENGTH;
        events := events + [PlaySound(JumpSound, JUMP_VOLUME)];
      }
      if birdIsAlive && (y > camTop || y < camBottom) {
        var died := Die();
        events := events + died;
      }
    }

    /** `OnCollisionEnter2D`: an obstacle kills the bird whether or not it
        is still alive, so a dead bird reports game over again. */
    method OnCollisionEnter2D(layer: int) returns (events: seq<Event>)
      modifies this
      ensures layer == OBSTACLE_LAYER ==> !birdIsAlive && events == [PlaySound(DeathSound, DEATH_VOLUME), GameOverCalled]
      ensures layer != OBSTACLE_LAYER ==> birdIsAlive == old(birdIsAlive) && events == []
      ensures camTop == old(camTop) && camBottom == old(camBottom)
      ensures velocityX == old(velocityX) && velocityY == old(velocityY)
    {
      events := [];
      if layer == OBSTACLE_LAYER {
        events := Die();
      }
    }
  }
}
