/** The avatar: a bounding sphere that follows a camera, and a mode flag
    choosing whether the camera walks (keeping its height) or flies. Moving
    forward is undone when the sphere at the new position collides with the
    scene. */
module Avatars {
  import opened Geometry
  import opened Cameras

  /** Where the camera's eye ends up after one forward step in the given
      mode. */
  function Stepped(walk: bool, p: Vector3, dir: Vector3, step: real): (q: Vector3)
    ensures walk ==> q.y == p.y
    ensures walk ==> Add(q, Scale(step, Vector3(dir.x, 0.0, dir.z))) == p
    ensures !walk ==> Add(q, Scale(step, dir)) == p
  {
    if walk then Walked(p, dir, step) else Flown(p, dir, step)
  }

  /** Stepping back by -step, in the same mode and along the same
      direction, undoes a step. */
  lemma SteppedRoundTrip(walk: bool, p: Vector3, dir: Vector3, step: real)
    ensures Stepped(walk, Stepped(walk, p, dir, step), dir, -step) == p
  {
    MoveRoundTrip(p, dir, step);
  }

  class Avatar {
    const name: string
    /** The camera the avatar moves; it is shared, not owned. */
    const cam: Camera
    /** Walk mode when true, fly mode when false. */
    var walk: bool
    /** The avatar's bounding sphere. */
    var bsph: BSphere

    /** A new avatar in fly mode whose sphere, of the given radius, is
        centred at the camera's position. */
    constructor (name: string, cam: Camera, radius: real)
      ensures this.name == name && this.cam == cam && !walk
      ensures bsph == BSphere(cam.GetPosition(), radius)
    {
      this.name := name;
      this.cam := cam;
      walk := false;
      bsph := BSphere(cam.GetPosition(), radius);
    }

    /** Sets the mode and returns the previous one. */
    method WalkOrFly(walkOrFly: bool) returns (previous: bool)
      modifies this`walk
      ensures previous == old(walk) && walk == walkOrFly
    {
      previous := walk;
      walk := walkOrFly;
    }

    /** One step of `step` units in the current mode: the camera walks
        when `walk` holds and flies otherwise. */
    method Move(step: real)
      requires cam.Valid()
      modifies cam`E, cam`At, cam`viewTrfm, cam.fPlanes
      ensures cam.Valid() && cam.PlanesCurrent()
      ensures cam.E == Stepped(walk, old(cam.E), cam.D, step)
      ensures cam.At == Stepped(walk, old(cam.At), cam.D, step)
    {
      if walk {
        cam.Walk(step);
      } else {
        cam.Fly(step);
      }
    }

    /** Tries to advance `step` units in the current mode. The sphere is
        moved to the camera's new position; when `collides` reports that
        sphere as colliding with the scene, the camera steps back by -step,
        which returns its eye and target exactly where they were, and the
        answer is false. The sphere is left at the tried position either
        way. */
    method Advance(step: real, collides: BSphere -> bool) returns (advanced: bool)
      requires cam.Valid()
      modifies this`bsph, cam`E, cam`At, cam`viewTrfm, cam.fPlanes
      ensures cam.Valid() && cam.PlanesCurrent()
      ensures bsph == BSphere(Stepped(walk, old(cam.E), cam.D, step), old(bsph.radius))
      ensures advanced == !collides(bsph)
      ensures advanced ==> (cam.E == Stepped(walk, old(cam.E), cam.D, step)
                            && cam.At == Stepped(walk, old(cam.At), cam.D, step))
      ensures !advanced ==> cam.E == old(cam.E) && cam.At == old(cam.At)
    {
      ghost var e0, at0 := cam.E, cam.At;
      Move(step);
      bsph := BSphere(cam.GetPosition(), bsph.radius);
      if collides(bsph) {
        Move(-step);
        SteppedRoundTrip(walk, e0, cam.D, step);
        SteppedRoundTrip(walk, at0, cam.D, step);
        return false;
      }
      return true;
    }

    /** Turns left or right: about the world's Y axis when walking, about
        the camera's own up axis when flying. */
    method LeftRight(angle: real)
      requires cam.Valid()
      modifies cam`At, cam`Up, cam`R, cam`U, cam`D, cam`viewTrfm, cam.fPlanes
      ensures cam.Valid() && cam.PlanesCurrent()
      ensures walk ==> (cam.At == cam.lib.rotatePoint(UnitY, cam.E, angle, old(cam.At))
                        && cam.Up == cam.lib.rotateVector(UnitY, cam.E, angle, old(cam.Up)))
      ensures !walk ==> (cam.At == cam.lib.rotatePoint(old(cam.U), cam.E, angle, old(cam.At))
                         && cam.Up == cam.lib.rotateVector(old(cam.U), cam.E, angle, old(cam.Up)))
    {
      if walk {
        cam.ViewYWorld(angle);
      } else {
        cam.Yaw(angle);
      }
    }

    /** Looks up or down: pitches the camera in either mode. */
    method UpDown(angle: real)
      requires cam.Valid()
      modifies cam`At, cam`Up, cam`R, cam`U, cam`D, cam`viewTrfm, cam.fPlanes
      ensures cam.Valid() && cam.PlanesCurrent()
      ensures cam.At == cam.lib.rotatePoint(old(cam.R), cam.E, angle, old(cam.At))
      ensures cam.Up == cam.lib.rotateVector(old(cam.R), cam.E, angle, old(cam.Up))
    {
      cam.Pitch(angle);
    }
  }
}
