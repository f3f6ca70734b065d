/**
 * The home page component: the fields its mouse, wheel and animation
 * handlers update in place.
 */
module Home {
  import opened Controls

  class HomeComponent {
    var isDragging: bool
    /** previousMousePosition */
    var prevX: real
    var prevY: real
    /** cube.rotation.x and cube.rotation.y */
    var rotX: real
    var rotY: real
    /** camera.position.z */
    var camZ: real

    /** The camera distance stays between its bounds. */
    ghost predicate Valid()
      reads this
    {
      InZoomRange(camZ)
    }

    /** The fields as a value. */
    function State(): ControlState
      reads this
    {
      ControlState(isDragging, prevX, prevY, rotX, rotY, camZ)
    }

    /** The field initialisers, the cube's zero rotation and the camera's initial distance. */
    constructor ()
      ensures Valid()
      ensures !isDragging && prevX == 0.0 && prevY == 0.0
      ensures rotX == 0.0 && rotY == 0.0 && camZ == InitialCamZ
      ensures State() == Initial
    {
      isDragging := false;
      prevX, prevY := 0.0, 0.0;
      rotX, rotY := 0.0, 0.0;
      camZ := InitialCamZ;
    }

    method HandleMouseDown(clientX: real, clientY: real)
      requires Valid()
      modifies this
      ensures Valid()
      ensures isDragging && prevX == clientX && prevY == clientY
      ensures rotX == old(rotX) && rotY == old(rotY) && camZ == old(camZ)
      ensures State() == old(State()).MouseDown(clientX, clientY)
    {
      isDragging := true;
      prevX, prevY := clientX, clientY;
    }

    method HandleMouseMove(clientX: real, clientY: real)
      requires Valid()
      modifies this
      ensures Valid()
      ensures !old(isDragging) ==> State() == old(State())
      ensures old(isDragging) ==>
        rotY == old(rotY) + (clientX - old(prevX)) * RotateSpeed &&
        rotX == old(rotX) + (clientY - old(prevY)) * RotateSpeed &&
        prevX == clientX && prevY == clientY
      ensures isDragging == old(isDragging) && camZ == old(camZ)
      ensures State() == old(State()).MouseMove(clientX, clientY)
    {
      if !isDragging {
        return;
      }
      var deltaX := clientX - prevX;
      var deltaY := clientY - prevY;
      rotY := rotY + deltaX * RotateSpeed;
      rotX := rotX + deltaY * RotateSpeed;
      prevX, prevY := clientX, clientY;
    }

    method HandleMouseUp()
      requires Valid()
      modifies this
      ensures Valid()
      ensures !isDragging
      ensures prevX == old(prevX) && prevY == old(prevY)
      ensures rotX == old(rotX) && rotY == old(rotY) && camZ == old(camZ)
      ensures State() == old(State()).MouseUp()
    {
      isDragging := false;
    }

    /** Works from any distance, and always lands inside the bounds. */
    method HandleWheel(deltaY: real)
      modifies this
      ensures Valid()
      ensures camZ == ClampCamZ(old(camZ) + deltaY * ZoomSpeed)
      ensures isDragging == old(isDragging) && prevX == old(prevX) && prevY == old(prevY)
      ensures rotX == old(rotX) && rotY == old(rotY)
      ensures State() == old(State()).Wheel(deltaY)
    {
      camZ := camZ + deltaY * ZoomSpeed;
      camZ := Max(MinCamZ, Min(MaxCamZ, camZ));
    }

    /** The rotation step of one animation frame. */
    method Tick()
      requires Valid()
      modifies this
      ensures Valid()
      ensures !old(isDragging) ==> rotX == old(rotX) + IdleSpin && rotY == old(rotY) + IdleSpin
      ensures old(isDragging) ==> rotX == old(rotX) && rotY == old(rotY)
      ensures isDragging == old(isDragging) && prevX == old(prevX) && prevY == old(prevY)
      ensures camZ == old(camZ)
      ensures State() == old(State()).Tick()
    {
      if !isDragging {
        rotX := rotX + IdleSpin;
        rotY := rotY + IdleSpin;
      }
    }
  }
}
