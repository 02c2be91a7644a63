/**
 * Camera (src/core/camera.cpp): the fly camera's cursor capture, mouse
 * look and keyboard movement.
 *
 * GLFW's input queries are parameters: the cursor position, the set of
 * movement keys held down, and what the overlay layer reports about
 * wanting the mouse or keyboard. glfwSetInputMode is kept as the
 * cursor mode it sets. updateCameraVectors computes the front, right and
 * up vectors from yaw and pitch with cos, sin and normalize; the model
 * takes that computation as a parameter `basis`.
 */
module CameraControl {
  import opened LinearAlgebra

  const GLFW_PRESS: int := 1
  const GLFW_MOUSE_BUTTON_LEFT: int := 0
  const GLFW_KEY_ESCAPE: int := 256

  /** The pitch limit, in degrees, that keeps the view from flipping over the poles. */
  const PITCH_LIMIT: real := 89.0

  const MOUSE_SENSITIVITY: real := 0.15
  /** The initial movementSpeed. */
  const MOVEMENT_SPEED: real := 500.0

  /** GLFW_CURSOR_NORMAL and GLFW_CURSOR_DISABLED. */
  datatype CursorMode = CursorNormal | CursorDisabled

  /** The movement keys processKeyboard polls. */
  datatype Key = KeyW | KeyS | KeyA | KeyD | KeySpace | KeyLeftControl

  /** The camera's front, right and up vectors. */
  datatype Basis = Basis(front: Vec3, right: Vec3, up: Vec3)

  /** The pitch constraint of processMouseMovement. */
  function ClampPitch(p: real): (r: real)
    ensures -PITCH_LIMIT <= r <= PITCH_LIMIT
    ensures -PITCH_LIMIT <= p <= PITCH_LIMIT ==> r == p
    ensures p > PITCH_LIMIT ==> r == PITCH_LIMIT
    ensures p < -PITCH_LIMIT ==> r == -PITCH_LIMIT
  {
    var clamped := if p > PITCH_LIMIT then PITCH_LIMIT else p;
    if clamped < -PITCH_LIMIT then -PITCH_LIMIT else clamped
  }

  /** The mouse-look state: angles, the last cursor position and whether the next movement is the first. */
  datatype Look = Look(yaw: real, pitch: real, lastX: real, lastY: real, firstMouse: bool)

  /**
   * One processMouseMovement with the cursor at (x, y) while captured:
   * the first movement only records the position; later ones turn by the
   * sensitivity times the offset (y inverted) and clamp the pitch.
   */
  function MouseLook(l: Look, x: real, y: real): (r: Look)
    ensures r.lastX == x && r.lastY == y && !r.firstMouse
    ensures l.firstMouse ==> r.yaw == l.yaw && r.pitch == l.pitch
    ensures !l.firstMouse ==> r.yaw == l.yaw + MOUSE_SENSITIVITY * (x - l.lastX)
    ensures !l.firstMouse ==> r.pitch == ClampPitch(l.pitch + MOUSE_SENSITIVITY * (l.lastY - y))
    ensures !l.firstMouse ==> -PITCH_LIMIT <= r.pitch <= PITCH_LIMIT
  {
    if l.firstMouse then Look(l.yaw, l.pitch, x, y, false)
    else
      var xoffset := (x - l.lastX) * MOUSE_SENSITIVITY;
      var yoffset := (l.lastY - y) * MOUSE_SENSITIVITY;
      Look(l.yaw + xoffset, ClampPitch(l.pitch + yoffset), x, y, false)
  }

  /** A run of movements, each to the next cursor position of `path`. */
  function MouseLookAll(l: Look, path: seq<(real, real)>): Look
    decreases |path|
  {
    if |path| == 0 then l else MouseLookAll(MouseLook(l, path[0].0, path[0].1), path[1..])
  }

  /**
   * Yaw is not clamped, so over a run of movements after the first it
   * turns by the sensitivity times the net horizontal cursor travel,
   * whatever path the cursor took.
   */
  lemma {:induction false} YawFollowsNetTravel(l: Look, path: seq<(real, real)>)
    requires !l.firstMouse
    ensures var r := MouseLookAll(l, path);
            && r.yaw == l.yaw + MOUSE_SENSITIVITY * ((if |path| == 0 then l.lastX else path[|path| - 1].0) - l.lastX)
            && (|path| > 0 ==> r.lastX == path[|path| - 1].0 && r.lastY == path[|path| - 1].1)
    decreases |path|
  {
    if |path| > 0 {
      var next := MouseLook(l, path[0].0, path[0].1);
      YawFollowsNetTravel(next, path[1..]);
      if |path| > 1 {
        assert path[1..][|path[1..]| - 1] == path[|path| - 1];
      }
    }
  }

  /** After any movement but the first, the pitch is within the limit. */
  lemma {:induction false} PitchStaysLimited(l: Look, path: seq<(real, real)>)
    requires l.firstMouse && |path| == 1 ==> -PITCH_LIMIT <= l.pitch <= PITCH_LIMIT
    ensures |path| > 0 ==> -PITCH_LIMIT <= MouseLookAll(l, path).pitch <= PITCH_LIMIT
    decreases |path|
  {
    if |path| > 0 {
      var next := MouseLook(l, path[0].0, path[0].1);
      if !l.firstMouse {
        assert -PITCH_LIMIT <= next.pitch <= PITCH_LIMIT;
      }
      if |path| > 1 {
        PitchStaysLimited(next, path[1..]);
      }
    }
  }

  /** One key's contribution: move along `d` (forward) or against it, when the key is held. */
  function Nudge(p: Vec3, held: bool, d: Vec3, forward: bool): Vec3
  {
    if !held then p else if forward then Add3(p, d) else Sub3(p, d)
  }

  /** The position after processKeyboard's six key tests, in the order they are made. */
  function KeyboardMove(p: Vec3, front: Vec3, right: Vec3, worldUp: Vec3, v: real, held: set<Key>): Vec3
  {
    var f := Nudge(p, KeyW in held, Scale3(front, v), true);
    var b := Nudge(f, KeyS in held, Scale3(front, v), false);
    var l := Nudge(b, KeyA in held, Scale3(right, v), false);
    var r := Nudge(l, KeyD in held, Scale3(right, v), true);
    var u := Nudge(r, KeySpace in held, Scale3(worldUp, v), true);
    Nudge(u, KeyLeftControl in held, Scale3(worldUp, v), false)
  }

  /** With no movement key held the camera stays put. */
  lemma NoKeysNoMove(p: Vec3, front: Vec3, right: Vec3, worldUp: Vec3, v: real)
    ensures KeyboardMove(p, front, right, worldUp, v, {}) == p
  {
  }

  /** Holding both W and S cancels the forward motion, whatever else is held. */
  lemma ForwardBackCancel(p: Vec3, front: Vec3, right: Vec3, worldUp: Vec3, v: real, held: set<Key>)
    ensures KeyboardMove(p, front, right, worldUp, v, held + {KeyW, KeyS})
            == KeyboardMove(p, front, right, worldUp, v, held - {KeyW, KeyS})
  {
  }

  /** Holding both A and D cancels the sideways motion, whatever else is held. */
  lemma LeftRightCancel(p: Vec3, front: Vec3, right: Vec3, worldUp: Vec3, v: real, held: set<Key>)
    ensures KeyboardMove(p, front, right, worldUp, v, held + {KeyA, KeyD})
            == KeyboardMove(p, front, right, worldUp, v, held - {KeyA, KeyD})
  {
  }

  /** Holding both Space and left Ctrl cancels the vertical motion, whatever else is held. */
  lemma UpDownCancel(p: Vec3, front: Vec3, right: Vec3, worldUp: Vec3, v: real, held: set<Key>)
    ensures KeyboardMove(p, front, right, worldUp, v, held + {KeySpace, KeyLeftControl})
            == KeyboardMove(p, front, right, worldUp, v, held - {KeySpace, KeyLeftControl})
  {
  }

  /** A single key held moves the camera by exactly speed × deltaTime along its axis. */
  lemma SingleKeyMoves(p: Vec3, front: Vec3, right: Vec3, worldUp: Vec3, v: real)
    ensures KeyboardMove(p, front, right, worldUp, v, {KeyW}) == Add3(p, Scale3(front, v))
    ensures KeyboardMove(p, front, right, worldUp, v, {KeyS}) == Sub3(p, Scale3(front, v))
    ensures KeyboardMove(p, front, right, worldUp, v, {KeyA}) == Sub3(p, Scale3(right, v))
    ensures KeyboardMove(p, front, right, worldUp, v, {KeyD}) == Add3(p, Scale3(right, v))
    ensures KeyboardMove(p, front, right, worldUp, v, {KeySpace}) == Add3(p, Scale3(worldUp, v))
    ensures KeyboardMove(p, front, right, worldUp, v, {KeyLeftControl}) == Sub3(p, Scale3(worldUp, v))
  {
  }

  /**
   * The aspect ratio of getProjectionMatrix: a zero framebuffer height
   * (a minimised window) counts as 1, so the division is defined.
   */
  function AspectRatio(width: int, height: int): (r: real)
    requires height >= 0
    ensures height == 0 ==> r == width as real
    ensures height > 0 ==> r * (height as real) == width as real
  {
    var h := if height == 0 then 1 else height;
    (width as real) / (h as real)
  }

  class Camera {
    var position: Vec3
    var worldUp: Vec3
    var front: Vec3
    var right: Vec3
    var up: Vec3
    var yaw: real
    var pitch: real
    var firstMouse: bool
    var lastX: real
    var lastY: real
    var cursorCaptured: bool
    var cursorMode: CursorMode
    /** Whether an overlay layer has been set (imguiLayer non-null). */
    var hasOverlay: bool
    /** movementSpeed, which the camera panel adjusts through getSpeedPtr. */
    var movementSpeed: real

    function LookState(): Look
      reads this
    {
      Look(yaw, pitch, lastX, lastY, firstMouse)
    }

    /** The member initialisers, then updateCameraVectors. */
    constructor(basis: (real, real) -> Basis)
      ensures position == Vec3(0.0, 0.0, 0.0) && worldUp == Vec3(0.0, 1.0, 0.0)
      ensures yaw == -90.0 && pitch == 0.0 && firstMouse && lastX == 0.0 && lastY == 0.0
      ensures !cursorCaptured && !hasOverlay && movementSpeed == MOVEMENT_SPEED
      ensures Basis(front, right, up) == basis(-90.0, 0.0)
    {
      movementSpeed := MOVEMENT_SPEED;
      position := Vec3(0.0, 0.0, 0.0);
      worldUp := Vec3(0.0, 1.0, 0.0);
      yaw := -90.0;
      pitch := 0.0;
      firstMouse := true;
      lastX := 0.0;
      lastY := 0.0;
      cursorCaptured := false;
      cursorMode := CursorNormal;
      hasOverlay := false;
      var b := basis(-90.0, 0.0);
      front := b.front;
      right := b.right;
      up := b.up;
    }

    method SetImGuiLayer(present: bool)
      modifies this
      ensures hasOverlay == present
      ensures cursorCaptured == old(cursorCaptured) && LookState() == old(LookState()) && cursorMode == old(cursorMode)
      ensures position == old(position)
    {
      hasOverlay := present;
    }

    /** A write of the speed through getSpeedPtr, as the camera panel's slider makes it. */
    method SetMovementSpeed(speed: real)
      modifies this
      ensures movementSpeed == speed
      ensures position == old(position) && LookState() == old(LookState())
      ensures cursorCaptured == old(cursorCaptured) && cursorMode == old(cursorMode) && hasOverlay == old(hasOverlay)
      ensures front == old(front) && right == old(right) && up == old(up) && worldUp == old(worldUp)
    {
      movementSpeed := speed;
    }

    /** setupInputCallbacks: the callbacks are registered and the cursor is shown and released. */
    method SetupInputCallbacks()
      modifies this
      ensures !cursorCaptured && cursorMode == CursorNormal
      ensures LookState() == old(LookState()) && hasOverlay == old(hasOverlay) && position == old(position)
    {
      cursorMode := CursorNormal;
      cursorCaptured := false;
    }

    method HandleCursorCapture()
      modifies this
      ensures cursorCaptured && cursorMode == CursorDisabled && firstMouse
      ensures yaw == old(yaw) && pitch == old(pitch) && lastX == old(lastX) && lastY == old(lastY)
      ensures hasOverlay == old(hasOverlay) && position == old(position)
    {
      cursorCaptured := true;
      cursorMode := CursorDisabled;
      firstMouse := true;
    }

    method HandleCursorRelease()
      modifies this
      ensures !cursorCaptured && cursorMode == CursorNormal
      ensures LookState() == old(LookState()) && hasOverlay == old(hasOverlay) && position == old(position)
    {
      cursorCaptured := false;
      cursorMode := CursorNormal;
    }

    /**
     * mouseButtonCallback: ignored while the overlay wants the mouse;
     * otherwise a left press while released captures the cursor.
     */
    method MouseButtonCallback(button: int, action: int, overlayWantsMouse: bool)
      modifies this
      ensures var captures := !(hasOverlay && overlayWantsMouse) && button == GLFW_MOUSE_BUTTON_LEFT
                              && action == GLFW_PRESS && !old(cursorCaptured);
              && (captures ==> cursorCaptured && cursorMode == CursorDisabled && firstMouse
                               && yaw == old(yaw) && pitch == old(pitch) && lastX == old(lastX) && lastY == old(lastY))
              && (!captures ==> cursorCaptured == old(cursorCaptured) && cursorMode == old(cursorMode)
                                && LookState() == old(LookState()))
      ensures hasOverlay == old(hasOverlay) && position == old(position)
    {
      if hasOverlay && overlayWantsMouse {
        return;
      }
      if button == GLFW_MOUSE_BUTTON_LEFT && action == GLFW_PRESS && !cursorCaptured {
        HandleCursorCapture();
      }
    }

    /**
     * keyCallback: ignored while the overlay wants the keyboard;
     * otherwise pressing Escape while captured releases the cursor.
     */
    method KeyCallback(key: int, action: int, overlayWantsKeyboard: bool)
      modifies this
      ensures var releases := !(hasOverlay && overlayWantsKeyboard) && key == GLFW_KEY_ESCAPE
                              && action == GLFW_PRESS && old(cursorCaptured);
              && (releases ==> !cursorCaptured && cursorMode == CursorNormal)
              && (!releases ==> cursorCaptured == old(cursorCaptured) && cursorMode == old(cursorMode))
      ensures LookState() == old(LookState()) && hasOverlay == old(hasOverlay) && position == old(position)
    {
      if hasOverlay && overlayWantsKeyboard {
        return;
      }
      if key == GLFW_KEY_ESCAPE && action == GLFW_PRESS && cursorCaptured {
        HandleCursorRelease();
      }
    }

    /** processMouseMovement: nothing while released, otherwise one mouse-look step. */
    method ProcessMouseMovement(xpos: real, ypos: real)
      modifies this
      ensures LookState() == if old(cursorCaptured) then MouseLook(old(LookState()), xpos, ypos) else old(LookState())
      ensures cursorCaptured == old(cursorCaptured) && cursorMode == old(cursorMode)
      ensures hasOverlay == old(hasOverlay) && position == old(position) && movementSpeed == old(movementSpeed)
    {
      if !cursorCaptured {
        return;
      }
      if firstMouse {
        lastX := xpos;
        lastY := ypos;
        firstMouse := false;
        return;
      }
      var xoffset := xpos - lastX;
      var yoffset := lastY - ypos;
      lastX := xpos;
      lastY := ypos;
      xoffset := xoffset * MOUSE_SENSITIVITY;
      yoffset := yoffset * MOUSE_SENSITIVITY;
      yaw := yaw + xoffset;
      pitch := pitch + yoffset;
      if pitch > PITCH_LIMIT {
        pitch := PITCH_LIMIT;
      }
      if pitch < -PITCH_LIMIT {
        pitch := -PITCH_LIMIT;
      }
    }

    /** processKeyboard: move along front, right and world-up by speed × deltaTime per key held. */
    method ProcessKeyboard(deltaTime: real, held: set<Key>)
      modifies this
      ensures position == KeyboardMove(old(position), front, right, worldUp, old(movementSpeed) * deltaTime, held)
      ensures LookState() == old(LookState()) && cursorCaptured == old(cursorCaptured) && cursorMode == old(cursorMode)
      ensures hasOverlay == old(hasOverlay) && front == old(front) && right == old(right) && worldUp == old(worldUp)
      ensures movementSpeed == old(movementSpeed)
    {
      var velocity := movementSpeed * deltaTime;
      var p := position;
      if KeyW in held { p := Add3(p, Scale3(front, velocity)); }
      if KeyS in held { p := Sub3(p, Scale3(front, velocity)); }
      if KeyA in held { p := Sub3(p, Scale3(right, velocity)); }
      if KeyD in held { p := Add3(p, Scale3(right, velocity)); }
      if KeySpace in held { p := Add3(p, Scale3(worldUp, velocity)); }
      if KeyLeftControl in held { p := Sub3(p, Scale3(worldUp, velocity)); }
      position := p;
    }

    /**
     * update: input is processed only while the cursor is captured; the
     * basis is then recomputed from yaw and pitch.
     */
    method Update(deltaTime: real, held: set<Key>, xpos: real, ypos: real, basis: (real, real) -> Basis)
      modifies this
      ensures !old(cursorCaptured) ==> position == old(position) && LookState() == old(LookState())
      ensures old(cursorCaptured) ==> LookState() == MouseLook(old(LookState()), xpos, ypos)
      ensures old(cursorCaptured) ==>
                position == KeyboardMove(old(position), old(front), old(right), old(worldUp), old(movementSpeed) * deltaTime, held)
      ensures Basis(front, right, up) == basis(yaw, pitch)
      ensures cursorCaptured == old(cursorCaptured) && cursorMode == old(cursorMode) && hasOverlay == old(hasOverlay)
      ensures movementSpeed == old(movementSpeed)
    {
      if cursorCaptured {
        ProcessKeyboard(deltaTime, held);
        ProcessMouseMovement(xpos, ypos);
      }
      var b := basis(yaw, pitch);
      front := b.front;
      right := b.right;
      up := b.up;
    }
  }
}
