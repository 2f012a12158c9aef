/** The first-person camera (an explicit right/up/look basis) and the third-person camera
    (an orbit around a target in spherical coordinates), with the lazily recomputed view
    matrix guarded by the `viewDirty` flag. */
module Cameras {
  import opened Geometry

  /** MathHelper::Pi and DirectXMath's XM_PI, as the float literals the source uses. */
  const MathHelperPi: real := 3.1415926535
  const XmPi: real := 3.141592654

  /** The orbit camera's zoom limits and pitch limits. */
  const MinRadius: real := 5.0
  const MaxRadius: real := 25.0
  const MinPhi: real := 0.05
  const MaxPhi: real := XmPi / 2.0 - 0.01

  /** g_XMIdentityR1, the world-up vector of the orbit camera's look-at. */
  const WorldUp: Vec3 := Vec3(0.0, 1.0, 0.0)

  /** MathHelper::Clamp: `x < low ? low : (x > high ? high : x)`. */
  function Clamp(x: real, low: real, high: real): (r: real)
    ensures low <= high ==> low <= r <= high
    ensures low <= x <= high ==> r == x
    ensures x < low ==> r == low
    ensures low <= x && x > high ==> r == high
  {
    if x < low then low else if x > high then high else x
  }

  /** A camera basis: the three axes of camera space expressed in world space. */
  datatype Basis = Basis(right: Vec3, up: Vec3, look: Vec3)

  /** The basis both LookAt variants derive from an eye, a target and an up hint:
      L = normalize(target - eye), R = normalize(up x L), U = L x R. */
  function LookAtBasis(num: Numerics, pos: Vec3, target: Vec3, worldUp: Vec3): (b: Basis)
    ensures b.look == num.normalize(Sub(target, pos))
    ensures b.right == num.normalize(Cross(worldUp, b.look))
    ensures Dot(b.up, b.look) == 0.0 && Dot(b.up, b.right) == 0.0
  {
    var l := num.normalize(Sub(target, pos));
    var r := num.normalize(Cross(worldUp, l));
    Basis(r, Cross(l, r), l)
  }

  /** The re-orthonormalisation step of the first-person UpdateViewMatrix:
      L = normalize(L), U = normalize(L x R), R = U x L. */
  function Reorthonormalize(num: Numerics, right: Vec3, look: Vec3): (b: Basis)
    ensures b.look == num.normalize(look)
    ensures Dot(b.right, b.up) == 0.0 && Dot(b.right, b.look) == 0.0
  {
    var l := num.normalize(look);
    var u := num.normalize(Cross(l, right));
    Basis(Cross(u, l), u, l)
  }

  /** `normalize` only rescales: every result is a multiple of its argument. This holds of
      XMVector3Normalize on every nonzero vector over exact reals. */
  ghost predicate NormalizeScales(num: Numerics) {
    forall v: Vec3 :: exists k: real :: num.normalize(v) == Scale(k, v)
  }

  lemma DotScaleLeft(k: real, a: Vec3, b: Vec3)
    ensures Dot(Scale(k, a), b) == k * Dot(a, b)
  {
  }

  /** When normalisation only rescales, the re-orthonormalised basis is pairwise orthogonal. */
  lemma {:induction false} ReorthonormalizedBasisIsOrthogonal(num: Numerics, right: Vec3, look: Vec3)
    requires NormalizeScales(num)
    ensures var b := Reorthonormalize(num, right, look);
      Dot(b.right, b.up) == 0.0 && Dot(b.right, b.look) == 0.0 && Dot(b.up, b.look) == 0.0
  {
    var l := num.normalize(look);
    var c := Cross(l, right);
    var k :| num.normalize(c) == Scale(k, c);
    DotScaleLeft(k, c, l);
  }

  /** When normalisation only rescales, the look-at basis is pairwise orthogonal: right is
      a multiple of worldUp x look, which is orthogonal to look. */
  lemma {:induction false} LookAtBasisIsOrthogonal(num: Numerics, pos: Vec3, target: Vec3, worldUp: Vec3)
    requires NormalizeScales(num)
    ensures var b := LookAtBasis(num, pos, target, worldUp);
      Dot(b.right, b.look) == 0.0 && Dot(b.up, b.look) == 0.0 && Dot(b.up, b.right) == 0.0
  {
    var l := num.normalize(Sub(target, pos));
    var c := Cross(worldUp, l);
    var k :| num.normalize(c) == Scale(k, c);
    DotScaleLeft(k, c, l);
  }

  /** The comment at the re-orthonormalisation: the cross product of two orthonormal
      vectors needs no normalising, since its squared length is
      |U|^2 |L|^2 - (U.L)^2 = 1 (Lagrange's identity). */
  lemma {:induction false} CrossOfOrthonormalIsUnit(u: Vec3, l: Vec3)
    requires Dot(u, u) == 1.0 && Dot(l, l) == 1.0 && Dot(u, l) == 0.0
    ensures Dot(Cross(u, l), Cross(u, l)) == 1.0
  {
    LagrangeIdentity(u, l);
  }

  lemma LagrangeIdentity(a: Vec3, b: Vec3)
    ensures Dot(Cross(a, b), Cross(a, b)) == Dot(a, a) * Dot(b, b) - Dot(a, b) * Dot(a, b)
  {
  }

  /** The view matrix the first-person camera assembles from its basis and position:
      the basis vectors in columns 0 to 2, the translation row (-P.R, -P.U, -P.L, 1) and
      the last column (0, 0, 0, 1), which inverts the camera's rigid world transform
      without a general 4x4 inverse. */
  function FirstPersonView(b: Basis, p: Vec3): (v: Mat4)
    ensures forall i :: 0 <= i < 3 ==>
      At(v, i, 0) == Comp3(b.right, i) && At(v, i, 1) == Comp3(b.up, i) && At(v, i, 2) == Comp3(b.look, i)
    ensures Row(v, 3) == Vec4(-Dot(p, b.right), -Dot(p, b.up), -Dot(p, b.look), 1.0)
    ensures forall i :: 0 <= i < 4 ==> At(v, i, 3) == if i == 3 then 1.0 else 0.0
  {
    Mat4(Vec4(b.right.x, b.up.x, b.look.x, 0.0),
         Vec4(b.right.y, b.up.y, b.look.y, 0.0),
         Vec4(b.right.z, b.up.z, b.look.z, 0.0),
         Vec4(-Dot(p, b.right), -Dot(p, b.up), -Dot(p, b.look), 1.0))
  }

  /** A world point q goes to (q.R - P.R, q.U - P.U, q.L - P.L, 1). */
  lemma FirstPersonViewTransform(b: Basis, p: Vec3, q: Vec3)
    ensures TransformPoint(q, FirstPersonView(b, p)) ==
      Vec4(Dot(q, b.right) - Dot(p, b.right), Dot(q, b.up) - Dot(p, b.up), Dot(q, b.look) - Dot(p, b.look), 1.0)
  {
  }

  /** The view matrix puts the eye at the origin of view space, whatever the basis. */
  lemma ViewMapsEyeToOrigin(b: Basis, p: Vec3)
    ensures TransformPoint(p, FirstPersonView(b, p)) == Vec4(0.0, 0.0, 0.0, 1.0)
  {
    FirstPersonViewTransform(b, p, p);
  }

  lemma DotAddLeft(a: Vec3, c: Vec3, b: Vec3)
    ensures Dot(Add(a, c), b) == Dot(a, b) + Dot(c, b)
  {
  }

  /** The world point at camera coordinates (x, y, z): P + x R + y U + z L. */
  function Offset(b: Basis, p: Vec3, x: real, y: real, z: real): Vec3 {
    Add(Add(Add(p, Scale(x, b.right)), Scale(y, b.up)), Scale(z, b.look))
  }

  /** Dot product of an offset point with a basis vector, expanded. */
  lemma {:induction false} OffsetDot(b: Basis, p: Vec3, x: real, y: real, z: real, w: Vec3)
    ensures Dot(Offset(b, p, x, y, z), w) ==
      Dot(p, w) + x * Dot(b.right, w) + y * Dot(b.up, w) + z * Dot(b.look, w)
  {
    DotAddLeft(Add(Add(p, Scale(x, b.right)), Scale(y, b.up)), Scale(z, b.look), w);
    DotAddLeft(Add(p, Scale(x, b.right)), Scale(y, b.up), w);
    DotAddLeft(p, Scale(x, b.right), w);
    DotScaleLeft(x, b.right, w);
    DotScaleLeft(y, b.up, w);
    DotScaleLeft(z, b.look, w);
  }

  /** For an orthonormal basis the view matrix sends the point P + x R + y U + z L to
      (x, y, z): it expresses world points in camera coordinates. */
  lemma {:induction false} ViewMapsCameraFrame(b: Basis, p: Vec3, x: real, y: real, z: real)
    requires Dot(b.right, b.right) == 1.0 && Dot(b.up, b.up) == 1.0 && Dot(b.look, b.look) == 1.0
    requires Dot(b.right, b.up) == 0.0 && Dot(b.right, b.look) == 0.0 && Dot(b.up, b.look) == 0.0
    ensures TransformPoint(Offset(b, p, x, y, z), FirstPersonView(b, p)) == Vec4(x, y, z, 1.0)
  {
    var q := Offset(b, p, x, y, z);
    FirstPersonViewTransform(b, p, q);
    OffsetDot(b, p, x, y, z, b.right);
    OffsetDot(b, p, x, y, z, b.up);
    OffsetDot(b, p, x, y, z, b.look);
    assert Dot(b.up, b.right) == 0.0 && Dot(b.look, b.right) == 0.0 && Dot(b.look, b.up) == 0.0;
  }

  /** The orbit camera's spherical-to-Cartesian conversion:
      (r cos(phi) sin(theta), r sin(phi), r cos(phi) cos(theta)). */
  function OrbitOffset(num: Numerics, radius: real, phi: real, theta: real): (o: Vec3)
    ensures o.x * num.cos(theta) == o.z * num.sin(theta)
    ensures o.x * o.x + o.z * o.z ==
      (radius * num.cos(phi)) * (radius * num.cos(phi)) * (num.sin(theta) * num.sin(theta) + num.cos(theta) * num.cos(theta))
  {
    Vec3(radius * num.cos(phi) * num.sin(theta), radius * num.sin(phi), radius * num.cos(phi) * num.cos(theta))
  }

  /** Where sin and cos satisfy their Pythagorean identity, the orbit offset has length
      `radius`: the camera sits on the sphere of that radius around the target. */
  lemma {:induction false} OrbitOffsetOnSphere(num: Numerics, radius: real, phi: real, theta: real)
    requires num.sin(phi) * num.sin(phi) + num.cos(phi) * num.cos(phi) == 1.0
    requires num.sin(theta) * num.sin(theta) + num.cos(theta) * num.cos(theta) == 1.0
    ensures var o := OrbitOffset(num, radius, phi, theta); Dot(o, o) == radius * radius
  {
    var sp, cp, st, ct := num.sin(phi), num.cos(phi), num.sin(theta), num.cos(theta);
    var o := OrbitOffset(num, radius, phi, theta);
    calc {
      Dot(o, o);
    ==
      (radius * cp * st) * (radius * cp * st) + (radius * sp) * (radius * sp) + (radius * cp * ct) * (radius * cp * ct);
    ==
      radius * radius * (cp * cp * (st * st + ct * ct) + sp * sp);
    ==
      radius * radius * (cp * cp + sp * sp);
    }
  }

  /** At phi = theta = 0 the camera sits `radius` units along +z from the target. */
  lemma OrbitOffsetAtZeroAngles(num: Numerics, radius: real)
    requires num.sin(0.0) == 0.0 && num.cos(0.0) == 1.0
    ensures OrbitOffset(num, radius, 0.0, 0.0) == Vec3(0.0, 0.0, radius)
  {
  }

  /** Camera: position, basis, frustum and the cached view and projection matrices. */
  class Camera {
    /** The floating-point library the camera calls. */
    const num: Numerics

    var position: Vec3
    var right: Vec3
    var up: Vec3
    var look: Vec3

    var nearZ: real
    var farZ: real
    var aspect: real
    var fovY: real
    var nearWindowHeight: real
    var farWindowHeight: real

    /** True whenever position or basis changed since `view` was last assembled. */
    var viewDirty: bool

    var view: Mat4
    var proj: Mat4

    /** The cached view is valid whenever the flag is clear: it is then the first-person
        view of the current basis and position. */
    ghost predicate ViewFresh()
      reads this
    {
      !viewDirty ==> view == FirstPersonView(Basis(right, up, look), position)
    }

    /** The camera starts at the origin with the world axes as its basis and a dirty view,
        then takes the default lens (fovY = pi/4, aspect 1, near 1, far 1000). */
    constructor (num: Numerics)
      ensures this.num == num
      ensures position == Vec3(0.0, 0.0, 0.0)
      ensures right == Vec3(1.0, 0.0, 0.0) && up == Vec3(0.0, 1.0, 0.0) && look == Vec3(0.0, 0.0, 1.0)
      ensures viewDirty && view == Identity4x4 && ViewFresh()
      ensures fovY == 0.25 * MathHelperPi && aspect == 1.0 && nearZ == 1.0 && farZ == 1000.0
      ensures nearWindowHeight == 2.0 * 1.0 * num.tan(0.5 * fovY)
      ensures farWindowHeight == 2.0 * 1000.0 * num.tan(0.5 * fovY)
      ensures proj == num.perspectiveFovLH(0.25 * MathHelperPi, 1.0, 1.0, 1000.0)
    {
      this.num := num;
      position := Vec3(0.0, 0.0, 0.0);
      right := Vec3(1.0, 0.0, 0.0);
      up := Vec3(0.0, 1.0, 0.0);
      look := Vec3(0.0, 0.0, 1.0);
      viewDirty := true;
      view := Identity4x4;
      proj := Identity4x4;
      new;
      SetLens(0.25 * MathHelperPi, 1.0, 1.0, 1000.0);
    }

    function GetNearWindowHeight(): real
      reads this
    {
      nearWindowHeight
    }

    function GetFarWindowHeight(): real
      reads this
    {
      farWindowHeight
    }

    /** The aspect ratio is the same on the near and far planes: w = r * h. */
    function GetNearWindowWidth(): real
      reads this
    {
      aspect * nearWindowHeight
    }

    function GetFarWindowWidth(): real
      reads this
    {
      aspect * farWindowHeight
    }

    /** tan(fovX / 2) = (w / 2) / near. */
    function GetFovX(): real
      reads this
      requires nearZ != 0.0
    {
      2.0 * num.atan(0.5 * GetNearWindowWidth() / nearZ)
    }

    /** The cached view matrix; reading it while dirty is a usage error (an assertion). */
    function GetView(): (v: Mat4)
      reads this
      requires !viewDirty
      ensures v == view
      ensures ViewFresh() ==> v == FirstPersonView(Basis(right, up, look), position)
    {
      view
    }

    /** The projection matrix has no freshness condition. */
    function GetProj(): (p: Mat4)
      reads this
      ensures p == proj
    {
      proj
    }

    method SetPosition(p: Vec3)
      modifies this`position, this`viewDirty
      ensures position == p && viewDirty && ViewFresh()
    {
      position := p;
      viewDirty := true;
    }

    /** Stores the frustum verbatim and derives the window heights h = 2 d tan(fovY / 2)
        and the projection matrix. The view is unaffected, so the dirty flag is not touched. */
    method SetLens(fovY: real, aspect: real, zn: real, zf: real)
      modifies this`fovY, this`aspect, this`nearZ, this`farZ, this`nearWindowHeight, this`farWindowHeight, this`proj
      ensures this.fovY == fovY && this.aspect == aspect && nearZ == zn && farZ == zf
      ensures nearWindowHeight == 2.0 * zn * num.tan(0.5 * fovY)
      ensures farWindowHeight == 2.0 * zf * num.tan(0.5 * fovY)
      ensures proj == num.perspectiveFovLH(fovY, aspect, zn, zf)
      ensures ViewFresh() <==> old(ViewFresh())
    {
      var t := num.tan(0.5 * fovY);
      this.fovY := fovY;
      this.aspect := aspect;
      nearZ := zn;
      farZ := zf;
      nearWindowHeight := 2.0 * zn * t;
      farWindowHeight := 2.0 * zf * t;
      proj := num.perspectiveFovLH(fovY, aspect, zn, zf);
    }

    method LookAt(pos: Vec3, target: Vec3, worldUp: Vec3)
      modifies this`position, this`right, this`up, this`look, this`viewDirty
      ensures position == pos
      ensures Basis(right, up, look) == LookAtBasis(num, pos, target, worldUp)
      ensures viewDirty && ViewFresh()
    {
      var b := LookAtBasis(num, pos, target, worldUp);
      position := pos;
      right, up, look := b.right, b.up, b.look;
      viewDirty := true;
    }

    /** position += d * right. */
    method Strafe(d: real)
      modifies this`position, this`viewDirty
      ensures position == Add(Scale(d, right), old(position))
      ensures viewDirty && ViewFresh()
    {
      position := Add(Scale(d, right), position);
      viewDirty := true;
    }

    /** position += d * look. */
    method Walk(d: real)
      modifies this`position, this`viewDirty
      ensures position == Add(Scale(d, look), old(position))
      ensures viewDirty && ViewFresh()
    {
      position := Add(Scale(d, look), position);
      viewDirty := true;
    }

    /** Rotates up and look about the right axis. */
    method Pitch(angle: real)
      modifies this`up, this`look, this`viewDirty
      ensures up == TransformNormal(old(up), num.rotationAxis(right, angle))
      ensures look == TransformNormal(old(look), num.rotationAxis(right, angle))
      ensures viewDirty && ViewFresh()
    {
      var r := num.rotationAxis(right, angle);
      up := TransformNormal(up, r);
      look := TransformNormal(look, r);
      viewDirty := true;
    }

    /** Rotates the whole basis about the world y axis. */
    method RotateY(angle: real)
      modifies this`right, this`up, this`look, this`viewDirty
      ensures right == TransformNormal(old(right), num.rotationY(angle))
      ensures up == TransformNormal(old(up), num.rotationY(angle))
      ensures look == TransformNormal(old(look), num.rotationY(angle))
      ensures viewDirty && ViewFresh()
    {
      var r := num.rotationY(angle);
      right := TransformNormal(right, r);
      up := TransformNormal(up, r);
      look := TransformNormal(look, r);
      viewDirty := true;
    }

    /** Rebuilds the view matrix when, and only when, the flag is set, and clears it.
        On a clean camera nothing changes, so a second call right after a first is a no-op. */
    method UpdateViewMatrix()
      modifies this`right, this`up, this`look, this`view, this`viewDirty
      ensures !viewDirty
      ensures !old(viewDirty) ==> right == old(right) && up == old(up) && look == old(look) && view == old(view)
      ensures old(viewDirty) ==> Basis(right, up, look) == Reorthonormalize(num, old(right), old(look))
      ensures old(viewDirty) ==> view == FirstPersonView(Basis(right, up, look), position)
      ensures old(viewDirty) || old(ViewFresh()) ==> ViewFresh()
    {
      if viewDirty {
        var r, u, l, p := right, up, look, position;
        l := num.normalize(l);
        u := num.normalize(Cross(l, r));
        r := Cross(u, l);
        var x := -Dot(p, r);
        var y := -Dot(p, u);
        var z := -Dot(p, l);
        right, up, look := r, u, l;
        view := Mat4(Vec4(right.x, up.x, look.x, 0.0),
                     Vec4(right.y, up.y, look.y, 0.0),
                     Vec4(right.z, up.z, look.z, 0.0),
                     Vec4(x, y, z, 1.0));
        viewDirty := false;
      }
    }
  }

  /** The near and far window widths follow the aspect ratio: width / height == aspect. */
  lemma WindowWidthsFollowAspect(c: Camera)
    ensures c.GetNearWindowWidth() == c.aspect * c.GetNearWindowHeight()
    ensures c.GetFarWindowWidth() == c.aspect * c.GetFarWindowHeight()
    ensures c.GetNearWindowHeight() != 0.0 ==> c.GetNearWindowWidth() / c.GetNearWindowHeight() == c.aspect
    ensures c.GetFarWindowHeight() != 0.0 ==> c.GetFarWindowWidth() / c.GetFarWindowHeight() == c.aspect
  {
  }

  /** A per-frame client: move, update, then read the view. The read is allowed only
      because UpdateViewMatrix ran after the last mutator. */
  method WalkThenView(c: Camera, d: real) returns (v: Mat4)
    modifies c
    ensures v == FirstPersonView(Basis(c.right, c.up, c.look), c.position)
    ensures c.position == Add(Scale(d, old(c.look)), old(c.position))
  {
    c.Walk(d);
    c.UpdateViewMatrix();
    v := c.GetView();
  }

  /** ThirdPersonCamera: orbits `target` at distance `radius`, polar angle `phi` above the
      orbit plane and azimuth `theta`. Its position and basis are derived, and live in the
      shared camera state `cam`. */
  class ThirdPersonCamera {
    const cam: Camera
    var target: Vec3
    var radius: real
    var phi: real
    var theta: real

    /** The orbit camera's cached view is valid whenever the flag is clear: it is then the
        look-at view from the current position toward the target. */
    ghost predicate OrbitViewFresh()
      reads this, cam
    {
      !cam.viewDirty ==> cam.view == cam.num.lookAtLH(cam.position, target, WorldUp)
    }

    /** The header that declares the orbit's initial target, radius and angles is not part
        of this model, so they are parameters. */
    constructor (num: Numerics, target: Vec3, radius: real, phi: real, theta: real)
      ensures fresh(cam) && cam.num == num && cam.viewDirty && OrbitViewFresh()
      ensures cam.position == Vec3(0.0, 0.0, 0.0)
      ensures cam.right == Vec3(1.0, 0.0, 0.0) && cam.up == Vec3(0.0, 1.0, 0.0) && cam.look == Vec3(0.0, 0.0, 1.0)
      ensures cam.view == Identity4x4
      ensures cam.fovY == 0.25 * MathHelperPi && cam.aspect == 1.0 && cam.nearZ == 1.0 && cam.farZ == 1000.0
      ensures cam.nearWindowHeight == 2.0 * 1.0 * num.tan(0.5 * cam.fovY)
      ensures cam.farWindowHeight == 2.0 * 1000.0 * num.tan(0.5 * cam.fovY)
      ensures cam.proj == num.perspectiveFovLH(0.25 * MathHelperPi, 1.0, 1.0, 1000.0)
      ensures this.target == target && this.radius == radius && this.phi == phi && this.theta == theta
    {
      cam := new Camera(num);
      this.target := target;
      this.radius := radius;
      this.phi := phi;
      this.theta := theta;
    }

    function GetTarget3f(): Vec3
      reads this
    {
      target
    }

    function GetRadius(): real
      reads this
    {
      radius
    }

    /** Sets basis, position, target and radius = |target - pos|; phi and theta are left
        as they were. */
    method LookAt(pos: Vec3, target: Vec3, worldUp: Vec3)
      modifies this`target, this`radius, cam`position, cam`right, cam`up, cam`look, cam`viewDirty
      ensures Basis(cam.right, cam.up, cam.look) == LookAtBasis(cam.num, pos, target, worldUp)
      ensures cam.position == pos && this.target == target
      ensures radius == cam.num.length(Sub(target, pos))
      ensures cam.viewDirty && OrbitViewFresh()
    {
      var b := LookAtBasis(cam.num, pos, target, worldUp);
      cam.right, cam.up, cam.look := b.right, b.up, b.look;
      cam.position := pos;
      this.target := target;
      radius := cam.num.length(Sub(target, pos));
      cam.viewDirty := true;
    }

    /** phi += angle, clamped to [0.05, pi/2 - 0.01] so the orbit never reaches a pole. */
    method Pitch(angle: real)
      modifies this`phi, cam`viewDirty
      ensures phi == Clamp(old(phi) + angle, MinPhi, MaxPhi)
      ensures MinPhi <= phi <= MaxPhi
      ensures cam.viewDirty && OrbitViewFresh()
    {
      phi := phi + angle;
      phi := Clamp(phi, MinPhi, MaxPhi);
      cam.viewDirty := true;
    }

    /** theta = XMScalarModAngle(theta + angle). */
    method RotateY(angle: real)
      modifies this`theta, cam`viewDirty
      ensures theta == cam.num.modAngle(old(theta) + angle)
      ensures cam.viewDirty && OrbitViewFresh()
    {
      theta := cam.num.modAngle(theta + angle);
      cam.viewDirty := true;
    }

    /** Pans the target along look projected on the XZ plane; the camera itself moves only
        at the next update. */
    method Walk(d: real)
      modifies this`target, cam`viewDirty
      ensures target == Add(Scale(d, Vec3(cam.look.x, 0.0, cam.look.z)), old(target))
      ensures target.y == old(target.y)
      ensures cam.viewDirty && OrbitViewFresh()
    {
      var l := Vec3(cam.look.x, 0.0, cam.look.z);
      target := Add(Scale(d, l), target);
      cam.viewDirty := true;
    }

    /** Pans the target along right projected on the XZ plane. */
    method Strafe(d: real)
      modifies this`target, cam`viewDirty
      ensures target == Add(Scale(d, Vec3(cam.right.x, 0.0, cam.right.z)), old(target))
      ensures target.y == old(target.y)
      ensures cam.viewDirty && OrbitViewFresh()
    {
      var r := Vec3(cam.right.x, 0.0, cam.right.z);
      target := Add(Scale(d, r), target);
      cam.viewDirty := true;
    }

    method SetTarget3f(targetPos: Vec3)
      modifies this`target, cam`viewDirty
      ensures target == targetPos && cam.viewDirty && OrbitViewFresh()
    {
      target := targetPos;
      cam.viewDirty := true;
    }

    /** radius += d, clamped to [5, 25]. */
    method AddToRadius(d: real)
      modifies this`radius, cam`viewDirty
      ensures radius == Clamp(old(radius) + d, MinRadius, MaxRadius)
      ensures MinRadius <= radius <= MaxRadius
      ensures cam.viewDirty && OrbitViewFresh()
    {
      radius := radius + d;
      radius := Clamp(radius, MinRadius, MaxRadius);
      cam.viewDirty := true;
    }

    /** When dirty: angles to position, position to a look-at view matrix with world up +y,
        and the basis read back out of that matrix's columns. */
    method UpdateViewMatrix()
      modifies cam`position, cam`right, cam`up, cam`look, cam`view, cam`viewDirty
      ensures !cam.viewDirty
      ensures !old(cam.viewDirty) ==>
        cam.position == old(cam.position) && cam.view == old(cam.view) &&
        cam.right == old(cam.right) && cam.up == old(cam.up) && cam.look == old(cam.look)
      ensures old(cam.viewDirty) ==> cam.position == Add(target, OrbitOffset(cam.num, radius, phi, theta))
      ensures old(cam.viewDirty) ==> cam.view == cam.num.lookAtLH(cam.position, target, WorldUp)
      ensures old(cam.viewDirty) ==>
        cam.right == cam.num.normalize(Column3(cam.view, 0)) &&
        cam.look == cam.num.normalize(Column3(cam.view, 2)) &&
        cam.up == cam.num.normalize(Cross(cam.look, cam.right))
      ensures old(cam.viewDirty) || old(OrbitViewFresh()) ==> OrbitViewFresh()
    {
      if cam.viewDirty {
        var x := radius * cam.num.cos(phi) * cam.num.sin(theta);
        var z := radius * cam.num.cos(phi) * cam.num.cos(theta);
        var y := radius * cam.num.sin(phi);
        cam.position := Vec3(target.x + x, target.y + y, target.z + z);
        cam.view := cam.num.lookAtLH(cam.position, target, WorldUp);
        cam.right := cam.num.normalize(Vec3(cam.view.r0.x, cam.view.r1.x, cam.view.r2.x));
        cam.look := cam.num.normalize(Vec3(cam.view.r0.z, cam.view.r1.z, cam.view.r2.z));
        cam.up := cam.num.normalize(Cross(cam.look, cam.right));
        cam.viewDirty := false;
      }
    }
  }
}
