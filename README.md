# VEV intersection, camera and avatar core in Dafny

This project models the geometric core of the VEV viewer. It covers:

- the bounding-volume intersection predicates (`Math/intersect.cc`);
- the `Line` value type (`Math/line.cc`);
- the camera (`Camera/camera.cc`): its eye, target and up vector, the frame (R, U, D) derived from them, the projection bounds, and the six frustum planes it extracts and uses for culling;
- the avatar (`Camera/avatar.cc`): a bounding sphere that follows a camera, walks or flies, and steps back when the scene reports a collision.

Values are exact reals. `Vector3`, planes, boxes and spheres are datatypes (module `Geometry`). Each intersection predicate returns a three-way classification:

- `IIntersect` = 0;
- `IReject` = 1 (outside, or on the positive side of a plane);
- `-IReject` = -1 (on the negative side).

They are pure functions with lemmas stating what each classification means in terms of the points of the volumes (module `Intersect`). `Line` and `Camera` update their fields in place, so they are classes:

- `Camera` keeps its frustum planes in a six-entry `array<Plane>`;
- `CheckFrustum` is the source's loop with its early return.

The camera's class invariant `Valid()` says that:

- R, U and D are the frame computed from E, At and Up;
- the last `LookAt` target is not at the last eye.

`PlanesCurrent()` says that the planes are the ones extracted from the current projection × view matrix. The plane extraction is specified by `Frustum.FrustumPlanes`. The lemmas of module `Frustum` show what the extracted planes mean:

- the six plane values are negative exactly inside the clip volume;
- a box classified outside has no point in the clip volume;
- a box classified inside has all its points in it.

Routines whose code is not part of this model are given functions in a `MathLibrary` value that each camera holds:

- vector normalisation;
- `tanf`;
- the `Trfm3D` matrices;
- axis rotations;
- the default `Plane`.

The only property assumed of them is `MathLibrary.Sound()`: normalising a non-zero vector scales it by a positive factor to unit length. `Plane::distance` is a parameter of the sphere/plane predicate. Scene collision is a parameter of `Avatar.Advance`.

Where the code departs from the algorithm it evidently implements, the model follows the code:

- The ray/triangle test follows Möller–Trumbore, which also rejects `u + v > 1`. The code does not (see Findings).
- `lookAt` warns that "up is nearly parallel to VA" and shifts up to move it away from the view direction. The shift can leave up at zero instead, and with it a degenerate frame (see Findings).
- The sphere/box test starts with a containment branch: when, on every axis, the box's minimum is at or above the centre and its maximum at or below it, the test answers IIntersect. For a well-formed box these inequalities can only hold together when the box is the single point at the centre (`ContainmentBranchDegenerate`). The model keeps the branch as written. `BSphereBBoxClosestPoint` proves that the result is still exactly "the closest point of the box lies in the ball".

Source lines that do not compile are modelled by their evident meaning:

- `m_c` and `box->m_radius` in the sphere/box test;
- `this.` and `A->m_v` in `setFromAtoB`.

## Model

| member | source | states |
|---|---|---|
| Intersect.BBoxBBoxIntersect | Math/intersect.cc:20-28 | The box/box test as written (with the `m_max.y()` typo) only ever answers IIntersect or IReject |
| Intersect.BBoxBBoxTypoCounterexample | Math/intersect.cc:20-28 | The as-written test reports two disjoint boxes as intersecting, and answers differently for (A, B) and (B, A) |
| Intersect.BBoxBBoxIntersectIntended | Math/intersect.cc:20-28 | The corrected box/box test only ever answers IIntersect or IReject |
| Intersect.BBoxBBoxIntendedSymmetric | Math/intersect.cc:20-28 | The corrected test is symmetric in its two boxes |
| Intersect.BBoxBBoxIntendedOverlap | Math/intersect.cc:20-28 | For well-formed boxes the corrected test answers IIntersect iff the boxes share a point |
| Intersect.BBoxPlaneIntersect | Math/intersect.cc:36-75 | The box/plane classification is one of 0, 1, -1 |
| Intersect.ExtremeCorners | Math/intersect.cc:40-64 | The corners `uno` and `dos` chosen per axis by the sign of n are corners of the box and minimise and maximise n·P over every point of it |
| Intersect.BBoxPlanePositive | Math/intersect.cc:66-74 | +IReject iff every corner is strictly on the positive side; then every point of the box is |
| Intersect.BBoxPlaneNegative | Math/intersect.cc:66-74 | -IReject iff every corner is strictly on the negative side; then every point of the box is |
| Intersect.BBoxPlaneStraddles | Math/intersect.cc:66-68 | IIntersect iff some point of the box lies on the plane |
| Intersect.BSphereBSphereIntersect | Math/intersect.cc:83-91 | The sphere/sphere test only ever answers IIntersect or IReject |
| Intersect.BSphereBSphereSymmetric | Math/intersect.cc:83-91 | The sphere/sphere test is symmetric |
| Intersect.BSphereBSphereTouching | Math/intersect.cc:86 | Spheres whose centre distance equals the sum of the radii intersect (the test is inclusive) |
| Intersect.BSphereBSphereOverlap | Math/intersect.cc:83-91 | For non-negative radii IIntersect iff the two balls share a point |
| Intersect.BSpherePlaneIntersect | Math/intersect.cc:99-111 | IIntersect iff distance(centre) <= radius. +IReject iff the distance exceeds the radius and the centre is on the positive side. -IReject iff the distance exceeds the radius and the centre is not on the positive side |
| Intersect.BSpherePlaneExact | Math/intersect.cc:99-111 | With a metric distance, a non-negative radius and a non-zero normal, IIntersect iff (n·c - d)² <= r² abs(n)², a test without a square root |
| Intersect.BSpherePlaneRejectSide | Math/intersect.cc:101-107 | With a metric distance, +IReject puts every point of the ball strictly on the positive side and -IReject every point strictly on the negative side |
| Intersect.BSpherePlaneUnitNormal | Math/intersect.cc:99-111 | With a unit normal, IIntersect iff the absolute plane value at the centre is at most the radius |
| Intersect.BSphereBBoxIntersect | Math/intersect.cc:118-147 | The sphere/box test only ever answers IIntersect or IReject |
| Intersect.ContainmentBranchDegenerate | Math/intersect.cc:120-123 | On a well-formed box the inverted containment test holds only when the box is the single point at the centre |
| Intersect.GapsAreClosestDistance | Math/intersect.cc:125-141 | The accumulated per-axis squared gaps equal the squared distance from the centre to the box's closest point |
| Intersect.BSphereBBoxClosestPoint | Math/intersect.cc:118-147 | The clamped point is in the box, and IIntersect holds iff it lies in the ball |
| Intersect.BSphereBBoxOverlap | Math/intersect.cc:118-147 | On a well-formed box IIntersect iff the box and the ball share a point |
| Intersect.IntersectTriangleRay | Math/intersect.cc:150-172 | A ray with abs(e1·(d × e2)) < DistanceEpsilon is rejected. Reject leaves uvw untouched. A hit returns u and v in [0, 1] (no u + v <= 1) |
| Intersect.MollerTrumbore | Math/intersect.cc:155-171 | The same test on the edges e1, e2, direction d and s = O - P0. A near-parallel ray (abs(e1·(d × e2)) < DistanceEpsilon) is rejected with uvw untouched |
| Intersect.EdgeCoordinates | Math/intersect.cc:157-170 | (u, v, t) = (f s·p, f q·d, f e2·q) solves s = u e1 + v e2 - t d |
| Intersect.SolvesUnique | Math/intersect.cc:158-160 | With a non-zero determinant that solution is unique |
| Intersect.MollerTrumboreVerdict | Math/intersect.cc:159-171 | Past the determinant check the verdict is IIntersect iff u, v are in [0, 1], and the hit returns (u, v, t) |
| Intersect.IntersectTriangleRayExact | Math/intersect.cc:150-172 | The as-written test reports a hit iff the ray is not near-parallel and the line meets a point P0 + u e1 + v e2 with u, v in [0, 1] (the parallelogram) |
| Intersect.IntersectTriangleRayHitPoint | Math/intersect.cc:150-172 | A hit (u, v, t) is a real meeting point: O + t d = P0 + u e1 + v e2 |
| Intersect.TestsOnEdges | Math/intersect.cc:155-162 | The test depends on the vertices and the origin only through e1, e2 and O - P0 |
| Intersect.UnitEdgeCoordinates | Math/intersect.cc:157-170 | For edges X, Y and direction -Z, the edge coordinates of s are s |
| Intersect.UnitTriangleAsWritten | Math/intersect.cc:159-171 | On those edges the as-written test accepts exactly the unit square |
| Intersect.IntersectTriangleRayCounterexample | Math/intersect.cc:159-171 | A line through (0.75, 0.75) misses the triangle, yet the as-written test reports a hit with u + v > 1; the corrected test rejects it |
| Intersect.IntersectTriangleRayChecked | Math/intersect.cc:150-172 | The corrected test: a near-parallel ray is rejected; reject leaves uvw untouched; a hit has u, v >= 0 and u + v <= 1 |
| Intersect.MollerTrumboreChecked | Math/intersect.cc:155-171 | The corrected test on edges; a near-parallel ray is rejected with uvw untouched |
| Intersect.MollerTrumboreCheckedVerdict | Math/intersect.cc:159-171 | Past the determinant check the corrected verdict is IIntersect iff u, v >= 0 and u + v <= 1 |
| Intersect.UnitTriangleChecked | Math/intersect.cc:159-171 | On edges X, Y and direction -Z the corrected test accepts exactly the triangle |
| Intersect.IntersectTriangleRayCheckedExact | Math/intersect.cc:150-172 | The corrected test reports a hit iff the ray is not near-parallel and the line meets the closed triangle; the hit is that meeting point |
| Intersect.IntersectTriangleRayCentroid | Math/intersect.cc:150-172 | A ray along -Z at the centroid is a hit with u = v = 1/3 and t = 1 |
| Intersect.IntersectString | Math/intersect.cc:177-198 | A classification gets a non-empty name other than "IERROR"; every other code is named "IERROR" |
| Intersect.IntersectStringDistinguishes | Math/intersect.cc:177-198 | The three classifications have distinct names, and exactly the other codes are named "IERROR" |
| Lines.Line.constructor | Math/line.cc:8 | The default line has O = 0 and d = +Y |
| Lines.Line.FromOriginDirection | Math/line.cc:9 | O and d are stored verbatim |
| Lines.Line.Copy | Math/line.cc:10 | The copy has the same O and d |
| Lines.Line.Assign | Math/line.cc:12-18 | After assignment the line equals the old source line, self-assignment changes nothing, and the result is this line |
| Lines.Line.SetFromAtoB | Math/line.cc:20-32 | O = A and d = B - A, so O + d = B |
| Lines.Line.At | Math/line.cc:34-39 | The stub agrees with the documented point O + u d exactly when that point is the origin |
| Lines.Line.ParamDistance | Math/line.cc:41-49 | For a non-zero direction, the stub agrees with the documented u0 = d·(P - O) / (d·d) exactly when d·(P - O) = 0 |
| Lines.Line.Distance | Math/line.cc:51-60 | For a non-zero direction, the square of the stub's answer agrees with the documented squared distance abs(P - (O + u0 d))² exactly when that distance is zero |
| Lines.StubsIgnoreTheirInput | Math/line.cc:34-60 | `at`, `paramDistance` and `distance` answer the zero vector and 0 whatever the line and the argument |
| Lines.NearestParameterMinimises | Math/line.cc:41-43 | The documented u0 = D·(P - O) / (D·D) gives the point of the line nearest to P |
| Lines.DistanceAlongLine | Math/line.cc:51-54 | The squared distance from P to O + tD, expanded as a quadratic in t |
| Lines.StubsDifferFromIntent | Math/line.cc:34-60 | On a concrete line and point the stubs disagree with the documented nearest parameter and point |
| Frustum.ClipPlane | Camera/camera.cc:376-423 | An extracted plane is never marked normalised |
| Frustum.FrustumPlanes | Camera/camera.cc:361-425 | Six planes are extracted: left, right, bottom, top, near, far |
| Frustum.ClipPlaneValue | Camera/camera.cc:379-382 | The plane value at P is -(w ± c) from P's clip coordinates, so the positive side is outside |
| Frustum.ClipSides | Camera/camera.cc:361-425 | The six plane values at P are -(w + x), -(w - x), -(w + y), -(w - y), -(w + z), -(w - z) |
| Frustum.FrustumPlanesInside | Camera/camera.cc:361-425 | P is strictly on the negative side of all six planes iff it is strictly inside the clip volume |
| Frustum.FrustumVerdict | Camera/camera.cc:335-356 | The culling verdict over a list of planes is one of 0, 1, -1 |
| Frustum.BoxCulledOutside | Camera/camera.cc:348-350 | A box classified 1 has no point strictly inside the clip volume |
| Frustum.BoxCulledInside | Camera/camera.cc:339-355 | A box classified -1 has every point strictly inside the clip volume |
| Frustum.BoxInsideExact | Camera/camera.cc:339-355 | The verdict is -1 iff every corner of the box is strictly inside the clip volume |
| Cameras.NormalizeUnit | Camera/camera.cc:154-155 | Normalising a unit vector leaves it unchanged |
| Cameras.Camera.PerspectiveCamera | Camera/camera.cc:8-48 | The initial pose (eye 0, target (0,0,-1), up +Y, frame X, Y, Z), last-lookAt values, fovy 60°, near 0.1, far 1500, aspect 1, the literal bounds and a frustum projection; the six planes are default planes |
| Cameras.Camera.OrthographicCamera | Camera/camera.cc:61-72 | The same initial pose and bounds with an orthographic projection |
| Cameras.InitialValid | Camera/camera.cc:8-22 | The constructors' literal frame X, Y, Z is the one computed from their literal pose, so a new camera satisfies the class invariant |
| Cameras.Camera.UpdateFrustumPlanes | Camera/camera.cc:361-425 | The plane array becomes exactly the six planes extracted from the projection × view matrix, none marked normalised |
| Cameras.Camera.CheckFrustum | Camera/camera.cc:335-356 | The loop with its early return computes `FrustumVerdict` of the six stored planes and changes nothing |
| Cameras.Camera.SetViewTrfm | Camera/camera.cc:142-145 | The view transformation is rebuilt from E, R, U, D and the planes become current |
| Cameras.Camera.UpdateFrame | Camera/camera.cc:153-171 | R = normalise(Up) × F, U = F × R, D = F with F = normalise(E - At); the invariant and current planes hold |
| Cameras.FrameOrthogonal | Camera/camera.cc:153-171 | R·D = U·D = U·R = 0 and R × U = abs(R)² D for the computed frame |
| Cameras.ValidFrameOrthogonal | Camera/camera.cc:153-171 | Every camera satisfying its invariant has an orthogonal, right-handed frame |
| Cameras.DirectionTowardsTarget | Camera/camera.cc:211 | For a valid camera with E ≠ At, `GetDirection` is the unit vector from the eye towards the target |
| Cameras.NudgedNotZero | Camera/camera.cc:181-185 | Moving a near-zero view vector by (1, 1, 1) makes it non-zero |
| Cameras.GuardedUp | Camera/camera.cc:188-193 | The colinearity guard as written: up is kept when it is not nearly parallel to the view direction, and its z never changes |
| Cameras.Camera.LookAt | Camera/camera.cc:173-198 | E = e; At = at, or at + (1,1,1) when at - e is near zero, so At - E is never near zero; Up is the guarded normalised up; last* record the result; the frame is recomputed |
| Cameras.LookAtUpCancels | Camera/camera.cc:186-193 | Viewing along +X with up -X, the guard turns up into the zero vector, so the frame is degenerate (R = U = 0 with this model's normalisation of the zero vector) |
| Cameras.GuardedUpIntended | Camera/camera.cc:188-193 | The corrected guard keeps a non-parallel up unchanged |
| Cameras.GuardedUpIntendedNotParallel | Camera/camera.cc:188-193 | With the corrected guard, for a unit view direction and unit up, the result is never exactly parallel to the view direction |
| Cameras.Camera.GoLast | Camera/camera.cc:31-33 | Eye and target return to those of the last `LookAt`, through `LookAt` itself |
| Cameras.Flown | Camera/camera.cc:236-243 | Flying subtracts step·D: adding step·D back gives the old point |
| Cameras.Walked | Camera/camera.cc:257-264 | Walking subtracts step·(D.x, 0, D.z): the height is kept and adding it back gives the old point |
| Cameras.MoveRoundTrip | Camera/camera.cc:236-264 | Flying or walking by -step undoes flying or walking by step |
| Cameras.MovePreservesOffset | Camera/camera.cc:236-278 | Moving E and At by the same translation keeps At - E |
| Cameras.Camera.Fly | Camera/camera.cc:236-243 | E and At are flown by step; At - E, the frame and the invariant are kept; the planes are current |
| Cameras.Camera.Walk | Camera/camera.cc:257-264 | E and At are walked by step; their heights and At - E are kept |
| Cameras.Camera.PanX | Camera/camera.cc:266-271 | E and At move by step·R; At - E is kept |
| Cameras.Camera.PanY | Camera/camera.cc:273-278 | E and At move by step·U; At - E is kept |
| Cameras.Camera.Pitch | Camera/camera.cc:280-286 | At and Up are rotated about R through E; the frame is recomputed |
| Cameras.Camera.Yaw | Camera/camera.cc:288-294 | At and Up are rotated about U through E; the frame is recomputed |
| Cameras.Camera.Roll | Camera/camera.cc:296-302 | At and Up are rotated by -angle about D through E; the frame is recomputed |
| Cameras.Camera.ViewYWorld | Camera/camera.cc:306-312 | At and Up are rotated about world Y through E; the frame is recomputed |
| Cameras.Camera.ArcOverUnder | Camera/camera.cc:315-321 | E and Up are rotated about R through At; the frame is recomputed |
| Cameras.Camera.ArcLeftRight | Camera/camera.cc:323-329 | E and Up are rotated about world Y through At; the frame is recomputed |
| Cameras.Camera.UpdateProjection | Camera/camera.cc:111-135 | Perspective: top = near tan(fovy/2), bottom = -top, right = aspect top, left = -right. Orthographic: the bounds are kept. Either way the projection is rebuilt and the planes are current |
| Cameras.Camera.InitPerspective | Camera/camera.cc:52-59 | Stores fovy, aspect, near and far, then the symmetric frustum follows |
| Cameras.Camera.InitOrthographic | Camera/camera.cc:76-86 | Stores the six bounds, then an orthographic projection of them |
| Cameras.Camera.OnResize | Camera/camera.cc:91-98 | Perspective: aspect = w / h when h > 0, else 1. Then top = near tan(fovy/2), bottom = -top, right = aspect top, left = -right, and the projection and planes are rebuilt. Orthographic: nothing changes |
| Cameras.Camera.Zoom | Camera/camera.cc:102-106 | Perspective: fovy = angle. Then top = near tan(angle/2), bottom = -top, right = aspect top, left = -right, and the projection and planes are rebuilt. Orthographic: nothing changes |
| Cameras.Camera.GetZoom | Camera/camera.cc:108-109 | fovy for a perspective camera, 0 for an orthographic one |
| Cameras.Camera.SetFar | Camera/camera.cc:206 | far is set and near kept. A perspective camera gets the symmetric frustum from near, fovy and aspect; an orthographic camera keeps its bounds. The projection and planes are rebuilt |
| Cameras.Camera.GetFar | Camera/camera.cc:207 | Returns far |
| Cameras.Camera.SetNear | Camera/camera.cc:208 | near is set and far kept. A perspective camera gets the symmetric frustum from the new near; an orthographic camera keeps its bounds. The projection and planes are rebuilt |
| Cameras.Camera.GetNear | Camera/camera.cc:209 | Returns near |
| Cameras.Camera.GetPosition | Camera/camera.cc:210 | Returns E |
| Cameras.Camera.GetDirection | Camera/camera.cc:211 | Returns the opposite of D |
| Avatars.Stepped | Camera/avatar.cc:30-33 | One step in the current mode; walking keeps the height, and adding the step's translation back gives the old point |
| Avatars.SteppedRoundTrip | Camera/avatar.cc:37-42 | Stepping by -step in the same mode and direction undoes a step |
| Avatars.Avatar.constructor | Camera/avatar.cc:5-9 | Fly mode; the sphere is centred at the camera's position with the given radius |
| Avatars.Avatar.WalkOrFly | Camera/avatar.cc:15-19 | Returns the previous mode and sets the new one |
| Avatars.Avatar.Move | Camera/avatar.cc:30-33 | The camera walks when in walk mode and flies otherwise |
| Avatars.Avatar.Advance | Camera/avatar.cc:25-46 | The sphere moves to the tried position and keeps its radius. Without collision the answer is true and the camera stays moved. With collision the answer is false and E and At are back where they were |
| Avatars.Avatar.LeftRight | Camera/avatar.cc:49-54 | Walk mode rotates about world Y, fly mode about the camera's U |
| Avatars.Avatar.UpDown | Camera/avatar.cc:56-58 | Pitches the camera in either mode |

## Left out

- Floating point: every quantity is an exact real. The round trips (flying back, stepping back) are exact here and only approximate in single precision.
- Normalisation, `tanf`, the `Trfm3D` matrices (`setFrustum`, `setOrtho`, `setWorld2Local`, `add`, `getGLMatrix`), `setRotAxis` with `transformPoint`/`transformVector`, and `Constants::degree_to_rad` are given functions in `MathLibrary`. The only property assumed of them is `MathLibrary.Sound`. Nothing is proved about the rotations beyond which one each method applies.
- `Plane::distance` and `Plane::whichSide` are not part of this model. `distance` is a parameter of the sphere/plane predicate, assumed metric only where a lemma says so (`MetricAt`). `whichSide` is the sign of n·P - d.
- `Vector3::isZero` is not part of this model. It is taken as "every component within the distance tolerance". The tolerance values come from a header that is not part of this model. The values used are only required to be positive and small.
- Cameras.Camera.PerspectiveCamera: ensures the literal initial state and `Consistent()` rather than `Valid()`. That this state satisfies `Valid()` is the separate lemma `InitialValid`, so that the constructor's proof stays small.
- Cameras.Camera.OrthographicCamera: the same as for `PerspectiveCamera`.
- The constructors do not extract the frustum planes (neither does the source). The six planes start as default planes, modelled as `MathLibrary.defaultPlane`.
- Perspective and orthographic cameras are one class with a `kind` field. The virtual `updateProjection`, `onResize`, `zoom` and `getZoom` branch on it.
- `checkFrustum`'s `planesBitM` argument is never used by the source and is not modelled.
- Names (`getName`, `setName`, `m_name`), destructors and object ownership are not modelled. Neither are the `print` methods, the `fprintf` warnings in `lookAt`, or the GL matrix getters (`viewTrfmGL`, `projectionTrfmGL`, `viewTrfm`, `projectionTrfm`).
- The scene graph (`Scene::instance()->rootNode()->checkCollision`) is the `collides` parameter of `Avatar.Advance`.
- The ray/triangle test computes its edge coordinates (u, v, t) together, rather than u before computing q. Only the reported values and the verdict are modelled.

- Cameras.GuardedUpIntended: the corrected second check tests exact parallelism (a zero cross product), not the epsilon-based near parallelism of the first check. So `GuardedUpIntendedNotParallel` proves "never exactly parallel", which is weaker than "never nearly parallel".
- Cameras.LookAtUpCancels: the vector library's normalisation is not part of this model. The lemma's R = U = 0 follows from the model scaling the zero vector; in single precision the frame would be undefined rather than zero.
- Lines.Line.At: `Vector3`'s default constructor is not part of this model. The stub's `Vector3 res;` is taken to be the zero vector.
- Lines.Line.Distance: stated through the squared distance, as the model has no square root.

## Findings

| source | as written | input that shows it | evidently intended | confidence | as-written member | corrected member |
|---|---|---|---|---|---|---|
| Math/intersect.cc:21 | `bbb->m_min.x() > bba->m_max.y()` compares an x extent with a y extent | A = [0,1]×[0,5]×[0,1], B = [2,3]×[0,1]×[0,1]: disjoint, but (A, B) is reported intersecting and (B, A) rejected | `bba->m_max.x()`; the test is then symmetric and exact | not executed | Intersect.BBoxBBoxTypoCounterexample | Intersect.BBoxBBoxIntendedOverlap |
| Math/intersect.cc:159-171 | Rejects only u or v outside [0, 1] | Triangle (0,0,0), (1,0,0), (0,1,0); ray from (0.75, 0.75, 1) along -Z: hit reported with u = v = 0.75 | Also reject u + v > 1 (Möller–Trumbore); then a hit occurs exactly when the line meets the triangle | not executed | Intersect.IntersectTriangleRayCounterexample | Intersect.IntersectTriangleRayCheckedExact |
| Camera/camera.cc:188-193 | After `m_Up[0] += 1`, the second check is a dot product with the shifted up | lookAt with view direction +X and up (-1, 0, 0): up becomes (0, 0, 0) and the second check passes. The frame built from a zero up is degenerate: R = U = 0 here, and its exact values depend on how the vector library normalises a zero vector | The second check asks whether the shifted up is still parallel to the view direction; then the final up is never exactly parallel to it | not executed | Cameras.LookAtUpCancels | Cameras.GuardedUpIntendedNotParallel |
