/**
 What the translator promises shape kind by shape kind, and what the
 assembler promises about a whole snapshot: order, membership, role
 filtering and unambiguous (namespace, id) keys.
 */
module SceneMarkersProperties {
  import opened Transforms
  import opened VisualizationMsgs
  import G = Geometry
  import opened SceneMarkersSystem

  // ---------------------------------------------------------------------
  // The translator, one shape kind at a time

  /** A sphere is one SPHERE marker of scale (r, r, r) at the geometry's pose. */
  lemma SphereMarker(radius: real, sourceName: string, name: string,
                     frameId: string, pose: Pose, color: G.Rgba)
    ensures var ms := ShapeMarkers(G.Sphere(radius), sourceName, name, frameId, pose, color);
      && |ms| == 1 && ms[0].id == 0 && ms[0].ns == Namespace(sourceName, name)
      && ms[0].markerType == Sphere && ms[0].scale == Vector3(radius, radius, radius)
      && ms[0].pose == pose
  {
  }

  /** An ellipsoid is one SPHERE marker scaled by its three semi-axes. */
  lemma EllipsoidMarker(a: real, b: real, c: real, sourceName: string, name: string,
                        frameId: string, pose: Pose, color: G.Rgba)
    ensures var ms := ShapeMarkers(G.Ellipsoid(a, b, c), sourceName, name, frameId, pose, color);
      && |ms| == 1 && ms[0].id == 0 && ms[0].ns == Namespace(sourceName, name)
      && ms[0].markerType == Sphere && ms[0].scale == Vector3(a, b, c)
      && ms[0].pose == pose
  {
  }

  /** A cylinder is one CYLINDER marker of scale (r, r, length). */
  lemma CylinderMarker(radius: real, length: real, sourceName: string, name: string,
                       frameId: string, pose: Pose, color: G.Rgba)
    ensures var ms := ShapeMarkers(G.Cylinder(radius, length), sourceName, name, frameId, pose, color);
      && |ms| == 1 && ms[0].id == 0 && ms[0].ns == Namespace(sourceName, name)
      && ms[0].markerType == Cylinder && ms[0].scale == Vector3(radius, radius, length)
      && ms[0].pose == pose
  {
  }

  /** A box is one CUBE marker of scale (width, depth, height). */
  lemma BoxMarker(width: real, depth: real, height: real, sourceName: string, name: string,
                  frameId: string, pose: Pose, color: G.Rgba)
    ensures var ms := ShapeMarkers(G.Box(width, depth, height), sourceName, name, frameId, pose, color);
      && |ms| == 1 && ms[0].id == 0 && ms[0].ns == Namespace(sourceName, name)
      && ms[0].markerType == Cube && ms[0].scale == Vector3(width, depth, height)
      && ms[0].pose == pose
  {
  }

  /**
   A half-space is one CUBE marker that extends more than 10 length units
   in both in-plane axes and is thinner along the plane's normal than it
   is wide.
   */
  lemma HalfSpaceMarker(sourceName: string, name: string,
                        frameId: string, pose: Pose, color: G.Rgba)
    ensures var ms := ShapeMarkers(G.HalfSpace, sourceName, name, frameId, pose, color);
      && |ms| == 1 && ms[0].id == 0 && ms[0].ns == Namespace(sourceName, name)
      && ms[0].markerType == Cube
      && ms[0].scale.x > 10.0 && ms[0].scale.y > 10.0
      && 0.0 < ms[0].scale.z < ms[0].scale.x && ms[0].scale.z < ms[0].scale.y
  {
  }

  /**
   A capsule is three markers in one namespace: the CYLINDER body (id 0)
   at the capsule's pose, then SPHERE caps (ids 1 and 2) of the capsule's
   radius, offset by +length/2 and -length/2 along the capsule's own z axis.
   */
  lemma CapsuleMarkers(radius: real, length: real, sourceName: string, name: string,
                       frameId: string, pose: Pose, color: G.Rgba)
    ensures var ms := ShapeMarkers(G.Capsule(radius, length), sourceName, name, frameId, pose, color);
      && |ms| == 3
      && ms[0].id == 0 && ms[1].id == 1 && ms[2].id == 2
      && ms[0].ns == ms[1].ns == ms[2].ns == Namespace(sourceName, name)
      && ms[0].markerType == Cylinder && ms[0].scale == Vector3(radius, radius, length)
      && ms[1].markerType == Sphere && ms[1].scale == Vector3(radius, radius, radius)
      && ms[2].markerType == Sphere && ms[2].scale == Vector3(radius, radius, radius)
      && ms[0].pose == pose
      && ms[1].pose == Compose(pose, TranslateZ(length / 2.0))
      && ms[2].pose == Compose(pose, TranslateZ(-length / 2.0))
      && ms[0].color == ms[1].color == ms[2].color
  {
    OffsetZIsCompose(pose, length / 2.0);
    OffsetZIsCompose(pose, -length / 2.0);
  }

  /**
   For any pose of the capsule, its caps keep the capsule's orientation,
   sit half a length either way along its local z axis, and are mirror
   images of each other about the body's centre.
   */
  lemma {:induction false} CapsuleCapsAlongAxis(radius: real, length: real, sourceName: string,
                                                name: string, frameId: string, pose: Pose, color: G.Rgba)
    ensures var ms := ShapeMarkers(G.Capsule(radius, length), sourceName, name, frameId, pose, color);
      var axis := LocalZAxis(pose.orientation);
      && ms[1].pose.orientation == pose.orientation
      && ms[2].pose.orientation == pose.orientation
      && ms[1].pose.position == Add(pose.position, Scale(length / 2.0, axis))
      && ms[2].pose.position == Add(pose.position, Scale(-length / 2.0, axis))
      && Add(ms[1].pose.position, ms[2].pose.position) == Scale(2.0, ms[0].pose.position)
  {
    OppositeOffsetsMirror(pose, length / 2.0);
    assert -(length / 2.0) == -length / 2.0;
  }

  /**
   With a unit orientation, the two cap centres are exactly one capsule
   length apart, so the spheres close the cylinder's two ends.
   */
  lemma CapsuleCapsDistance(radius: real, length: real, sourceName: string, name: string,
                            frameId: string, pose: Pose, color: G.Rgba)
    requires IsUnit(pose.orientation)
    ensures var ms := ShapeMarkers(G.Capsule(radius, length), sourceName, name, frameId, pose, color);
      var gap := Sub(ms[1].pose.position, ms[2].pose.position);
      Dot(gap, gap) == length * length
  {
    OppositeOffsetsDistance(pose, length / 2.0);
    assert -(length / 2.0) == -length / 2.0;
    assert 4.0 * (length / 2.0) * (length / 2.0) == length * length;
  }

  /** A convex hull is one MESH_RESOURCE marker at "file://" + its path, scaled uniformly. */
  lemma ConvexMarker(filename: string, scale: real, sourceName: string, name: string,
                     frameId: string, pose: Pose, color: G.Rgba)
    ensures var ms := ShapeMarkers(G.Convex(filename, scale), sourceName, name, frameId, pose, color);
      && |ms| == 1 && ms[0].id == 0 && ms[0].ns == Namespace(sourceName, name)
      && ms[0].markerType == MeshResource && ms[0].meshResource == "file://" + filename
      && ms[0].scale == Vector3(scale, scale, scale) && ms[0].pose == pose
  {
  }

  /** A triangle mesh translates exactly like a convex hull of the same file and scale. */
  lemma MeshMarker(filename: string, scale: real, sourceName: string, name: string,
                   frameId: string, pose: Pose, color: G.Rgba)
    ensures var ms := ShapeMarkers(G.Mesh(filename, scale), sourceName, name, frameId, pose, color);
      && |ms| == 1 && ms[0].id == 0 && ms[0].ns == Namespace(sourceName, name)
      && ms[0].markerType == MeshResource && ms[0].meshResource == "file://" + filename
      && ms[0].scale == Vector3(scale, scale, scale) && ms[0].pose == pose
      && ms == ShapeMarkers(G.Convex(filename, scale), sourceName, name, frameId, pose, color)
  {
  }

  // ---------------------------------------------------------------------
  // Namespaces

  /**
   Distinct geometries get distinct namespaces as long as source names do not
   contain ':' (otherwise "a:" + "::" + "b" and "a" + "::" + ":b" collide).
   */
  lemma NamespaceInjective(s1: string, n1: string, s2: string, n2: string)
    requires ':' !in s1 && ':' !in s2
    requires Namespace(s1, n1) == Namespace(s2, n2)
    ensures s1 == s2 && n1 == n2
  {
  }

  /** The colliding pair that makes the colon-free condition above necessary. */
  lemma NamespaceCollision()
    ensures Namespace("a:", "b") == Namespace("a", ":b")
  {
  }

  // ---------------------------------------------------------------------
  // The assembler

  /** The markers of a concatenated snapshot are the concatenated markers. */
  lemma {:induction false} SceneMarkersAppend(params: Params, a: seq<G.Entry>, b: seq<G.Entry>)
    ensures SceneMarkers(params, a + b) == SceneMarkers(params, a) + SceneMarkers(params, b)
  {
    if a == [] {
      assert a + b == b;
    } else {
      assert (a + b)[0] == a[0];
      assert (a + b)[1..] == a[1..] + b;
      SceneMarkersAppend(params, a[1..], b);
    }
  }

  /** A one-entry snapshot gives exactly that entry's markers. */
  lemma SingleEntryScene(params: Params, e: G.Entry)
    ensures SceneMarkers(params, [e]) == EntryMarkers(params, e)
  {
    assert [e][1..] == [];
  }

  /** Marker counts add up over a concatenated snapshot. */
  lemma {:induction false} TotalCountAppend(role: G.Role, a: seq<G.Entry>, b: seq<G.Entry>)
    ensures TotalCount(role, a + b) == TotalCount(role, a) + TotalCount(role, b)
  {
    if a == [] {
      assert a + b == b;
    } else {
      assert (a + b)[0] == a[0];
      assert (a + b)[1..] == a[1..] + b;
      TotalCountAppend(role, a[1..], b);
    }
  }

  /**
   Entry j's markers appear as one block, unrenumbered, right after the
   markers of the entries before it.
   */
  lemma SceneMarkersBlock(params: Params, scene: seq<G.Entry>, j: nat, k: nat)
    requires j < |scene| && params.role in scene[j].roles && k < MarkerCount(scene[j].shape)
    ensures var r := SceneMarkers(params, scene);
      var e := scene[j];
      var off := TotalCount(params.role, scene[..j]);
      && off + k < |r|
      && r[off + k]
         == ShapeMarkers(e.shape, e.sourceName, e.name, e.frameName, e.pose, params.defaultColor)[k]
  {
    var e := scene[j];
    assert scene == scene[..j] + ([e] + scene[j + 1..]);
    SceneMarkersAppend(params, scene[..j], [e] + scene[j + 1..]);
    SceneMarkersAppend(params, [e], scene[j + 1..]);
    assert [e][1..] == [];
  }

  /** A marker is in the output exactly when some entry carrying the role contributed it. */
  lemma {:induction false} SceneMarkersMembership(params: Params, scene: seq<G.Entry>, m: Marker)
    ensures m in SceneMarkers(params, scene) <==>
            exists j :: 0 <= j < |scene| && params.role in scene[j].roles
                      && m in EntryMarkers(params, scene[j])
  {
    if scene != [] {
      SceneMarkersMembership(params, scene[1..], m);
      if m in SceneMarkers(params, scene[1..]) {
        var j :| 0 <= j < |scene[1..]| && params.role in scene[1..][j].roles
                 && m in EntryMarkers(params, scene[1..][j]);
        assert scene[j + 1] == scene[1..][j];
      }
      if exists j :: 0 <= j < |scene| && params.role in scene[j].roles
                   && m in EntryMarkers(params, scene[j]) {
        var j :| 0 <= j < |scene| && params.role in scene[j].roles
                 && m in EntryMarkers(params, scene[j]);
        if j > 0 {
          assert scene[1..][j - 1] == scene[j];
        }
      }
    }
  }

  /** The entries that carry a role, in snapshot order. */
  function WithRole(role: G.Role, scene: seq<G.Entry>): (s: seq<G.Entry>)
    ensures |s| <= |scene|
    ensures forall i :: 0 <= i < |s| ==> role in s[i].roles && s[i] in scene
    ensures forall e :: e in scene && role in e.roles ==> e in s
  {
    if scene == [] then []
    else if role in scene[0].roles then [scene[0]] + WithRole(role, scene[1..])
    else WithRole(role, scene[1..])
  }

  /** Filtering a concatenated snapshot filters each part, keeping their order. */
  lemma {:induction false} WithRoleAppend(role: G.Role, a: seq<G.Entry>, b: seq<G.Entry>)
    ensures WithRole(role, a + b) == WithRole(role, a) + WithRole(role, b)
  {
    if a == [] {
      assert a + b == b;
    } else {
      assert (a + b)[0] == a[0];
      assert (a + b)[1..] == a[1..] + b;
      WithRoleAppend(role, a[1..], b);
    }
  }

  /**
   A single entry is kept exactly when it carries the role; with
   `WithRoleAppend` this fixes `WithRole` on every snapshot, order and
   repetitions included.
   */
  lemma WithRoleSingleton(role: G.Role, e: G.Entry)
    ensures WithRole(role, [e]) == if role in e.roles then [e] else []
  {
    assert [e][1..] == [];
  }

  /** Only the entries carrying the system's role matter to it. */
  lemma {:induction false} SceneMarkersIgnoresOtherRoles(params: Params, scene: seq<G.Entry>)
    ensures SceneMarkers(params, scene) == SceneMarkers(params, WithRole(params.role, scene))
  {
    if scene != [] {
      SceneMarkersIgnoresOtherRoles(params, scene[1..]);
      var rest := WithRole(params.role, scene[1..]);
      if params.role in scene[0].roles {
        assert ([scene[0]] + rest)[0] == scene[0];
        assert ([scene[0]] + rest)[1..] == rest;
      }
    }
  }

  /**
   The two systems a visualizer builds, one for illustration and one for
   proximity, keep to their own geometries: a snapshot without a geometry
   of a role gives that role's system an empty array.
   */
  lemma {:induction false} NoEntryOfRoleNoMarkers(params: Params, scene: seq<G.Entry>)
    requires forall i :: 0 <= i < |scene| ==> params.role !in scene[i].roles
    ensures SceneMarkers(params, scene) == []
  {
    if scene != [] {
      NoEntryOfRoleNoMarkers(params, scene[1..]);
    }
  }

  /** Each marker of the array names the frame of the entry it came from. */
  lemma SceneMarkersFrames(params: Params, scene: seq<G.Entry>, m: Marker)
    requires m in SceneMarkers(params, scene)
    ensures exists j :: 0 <= j < |scene| && params.role in scene[j].roles
                      && HasCommonFields(m, scene[j].frameName, params.defaultColor)
  {
    SceneMarkersMembership(params, scene, m);
  }

  /**
   Anchored geometry reports the world frame: when every entry of the
   snapshot is expressed in it, so is every marker of the array.
   */
  lemma AnchoredSceneInWorldFrame(params: Params, scene: seq<G.Entry>)
    requires forall i :: 0 <= i < |scene| ==> scene[i].frameName == WorldFrame
    ensures forall m :: m in SceneMarkers(params, scene) ==> HasCommonFields(m, WorldFrame, params.defaultColor)
  {
    forall m | m in SceneMarkers(params, scene)
      ensures HasCommonFields(m, WorldFrame, params.defaultColor)
    {
      SceneMarkersFrames(params, scene, m);
    }
  }

  /** No two markers of a sequence share both namespace and id. */
  predicate UniqueKeys(ms: seq<Marker>) {
    forall i, j :: 0 <= i < j < |ms| ==> ms[i].ns != ms[j].ns || ms[i].id != ms[j].id
  }

  /** No two entries carrying the role share a namespace. */
  predicate DistinctNamespaces(role: G.Role, scene: seq<G.Entry>) {
    forall i, j :: 0 <= i < j < |scene| && role in scene[i].roles && role in scene[j].roles ==>
      Namespace(scene[i].sourceName, scene[i].name) != Namespace(scene[j].sourceName, scene[j].name)
  }

  lemma UniqueKeysConcat(a: seq<Marker>, b: seq<Marker>)
    requires UniqueKeys(a) && UniqueKeys(b)
    requires forall x, y :: x in a && y in b ==> x.ns != y.ns
    ensures UniqueKeys(a + b)
  {
    var ab := a + b;
    forall i, j | 0 <= i < j < |ab| ensures ab[i].ns != ab[j].ns || ab[i].id != ab[j].id {
      if j < |a| {
        assert ab[i] == a[i] && ab[j] == a[j];
      } else if i >= |a| {
        assert ab[i] == b[i - |a|] && ab[j] == b[j - |a|];
      } else {
        assert ab[i] == a[i] && ab[j] == b[j - |a|];
      }
    }
  }

  /**
   When the geometries of a role have distinct namespaces, every marker of
   the array is identified by its (namespace, id) pair, so a viewer can
   update each one in place.
   */
  lemma {:induction false} SceneMarkersUniqueKeys(params: Params, scene: seq<G.Entry>)
    requires DistinctNamespaces(params.role, scene)
    ensures UniqueKeys(SceneMarkers(params, scene))
  {
    if scene != [] {
      var e := scene[0];
      var head := EntryMarkers(params, e);
      var tail := SceneMarkers(params, scene[1..]);
      assert DistinctNamespaces(params.role, scene[1..]) by {
        forall i, j | 0 <= i < j < |scene[1..]|
          ensures params.role in scene[1..][i].roles && params.role in scene[1..][j].roles ==>
            Namespace(scene[1..][i].sourceName, scene[1..][i].name)
              != Namespace(scene[1..][j].sourceName, scene[1..][j].name)
        {
          assert scene[1..][i] == scene[i + 1] && scene[1..][j] == scene[j + 1];
        }
      }
      SceneMarkersUniqueKeys(params, scene[1..]);
      forall x, y | x in head && y in tail ensures x.ns != y.ns {
        SceneMarkersMembership(params, scene[1..], y);
        var j :| 0 <= j < |scene[1..]| && params.role in scene[1..][j].roles
                 && y in EntryMarkers(params, scene[1..][j]);
        assert scene[1..][j] == scene[j + 1];
      }
      UniqueKeysConcat(head, tail);
    }
  }

  /**
   Geometry names are unique within a source and source names carry no ':'
   — for the entries of the role.
   */
  predicate DistinctNames(role: G.Role, scene: seq<G.Entry>) {
    && (forall i :: 0 <= i < |scene| && role in scene[i].roles ==> ':' !in scene[i].sourceName)
    && (forall i, j :: 0 <= i < j < |scene| && role in scene[i].roles && role in scene[j].roles ==>
          scene[i].sourceName != scene[j].sourceName || scene[i].name != scene[j].name)
  }

  /** Distinct (source, name) pairs with colon-free source names give distinct namespaces. */
  lemma DistinctNamesGiveDistinctNamespaces(role: G.Role, scene: seq<G.Entry>)
    requires DistinctNames(role, scene)
    ensures DistinctNamespaces(role, scene)
  {
    forall i, j | 0 <= i < j < |scene| && role in scene[i].roles && role in scene[j].roles
      ensures Namespace(scene[i].sourceName, scene[i].name) != Namespace(scene[j].sourceName, scene[j].name)
    {
      if Namespace(scene[i].sourceName, scene[i].name) == Namespace(scene[j].sourceName, scene[j].name) {
        NamespaceInjective(scene[i].sourceName, scene[i].name, scene[j].sourceName, scene[j].name);
        assert false;
      }
    }
  }

  /**
   With names unique per source and colon-free source names, every marker
   of the array is identified by its (namespace, id) pair.
   */
  lemma SceneMarkersUniqueKeysFromNames(params: Params, scene: seq<G.Entry>)
    requires DistinctNames(params.role, scene)
    ensures UniqueKeys(SceneMarkers(params, scene))
  {
    DistinctNamesGiveDistinctNamespaces(params.role, scene);
    SceneMarkersUniqueKeys(params, scene);
  }
}
