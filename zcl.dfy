/**
 * The cluster component dependency resolver of the IDE integration:
 * `getComponentIdsByCluster` looks up, for each side of a cluster, the
 * components the session's generation templates associate with it.
 */
module Zcl {
  import opened Wrappers
  import opened Text

  type SessionId = nat
  type PackageId = nat
  type ClusterId = nat

  /** A cluster row as `selectClusterById` answers it; `name` is its label. */
  datatype Cluster = Cluster(id: ClusterId, name: string)

  /** A query's answer: its rows, or a rejected promise. */
  datatype Reply<+T> = Rows(value: T) | QueryFailed

  /**
   * The cluster extensions of a package, as `cluster_extension_obj` reads them:
   * the value of a property (`"component"`) under a cluster key.
   */
  type Extension = map<(string, string), string>

  /** The database queries the resolver issues, answered by the caller. */
  datatype ZclDb = ZclDb(
    genTemplatePackages: SessionId -> Reply<seq<PackageId>>,
    clusterExtension: Option<PackageId> -> Reply<Extension>,
    clusterById: (ClusterId, Option<PackageId>) -> Reply<Option<Cluster>>)

  /** The resolved promise: component ids, the cluster's id and lowered label, and the sides asked for. */
  datatype ComponentIds = ComponentIds(id: seq<string>, clusterId: ClusterId, clusterLabel: string, side: seq<string>)

  const ComponentProperty: string := "component"

  /** The extension key of one side of a cluster: the lowered label, a dash, the role. */
  function ClusterKey(clusterLabel: string, zclRole: string): string
  {
    ToLower(clusterLabel) + "-" + zclRole
  }

  /** `ids.split(',').map((x) => x.trim())` */
  function Pieces(ids: string): (pieces: seq<string>)
    ensures |pieces| == Occurrences(ids, ',') + 1
  {
    TrimAll(Split(ids, ','))
  }

  /** `.map((x) => x.trim())` */
  function TrimAll(parts: seq<string>): (r: seq<string>)
    ensures |r| == |parts|
    ensures forall k :: 0 <= k < |parts| ==> r[k] == Trim(parts[k])
  {
    if parts == [] then [] else [Trim(parts[0])] + TrimAll(parts[1..])
  }

  /** The extension value for one side; an absent or empty value (falsy) is no hit. */
  function Hit(extensions: Extension, clusterLabel: string, zclRole: string): Option<string>
  {
    var key := (ComponentProperty, ClusterKey(clusterLabel, zclRole));
    if key in extensions && extensions[key] != "" then Some(extensions[key]) else None
  }

  /** What one side contributes to the component ids. */
  function SideIds(extensions: Extension, clusterLabel: string, zclRole: string): seq<string>
  {
    match Hit(extensions, clusterLabel, zclRole)
    case None => []
    case Some(ids) => Pieces(ids)
  }

  /** The component ids of the sides, in side order, duplicates kept. */
  function IdsForSides(extensions: Extension, clusterLabel: string, side: seq<string>): seq<string>
    decreases |side|
  {
    if side == [] then []
    else IdsForSides(extensions, clusterLabel, side[..|side| - 1]) + SideIds(extensions, clusterLabel, side[|side| - 1])
  }

  /** How many ids a side contributes: one more than the commas of its hit, or none. */
  function PieceCount(extensions: Extension, clusterLabel: string, zclRole: string): nat
  {
    match Hit(extensions, clusterLabel, zclRole)
    case None => 0
    case Some(ids) => Occurrences(ids, ',') + 1
  }

  function TotalPieceCount(extensions: Extension, clusterLabel: string, side: seq<string>): nat
    decreases |side|
  {
    if side == [] then 0
    else TotalPieceCount(extensions, clusterLabel, side[..|side| - 1]) + PieceCount(extensions, clusterLabel, side[|side| - 1])
  }

  /** The package the resolver reads: the session's first generation-template package, if any. */
  function FirstPackage(pkgs: seq<PackageId>): Option<PackageId>
  {
    if |pkgs| == 0 then None else Some(pkgs[0])
  }

  /**
   * The whole lookup: package, extensions, cluster, then the ids; a rejected
   * query or a missing cluster resolves to no result.
   */
  function ComponentIdsFor(db: ZclDb, sessionId: SessionId, clusterId: ClusterId, side: seq<string>): Option<ComponentIds>
  {
    match db.genTemplatePackages(sessionId)
    case QueryFailed => None
    case Rows(pkgs) =>
      var packageId := FirstPackage(pkgs);
      match db.clusterExtension(packageId)
      case QueryFailed => None
      case Rows(extensions) =>
        match db.clusterById(clusterId, packageId)
        case QueryFailed => None
        case Rows(None) => None
        case Rows(Some(cluster)) =>
          Some(ComponentIds(IdsForSides(extensions, cluster.name, side), cluster.id, ToLower(cluster.name), side))
  }

  /** `getComponentIdsByCluster(db, sessionId, clusterId, side)` */
  method GetComponentIdsByCluster(db: ZclDb, sessionId: SessionId, clusterId: ClusterId, side: seq<string>)
    returns (r: Option<ComponentIds>)
    ensures r == ComponentIdsFor(db, sessionId, clusterId, side)
  {
    var packageId: Option<PackageId> := None;
    var extensions: Extension := map[];
    var pkgs := db.genTemplatePackages(sessionId);
    if pkgs.QueryFailed? {
      return None;
    }
    packageId := if |pkgs.value| == 0 then None else Some(pkgs.value[0]);
    var ext := db.clusterExtension(packageId);
    if ext.QueryFailed? {
      return None;
    }
    extensions := ext.value;
    var cluster := db.clusterById(clusterId, packageId);
    if cluster.QueryFailed? || cluster.value.None? {
      return None;
    }
    var clusterLabel := cluster.value.value.name;
    var componentIds: seq<string> := [];
    for i := 0 to |side|
      invariant componentIds == IdsForSides(extensions, clusterLabel, side[..i])
    {
      assert side[..i + 1][..i] == side[..i];
      var clusterKey := ToLower(clusterLabel) + "-" + side[i];
      var key := (ComponentProperty, clusterKey);
      if key in extensions && extensions[key] != "" {
        var ids := TrimAll(Split(extensions[key], ','));
        componentIds := componentIds + ids;
      }
    }
    assert side[..|side|] == side;
    r := Some(ComponentIds(componentIds, cluster.value.value.id, ToLower(clusterLabel), side));
  }

  /** Asking for sides `a` then sides `b` yields a's ids followed by b's. */
  lemma {:induction false} IdsForSidesAppend(extensions: Extension, clusterLabel: string, a: seq<string>, b: seq<string>)
    ensures IdsForSides(extensions, clusterLabel, a + b) == IdsForSides(extensions, clusterLabel, a) + IdsForSides(extensions, clusterLabel, b)
    decreases |b|
  {
    if b == [] {
      assert a + b == a;
    } else {
      var init, last := b[..|b| - 1], b[|b| - 1];
      assert (a + b)[..|a + b| - 1] == a + init && (a + b)[|a + b| - 1] == last;
      IdsForSidesAppend(extensions, clusterLabel, a, init);
      var ids := SideIds(extensions, clusterLabel, last);
      assert IdsForSides(extensions, clusterLabel, a + b) == IdsForSides(extensions, clusterLabel, a + init) + ids;
      assert IdsForSides(extensions, clusterLabel, b) == IdsForSides(extensions, clusterLabel, init) + ids;
      ConcatAssoc(IdsForSides(extensions, clusterLabel, a), IdsForSides(extensions, clusterLabel, init), ids);
    }
  }

  lemma ConcatAssoc(x: seq<string>, y: seq<string>, z: seq<string>)
    ensures x + y + z == x + (y + z)
  {
  }

  /** A side given twice contributes its ids twice: duplicates are kept. */
  lemma RepeatedSideRepeatsIds(extensions: Extension, clusterLabel: string, zclRole: string)
    ensures IdsForSides(extensions, clusterLabel, [zclRole, zclRole]) ==
      SideIds(extensions, clusterLabel, zclRole) + SideIds(extensions, clusterLabel, zclRole)
  {
    var one := [zclRole];
    assert one[..0] == [] && one[0] == zclRole;
    assert IdsForSides(extensions, clusterLabel, one) == SideIds(extensions, clusterLabel, zclRole);
    assert [zclRole, zclRole] == one + one;
    IdsForSidesAppend(extensions, clusterLabel, one, one);
  }

  /** The number of ids is the sum over the hits of their piece counts. */
  lemma {:induction false} IdsForSidesLength(extensions: Extension, clusterLabel: string, side: seq<string>)
    ensures |IdsForSides(extensions, clusterLabel, side)| == TotalPieceCount(extensions, clusterLabel, side)
    decreases |side|
  {
    if side != [] {
      IdsForSidesLength(extensions, clusterLabel, side[..|side| - 1]);
    }
  }

  /** Component ids as the resolver produces them: comma-free and trimmed. */
  predicate TrimmedPieces(ids: seq<string>)
  {
    forall k :: 0 <= k < |ids| ==>
      ',' !in ids[k] && (ids[k] != [] ==> !IsSpace(ids[k][0]) && !IsSpace(ids[k][|ids[k]| - 1]))
  }

  /** Each piece of a hit is comma-free and trimmed. */
  lemma PiecesTrimmed(ids: string)
    ensures TrimmedPieces(Pieces(ids))
  {
    var parts := Split(ids, ',');
    var pieces := Pieces(ids);
    forall k | 0 <= k < |pieces|
      ensures ',' !in pieces[k]
      ensures pieces[k] != [] ==> !IsSpace(pieces[k][0]) && !IsSpace(pieces[k][|pieces[k]| - 1])
    {
      var t := Trim(parts[k]);
      assert t != [] ==> !IsSpace(t[0]) && !IsSpace(t[|t| - 1]);
      assert ',' !in parts[k];
      assert pieces[k] == t;
    }
  }

  /** Every id is a trimmed piece between commas. */
  lemma {:induction false} IdsForSidesTrimmed(extensions: Extension, clusterLabel: string, side: seq<string>)
    ensures TrimmedPieces(IdsForSides(extensions, clusterLabel, side))
    decreases |side|
  {
    if side != [] {
      var prefix := IdsForSides(extensions, clusterLabel, side[..|side| - 1]);
      var last := SideIds(extensions, clusterLabel, side[|side| - 1]);
      IdsForSidesTrimmed(extensions, clusterLabel, side[..|side| - 1]);
      match Hit(extensions, clusterLabel, side[|side| - 1])
      case None =>
      case Some(ids) => PiecesTrimmed(ids);
      assert TrimmedPieces(last);
      assert IdsForSides(extensions, clusterLabel, side) == prefix + last;
    }
  }

  /** Sides without a (non-empty) hit contribute nothing. */
  lemma {:induction false} NoHitsNoIds(extensions: Extension, clusterLabel: string, side: seq<string>)
    requires forall k :: 0 <= k < |side| ==> Hit(extensions, clusterLabel, side[k]).None?
    ensures IdsForSides(extensions, clusterLabel, side) == []
    decreases |side|
  {
    if side != [] {
      NoHitsNoIds(extensions, clusterLabel, side[..|side| - 1]);
    }
  }

  /**
   * A result is there exactly when every query succeeds and the cluster is
   * found; it reports the cluster's own id and lowered label, the sides
   * unchanged, and reads the session's first template package.
   */
  lemma ResultShape(db: ZclDb, sessionId: SessionId, clusterId: ClusterId, side: seq<string>)
    ensures var r := ComponentIdsFor(db, sessionId, clusterId, side);
      r.Some? <==>
        db.genTemplatePackages(sessionId).Rows? &&
        db.clusterExtension(FirstPackage(db.genTemplatePackages(sessionId).value)).Rows? &&
        db.clusterById(clusterId, FirstPackage(db.genTemplatePackages(sessionId).value)).Rows? &&
        db.clusterById(clusterId, FirstPackage(db.genTemplatePackages(sessionId).value)).value.Some?
    ensures var r := ComponentIdsFor(db, sessionId, clusterId, side);
      r.Some? ==>
        var packageId := FirstPackage(db.genTemplatePackages(sessionId).value);
        var cluster := db.clusterById(clusterId, packageId).value.value;
        r.value.clusterId == cluster.id && r.value.clusterLabel == ToLower(cluster.name) && r.value.side == side &&
        |r.value.id| == TotalPieceCount(db.clusterExtension(packageId).value, cluster.name, side)
  {
    var r := ComponentIdsFor(db, sessionId, clusterId, side);
    if r.Some? {
      var packageId := FirstPackage(db.genTemplatePackages(sessionId).value);
      var cluster := db.clusterById(clusterId, packageId).value.value;
      IdsForSidesLength(db.clusterExtension(packageId).value, cluster.name, side);
    }
  }

  /** The cluster key ignores the case of ASCII letters in the clusterLabel. */
  lemma ClusterKeyLowersLabel(clusterLabel: string, zclRole: string)
    ensures ClusterKey(clusterLabel, zclRole) == ClusterKey(ToLower(clusterLabel), zclRole)
  {
    assert ToLower(ToLower(clusterLabel)) == ToLower(clusterLabel);
  }

  /** The ids found for a cluster are the same whatever the case of the ASCII letters in its label. */
  lemma {:induction false} IdsIgnoreLabelCase(extensions: Extension, clusterLabel: string, side: seq<string>)
    ensures IdsForSides(extensions, clusterLabel, side) == IdsForSides(extensions, ToLower(clusterLabel), side)
    decreases |side|
  {
    if side != [] {
      IdsIgnoreLabelCase(extensions, clusterLabel, side[..|side| - 1]);
      ClusterKeyLowersLabel(clusterLabel, side[|side| - 1]);
    }
  }

  /** A hit like `"a, b"` for the server side of "On/off" gives the ids `a` and `b`. */
  lemma OnOffServerExample()
    ensures var extensions := map[(ComponentProperty, "on/off-server") := "a, b"];
      IdsForSides(extensions, "On/off", ["server"]) == ["a", "b"]
  {
    var extensions := map[(ComponentProperty, "on/off-server") := "a, b"];
    OnOffHit(extensions);
    PiecesExample();
    assert SideIds(extensions, "On/off", "server") == ["a", "b"];
    assert ["server"][..0] == [];
  }

  lemma PiecesExample()
    ensures Pieces("a, b") == ["a", "b"]
  {
    SplitExample();
    TrimExamples();
    var parts := Split("a, b", ',');
    assert TrimAll(parts[1..]) == [Trim(parts[1])] + TrimAll([]);
    assert Pieces("a, b") == [Trim(parts[0]), Trim(parts[1])];
  }

  lemma OnOffHit(extensions: Extension)
    requires extensions == map[(ComponentProperty, "on/off-server") := "a, b"]
    ensures Hit(extensions, "On/off", "server") == Some("a, b")
  {
    OnOffKey();
  }

  lemma OnOffKey()
    ensures ClusterKey("On/off", "server") == "on/off-server"
  {
    var lowered := ToLower("On/off");
    assert |lowered| == 6;
    assert lowered[0] == 'o' && lowered[1] == 'n' && lowered[2] == '/';
    assert lowered[3] == 'o' && lowered[4] == 'f' && lowered[5] == 'f';
    assert lowered == "on/off";
  }

  lemma TrimExamples()
    ensures Trim("a") == "a" && Trim(" b") == "b"
  {
    TrimWord('a');
    TrimWord('b');
    assert IsSpace(' ');
    assert " b"[0] == ' ' && " b"[1..] == "b";
    assert TrimStart(" b") == TrimStart("b");
  }

  /** A one-letter word is its own trim. */
  lemma TrimWord(c: char)
    requires 'a' <= c <= 'z'
    ensures TrimStart([c]) == [c] && TrimEnd([c]) == [c] && Trim([c]) == [c]
  {
    assert !IsSpace(c);
  }

  lemma SplitExample()
    ensures Split("a, b", ',') == ["a", " b"]
  {
    var empty := Split("", ',');
    assert empty == [""];
    assert "b"[0] == 'b' && "b"[1..] == "";
    var b := Split("b", ',');
    assert b == [['b'] + empty[0]] + empty[1..];
    assert ['b'] + empty[0] == "b" && empty[1..] == [];
    assert b == ["b"];
    assert " b"[0] == ' ' && " b"[1..] == "b";
    var spaceB := Split(" b", ',');
    assert spaceB == [[' '] + b[0]] + b[1..];
    assert [' '] + b[0] == " b" && b[1..] == [];
    assert spaceB == [" b"];
    assert ", b"[0] == ',' && ", b"[1..] == " b";
    var commaB := Split(", b", ',');
    assert commaB == [""] + spaceB;
    assert commaB == ["", " b"];
    assert "a, b"[0] == 'a' && "a, b"[1..] == ", b";
    var all := Split("a, b", ',');
    assert all == [['a'] + commaB[0]] + commaB[1..];
    assert ['a'] + commaB[0] == "a" && commaB[1..] == [" b"];
  }
}
