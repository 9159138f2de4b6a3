/**
 * Plan transfer: the split of grouped 3D spots into three per-axis hashes on
 * the server (Server::encodeSpot), the rebuild of the spots from them on the
 * client (Client::convertSpot), and the field layout of a PLAN payload.
 */
module PlanTransfer {
  import opened Variable
  import opened Stream

  datatype Axis = X | Y | Z

  function Component<C>(p: Spot3D<C>, a: Axis): C
  {
    match a
    case X => p.x
    case Y => p.y
    case Z => p.z
  }

  /** One axis of a list of spots, in spot order: the list encodeSpot appends. */
  function Project<C>(spots: seq<Spot3D<C>>, a: Axis): seq<C>
  {
    if spots == [] then [] else [Component(spots[0], a)] + Project(spots[1..], a)
  }

  /** The axis list has one entry per spot, and entry j is that axis of spot j. */
  lemma {:induction false} ProjectSpec<C>(spots: seq<Spot3D<C>>, a: Axis)
    ensures |Project(spots, a)| == |spots|
    ensures forall j :: 0 <= j < |spots| ==> Project(spots, a)[j] == Component(spots[j], a)
  {
    if spots != [] {
      ProjectSpec(spots[1..], a);
      forall j | 1 <= j < |spots|
        ensures Project(spots, a)[j] == Component(spots[j], a)
      {
        assert spots[1..][j - 1] == spots[j];
      }
    }
  }

  /** Appending spots appends their coordinates. */
  lemma {:induction false} ProjectAppend<C>(s: seq<Spot3D<C>>, t: seq<Spot3D<C>>, a: Axis)
    ensures Project(s + t, a) == Project(s, a) + Project(t, a)
  {
    if s == [] {
      assert s + t == t;
    } else {
      assert (s + t)[0] == s[0];
      assert (s + t)[1..] == s[1..] + t;
      ProjectAppend(s[1..], t, a);
    }
  }

  /** Spots rebuilt index by index from three coordinate lists (the inner loop of
      convertSpot); `ys` and `zs` must reach as far as `xs`, as `at(x)` demands. */
  function Zip<C>(xs: seq<C>, ys: seq<C>, zs: seq<C>): seq<Spot3D<C>>
    requires |xs| <= |ys| && |xs| <= |zs|
  {
    if xs == [] then [] else [Spot3D(xs[0], ys[0], zs[0])] + Zip(xs[1..], ys[1..], zs[1..])
  }

  /** One rebuilt spot per X entry; spot i takes entry i of each list. */
  lemma {:induction false} ZipSpec<C>(xs: seq<C>, ys: seq<C>, zs: seq<C>)
    requires |xs| <= |ys| && |xs| <= |zs|
    ensures |Zip(xs, ys, zs)| == |xs|
    ensures forall i :: 0 <= i < |xs| ==> Zip(xs, ys, zs)[i] == Spot3D(xs[i], ys[i], zs[i])
  {
    if xs != [] {
      ZipSpec(xs[1..], ys[1..], zs[1..]);
      forall i | 1 <= i < |xs|
        ensures Zip(xs, ys, zs)[i] == Spot3D(xs[i], ys[i], zs[i])
      {
        assert xs[1..][i - 1] == xs[i] && ys[1..][i - 1] == ys[i] && zs[1..][i - 1] == zs[i];
      }
    }
  }

  /** One more loop iteration of convertSpot appends one more spot. */
  lemma ZipSnoc<C>(xs: seq<C>, ys: seq<C>, zs: seq<C>, n: nat)
    requires n < |xs| <= |ys| && |xs| <= |zs|
    ensures Zip(xs[..n + 1], ys[..n + 1], zs[..n + 1]) == Zip(xs[..n], ys[..n], zs[..n]) + [Spot3D(xs[n], ys[n], zs[n])]
  {
    ZipSpec(xs[..n + 1], ys[..n + 1], zs[..n + 1]);
    ZipSpec(xs[..n], ys[..n], zs[..n]);
  }

  /** Only the first |xs| entries of the Y and Z lists are used. */
  lemma {:induction false} ZipPrefix<C>(xs: seq<C>, ys: seq<C>, zs: seq<C>)
    requires |xs| <= |ys| && |xs| <= |zs|
    ensures Zip(xs, ys[..|xs|], zs[..|xs|]) == Zip(xs, ys, zs)
  {
    if xs != [] {
      assert ys[..|xs|][1..] == ys[1..][..|xs| - 1];
      assert zs[..|xs|][1..] == zs[1..][..|xs| - 1];
      ZipPrefix(xs[1..], ys[1..], zs[1..]);
    }
  }

  /** Rebuilding from the three projections gives back the spots. */
  lemma {:induction false} ZipProject<C>(spots: seq<Spot3D<C>>)
    ensures |Project(spots, X)| <= |Project(spots, Y)| && |Project(spots, X)| <= |Project(spots, Z)|
    ensures Zip(Project(spots, X), Project(spots, Y), Project(spots, Z)) == spots
  {
    ProjectSpec(spots, X);
    ProjectSpec(spots, Y);
    ProjectSpec(spots, Z);
    if spots != [] {
      ZipProject(spots[1..]);
    }
  }

  /** Projecting rebuilt spots gives back coordinate lists of equal length. */
  lemma {:induction false} ProjectZip<C>(xs: seq<C>, ys: seq<C>, zs: seq<C>)
    requires |xs| == |ys| == |zs|
    ensures Project(Zip(xs, ys, zs), X) == xs
    ensures Project(Zip(xs, ys, zs), Y) == ys
    ensures Project(Zip(xs, ys, zs), Z) == zs
  {
    if xs != [] {
      ProjectZip(xs[1..], ys[1..], zs[1..]);
    }
  }

  /** QHash::operator[] on a list-valued hash: the stored list, or an empty one. */
  function Lookup<K(==), V>(m: map<K, seq<V>>, k: K): seq<V>
  {
    if k in m then m[k] else []
  }

  /**
   * The axis hash encodeSpot leaves: every group of `spot3D` gets its freshly
   * split list, every other entry of `hash` stays as it was.
   */
  function SplitInto<K(==), C>(hash: map<K, seq<C>>, spot3D: map<K, seq<Spot3D<C>>>, a: Axis): map<K, seq<C>>
  {
    hash + map k | k in spot3D :: Project(spot3D[k], a)
  }

  lemma SplitIntoSpec<K, C>(hash: map<K, seq<C>>, spot3D: map<K, seq<Spot3D<C>>>, a: Axis)
    ensures SplitInto(hash, spot3D, a).Keys == hash.Keys + spot3D.Keys
    ensures forall k :: k in spot3D ==> |SplitInto(hash, spot3D, a)[k]| == |spot3D[k]|
    ensures forall k, j :: k in spot3D && 0 <= j < |spot3D[k]| ==>
              SplitInto(hash, spot3D, a)[k][j] == Component(spot3D[k][j], a)
    ensures forall k :: k in hash && k !in spot3D ==> SplitInto(hash, spot3D, a)[k] == hash[k]
  {
    forall k | k in spot3D
      ensures |Project(spot3D[k], a)| == |spot3D[k]|
      ensures forall j :: 0 <= j < |spot3D[k]| ==> Project(spot3D[k], a)[j] == Component(spot3D[k][j], a)
    {
      ProjectSpec(spot3D[k], a);
    }
  }

  /** The three axis hashes have the same keys and, under each key, lists of
      the same length, so that index i of the three lists makes one spot. */
  predicate Aligned<K, C>(hx: map<K, seq<C>>, hy: map<K, seq<C>>, hz: map<K, seq<C>>)
  {
    && hx.Keys == hy.Keys == hz.Keys
    && forall k :: k in hx ==> |hx[k]| == |hy[k]| == |hz[k]|
  }

  /** encodeSpot keeps the axis hashes aligned. */
  lemma SplitKeepsAligned<K, C>(hx: map<K, seq<C>>, hy: map<K, seq<C>>, hz: map<K, seq<C>>, spot3D: map<K, seq<Spot3D<C>>>)
    requires Aligned(hx, hy, hz)
    ensures Aligned(SplitInto(hx, spot3D, X), SplitInto(hy, spot3D, Y), SplitInto(hz, spot3D, Z))
  {
    SplitIntoSpec(hx, spot3D, X);
    SplitIntoSpec(hy, spot3D, Y);
    SplitIntoSpec(hz, spot3D, Z);
  }

  /** What convertSpot's `at(x)` calls need: for every key of the X hash, the Y
      and Z lists (or the empty lists operator[] inserts) reach as far. */
  predicate Covers<K(==), C>(hx: map<K, seq<C>>, hy: map<K, seq<C>>, hz: map<K, seq<C>>)
  {
    forall k :: k in hx ==> |hx[k]| <= |Lookup(hy, k)| && |hx[k]| <= |Lookup(hz, k)|
  }

  lemma AlignedCovers<K, C>(hx: map<K, seq<C>>, hy: map<K, seq<C>>, hz: map<K, seq<C>>)
    requires Aligned(hx, hy, hz)
    ensures Covers(hx, hy, hz)
    ensures FillMissing(hy, hx.Keys) == hy && FillMissing(hz, hx.Keys) == hz
  {
  }

  /** The entries convertSpot's `m_hashY[currentKey]` inserts: an empty list
      for every key of `keys` the hash lacks. */
  function FillMissing<K(==), C>(hash: map<K, seq<C>>, keys: set<K>): (r: map<K, seq<C>>)
    ensures r.Keys == hash.Keys + keys
    ensures forall k :: k in r ==> r[k] == Lookup(hash, k)
  {
    hash + map k | k in keys && k !in hash :: []
  }

  /**
   * The spots convertSpot leaves: for every key whose X list is non-empty, the
   * rebuilt spots appended to what `spot3D` already held under it. A key with an
   * empty X list gets no entry, since `append` is only reached inside the loop.
   */
  function Rebuild<K(==), C>(spot3D: map<K, seq<Spot3D<C>>>, hx: map<K, seq<C>>, hy: map<K, seq<C>>, hz: map<K, seq<C>>): map<K, seq<Spot3D<C>>>
    requires Covers(hx, hy, hz)
  {
    spot3D + map k | k in hx && |hx[k]| > 0 :: Lookup(spot3D, k) + Zip(hx[k], Lookup(hy, k), Lookup(hz, k))
  }

  /** A rebuild into an empty hash: exactly the keys with a non-empty X list, and
      spot i of a group is entry i of its X, Y and Z lists. */
  lemma RebuildSpec<K, C>(hx: map<K, seq<C>>, hy: map<K, seq<C>>, hz: map<K, seq<C>>)
    requires Covers(hx, hy, hz)
    ensures forall k :: k in Rebuild(map[], hx, hy, hz) <==> k in hx && |hx[k]| > 0
    ensures forall k :: k in Rebuild(map[], hx, hy, hz) ==> |Rebuild(map[], hx, hy, hz)[k]| == |hx[k]|
    ensures forall k, i :: k in Rebuild(map[], hx, hy, hz) && 0 <= i < |hx[k]| ==>
              Rebuild(map[], hx, hy, hz)[k][i] == Spot3D(hx[k][i], hy[k][i], hz[k][i])
  {
    var r := Rebuild(map[], hx, hy, hz);
    RebuildFromEmpty(hx, hy, hz);
    forall k | k in r
      ensures k in hy && k in hz && |r[k]| == |hx[k]|
      ensures forall i :: 0 <= i < |hx[k]| ==> r[k][i] == Spot3D(hx[k][i], hy[k][i], hz[k][i])
    {
      ZipSpec(hx[k], Lookup(hy, k), Lookup(hz, k));
    }
  }

  /** The groups of `g` that have at least one spot. */
  function NonEmptyGroups<K(==), C>(g: map<K, seq<Spot3D<C>>>): map<K, seq<Spot3D<C>>>
  {
    map k | k in g && |g[k]| > 0 :: g[k]
  }

  /**
   * Split then rebuild is a round trip: starting from empty axis hashes, the
   * client rebuilds every group of the server's spots in spot order, except
   * that a group without spots is not rebuilt at all.
   */
  lemma SplitRebuildRoundTrip<K, C>(g: map<K, seq<Spot3D<C>>>)
    ensures Covers(SplitInto(map[], g, X), SplitInto(map[], g, Y), SplitInto(map[], g, Z))
    ensures Rebuild(map[], SplitInto(map[], g, X), SplitInto(map[], g, Y), SplitInto(map[], g, Z)) == NonEmptyGroups(g)
  {
    SplitOfEmpty(g, X);
    SplitOfEmpty(g, Y);
    SplitOfEmpty(g, Z);
    ProjectionsCover(g, SplitInto(map[], g, X), SplitInto(map[], g, Y), SplitInto(map[], g, Z));
    RebuildOfGroups(g, SplitInto(map[], g, X), SplitInto(map[], g, Y), SplitInto(map[], g, Z));
  }

  /** Rebuilding lists that zip back to the groups of `g` gives its non-empty groups. */
  lemma RebuildOfGroups<K, C>(g: map<K, seq<Spot3D<C>>>, hx: map<K, seq<C>>, hy: map<K, seq<C>>, hz: map<K, seq<C>>)
    requires Covers(hx, hy, hz) && hx.Keys == g.Keys
    requires forall k :: k in g ==> |hx[k]| == |g[k]| && Zip(hx[k], Lookup(hy, k), Lookup(hz, k)) == g[k]
    ensures Rebuild(map[], hx, hy, hz) == NonEmptyGroups(g)
  {
    var r := Rebuild(map[], hx, hy, hz);
    RebuildFromEmpty(hx, hy, hz);
    var n := NonEmptyGroups(g);
    forall k
      ensures k in r <==> k in n
      ensures k in r ==> r[k] == n[k]
    {
    }
  }

  /** The three projections of a group reach equally far and zip back to it. */
  lemma ProjectionsCover<K, C>(g: map<K, seq<Spot3D<C>>>, hx: map<K, seq<C>>, hy: map<K, seq<C>>, hz: map<K, seq<C>>)
    requires hx.Keys == g.Keys && hy.Keys == g.Keys && hz.Keys == g.Keys
    requires forall k :: k in g ==> hx[k] == Project(g[k], X)
    requires forall k :: k in g ==> hy[k] == Project(g[k], Y)
    requires forall k :: k in g ==> hz[k] == Project(g[k], Z)
    ensures Covers(hx, hy, hz)
    ensures forall k :: k in g ==> |hx[k]| == |g[k]| && Zip(hx[k], Lookup(hy, k), Lookup(hz, k)) == g[k]
  {
    forall k | k in g
      ensures |hx[k]| == |g[k]| && |hx[k]| <= |Lookup(hy, k)| && |hx[k]| <= |Lookup(hz, k)|
      ensures Zip(hx[k], Lookup(hy, k), Lookup(hz, k)) == g[k]
    {
      ZipProject(g[k]);
      ProjectSpec(g[k], X);
    }
  }

  lemma SplitOfEmpty<K, C>(g: map<K, seq<Spot3D<C>>>, a: Axis)
    ensures SplitInto(map[], g, a).Keys == g.Keys
    ensures forall k :: k in g ==> SplitInto(map[], g, a)[k] == Project(g[k], a)
  {
  }

  lemma RebuildFromEmpty<K, C>(hx: map<K, seq<C>>, hy: map<K, seq<C>>, hz: map<K, seq<C>>)
    requires Covers(hx, hy, hz)
    ensures forall k :: k in Rebuild(map[], hx, hy, hz) <==> k in hx && |hx[k]| > 0
    ensures forall k :: k in Rebuild(map[], hx, hy, hz) ==>
              Rebuild(map[], hx, hy, hz)[k] == Zip(hx[k], Lookup(hy, k), Lookup(hz, k))
  {
    forall k | k in hx && |hx[k]| > 0
      ensures Lookup<K, Spot3D<C>>(map[], k) + Zip(hx[k], Lookup(hy, k), Lookup(hz, k)) == Zip(hx[k], Lookup(hy, k), Lookup(hz, k))
    {
    }
  }

  /**
   * encodeSpot never removes entries: a group that is in the axis hashes from an
   * earlier send but no longer in the server's spots is transmitted again and
   * rebuilt by the client.
   */
  lemma StaleGroupRebuilt<K, C>(hx: map<K, seq<C>>, hy: map<K, seq<C>>, hz: map<K, seq<C>>, g: map<K, seq<Spot3D<C>>>, k: K)
    requires Aligned(hx, hy, hz)
    requires k in hx && k !in g && |hx[k]| > 0
    ensures Covers(SplitInto(hx, g, X), SplitInto(hy, g, Y), SplitInto(hz, g, Z))
    ensures k in Rebuild(map[], SplitInto(hx, g, X), SplitInto(hy, g, Y), SplitInto(hz, g, Z))
    ensures Rebuild(map[], SplitInto(hx, g, X), SplitInto(hy, g, Y), SplitInto(hz, g, Z))[k] == Zip(hx[k], hy[k], hz[k])
  {
    SplitKeepsAligned(hx, hy, hz, g);
    AlignedCovers(SplitInto(hx, g, X), SplitInto(hy, g, Y), SplitInto(hz, g, Z));
  }

  /** The fields of a PLAN frame after its header: the order in which
      encodePlan writes them and receivePlan reads them back. */
  function PlanPayload<K(==), C, S>(
    hx: map<K, seq<C>>, hy: map<K, seq<C>>, hz: map<K, seq<C>>, spotOrder: map<K, seq<int>>,
    p: SonicationParameter, receipt: string): (r: seq<Field<K, C, S>>)
    ensures |r| == 10 && r[|r| - 1] == Str(receipt)
    ensures forall i :: 0 <= i < |r| ==> !r[i].I64? && !r[i].Raw?
  {
    [AxisMap(hx), AxisMap(hy), AxisMap(hz), OrderMap(spotOrder),
     Volt(p.volt), Int(p.totalTime), Int(p.period), Int(p.dutyCycle), Int(p.coolingTime),
     Str(receipt)]
  }

  /** Everything receivePlan reads after the header. */
  datatype PlanBody<K(==), C> = PlanBody(
    totalBytes: int, hashX: map<K, seq<C>>, hashY: map<K, seq<C>>, hashZ: map<K, seq<C>>,
    spotOrder: map<K, seq<int>>, parameter: SonicationParameter, receipt: string)

  /** The five sonication parameters, read in the order they are written. */
  function ReadParameter<K(==), C, S>(s: seq<Field<K, C, S>>): (SonicationParameter, seq<Field<K, C, S>>)
  {
    var (volt, s1) := ReadVolt(s);
    var (totalTime, s2) := ReadInt(s1);
    var (period, s3) := ReadInt(s2);
    var (dutyCycle, s4) := ReadInt(s3);
    var (coolingTime, s5) := ReadInt(s4);
    (SonicationParameter(volt, totalTime, period, dutyCycle, coolingTime), s5)
  }

  /** The parameter fields of a plan frame read back as written. */
  lemma ReadParameterFields<K, C, S>(p: SonicationParameter, tail: seq<Field<K, C, S>>)
    ensures ReadParameter([Volt(p.volt), Int(p.totalTime), Int(p.period), Int(p.dutyCycle), Int(p.coolingTime)] + tail)
            == (p, tail)
  {
    var s: seq<Field<K, C, S>> := [Volt(p.volt), Int(p.totalTime), Int(p.period), Int(p.dutyCycle), Int(p.coolingTime)] + tail;
    assert ReadVolt(s) == (p.volt, s[1..]);
    assert ReadInt(s[1..]) == (p.totalTime, s[2..]);
    assert ReadInt(s[2..]) == (p.period, s[3..]);
    assert ReadInt(s[3..]) == (p.dutyCycle, s[4..]);
    assert ReadInt(s[4..]) == (p.coolingTime, s[5..]);
    assert s[5..] == tail;
  }

  /** The reads of receivePlan, in its order, from the stream after the header. */
  function DecodePlan<K(==), C, S>(s: seq<Field<K, C, S>>): (b: PlanBody<K, C>)
    ensures s == [] || !s[0].I64? ==> b == PlanBody(0, map[], map[], map[], map[], ZeroParameter, "")
  {
    var (totalBytes, s1) := ReadI64(s);
    var (hx, s2) := ReadAxisMap(s1);
    var (hy, s3) := ReadAxisMap(s2);
    var (hz, s4) := ReadAxisMap(s3);
    var (spotOrder, s5) := ReadOrderMap(s4);
    var (parameter, s6) := ReadParameter(s5);
    var (receipt, _) := ReadStr(s6);
    PlanBody(totalBytes, hx, hy, hz, spotOrder, parameter, receipt)
  }

  /** The decoder reads back every field the encoder wrote, in the same order,
      whatever follows the payload in the buffer. */
  lemma DecodePlanPayload<K, C, S>(
    totalBytes: int, hx: map<K, seq<C>>, hy: map<K, seq<C>>, hz: map<K, seq<C>>, spotOrder: map<K, seq<int>>,
    p: SonicationParameter, receipt: string, tail: seq<Field<K, C, S>>)
    ensures DecodePlan([I64(totalBytes)] + PlanPayload(hx, hy, hz, spotOrder, p, receipt) + tail)
            == PlanBody(totalBytes, hx, hy, hz, spotOrder, p, receipt)
  {
    var s := [I64(totalBytes)] + PlanPayload<K, C, S>(hx, hy, hz, spotOrder, p, receipt) + tail;
    var rest: seq<Field<K, C, S>> := [Str(receipt)] + tail;
    assert s[0] == I64(totalBytes) && s[1] == AxisMap(hx) && s[2] == AxisMap(hy);
    assert s[3] == AxisMap(hz) && s[4] == OrderMap(spotOrder);
    assert ReadI64(s) == (totalBytes, s[1..]);
    assert ReadAxisMap(s[1..]) == (hx, s[2..]);
    assert ReadAxisMap(s[2..]) == (hy, s[3..]);
    assert ReadAxisMap(s[3..]) == (hz, s[4..]);
    assert ReadOrderMap(s[4..]) == (spotOrder, s[5..]);
    assert s[5..] == [Volt(p.volt), Int(p.totalTime), Int(p.period), Int(p.dutyCycle), Int(p.coolingTime)] + rest;
    ReadParameterFields(p, rest);
  }
}
