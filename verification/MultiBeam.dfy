/** The beam arrays of a rank: real particles sorted by box, ghosts kept behind them by index, slice bins, and the
    packing of messages. */
module MultiBeam {
  import opened Beam
  import opened BoxSort
  import opened Orders
  import opened Ring

  // ---------------------------------------------------------------- slice bins

  /** Slice index inside a box whose first slice is lo. */
  function SliceIndex(plo: real, dz: real, lo: int, z: real): int
    requires dz > 0.0
  {
    Trunc((z - plo) / dz - lo as real)
  }

  /** The index is the distance from the first slice of the box, except that a particle less than one slice below
      the box is binned to slice 0; inside the box it is always right. */
  lemma SliceIndexIsSlice(plo: real, dz: real, lo: int, z: real)
    requires dz > 0.0
    ensures UniformSlice(plo, dz, z) >= lo ==> SliceIndex(plo, dz, lo, z) == UniformSlice(plo, dz, z) - lo
    ensures UniformSlice(plo, dz, z) == lo - 1 ==>
              (SliceIndex(plo, dz, lo, z) == UniformSlice(plo, dz, z) - lo <==> (z - plo) / dz == (lo - 1) as real)
  {
    var q := (z - plo) / dz;
    var x := q - lo as real;
    assert x.Floor == q.Floor - lo;
    if q.Floor == lo - 1 {
      assert -1.0 <= x < 0.0;
      if x != -1.0 { assert (-x).Floor == 0; } else { assert (-x).Floor == 1; }
    }
  }

  function Zip(a: seq<Particle>, bin: seq<int>): (r: seq<(Particle, int)>)
    requires |a| == |bin|
    ensures |r| == |a| && forall i :: 0 <= i < |a| ==> r[i] == (a[i], bin[i])
  {
    seq(|a|, i requires 0 <= i < |a| => (a[i], bin[i]))
  }

  lemma {:induction false} CountZip(a: seq<Particle>, bin: seq<int>, k: int, x: Particle)
    requires |a| == |bin|
    ensures multiset(InBin(a, bin, k))[x] == multiset(Zip(a, bin))[(x, k)]
  {
    if a != [] {
      CountZip(a[1..], bin[1..], k, x);
      assert Zip(a, bin) == [(a[0], bin[0])] + Zip(a[1..], bin[1..]);
      CountHead(a, bin, k, x);
    }
  }

  lemma CountHead(a: seq<Particle>, bin: seq<int>, k: int, x: Particle)
    requires |a| == |bin| && a != []
    ensures multiset(InBin(a, bin, k))[x] == multiset(InBin(a[1..], bin[1..], k))[x] + if a[0] == x && bin[0] == k then 1 else 0
  {
  }

  /** The places of bin k hold the particles of bin k. */
  lemma BinPlaces(perm: seq<nat>, offsets: seq<nat>, a: seq<Particle>, bin: seq<int>, k: nat)
    requires |a| == |bin| && Order(perm, |bin|) && BinAt(perm, offsets, bin, k)
    requires forall j :: 0 <= j < |perm| ==> perm[j] < |a|
    ensures multiset(Visit(a, perm)[offsets[k]..offsets[k + 1]]) == multiset(InBin(a, bin, k))
  {
    var s := Visit(a, perm)[offsets[k]..offsets[k + 1]];
    forall x ensures multiset(s)[x] == multiset(InBin(a, bin, k))[x] {
      CountZip(a, bin, k, x);
      VisitAll(Zip(a, bin), perm);
      PlacesCount(Visit(a, perm), Visit(Zip(a, bin), perm), offsets[k], offsets[k + 1], x, k);
    }
  }

  lemma PlacesCount(v: seq<Particle>, z: seq<(Particle, int)>, from: nat, to: nat, x: Particle, k: int)
    requires |v| == |z| && from <= to <= |v|
    requires forall j :: 0 <= j < |v| ==> z[j].0 == v[j] && (z[j].1 == k <==> from <= j < to)
    ensures multiset(v[from..to])[x] == multiset(z)[(x, k)]
  {
    assert z == z[..from] + z[from..to] + z[to..];
    assert (x, k) !in z[..from] && (x, k) !in z[to..];
    CountPointwise(v[from..to], x, z[from..to], (x, k));
  }

  // ---------------------------------------------------------------- messages

  /** The loop of Notify that packs one species: the particles of the box in array order, or the ones of its head
      slice through the bin permutation. */
  method Pack(beam: BeamTile, offsetBox: nat, np: nat, onlyGhost: bool, indices: seq<nat>, cellStart: nat) returns (buffer: seq<Particle>)
    requires !onlyGhost ==> offsetBox + np <= |beam.particles|
    requires onlyGhost ==> cellStart + np <= |indices|
    requires onlyGhost ==> forall i :: cellStart <= i < cellStart + np ==> offsetBox + indices[i] < |beam.particles|
    ensures |buffer| == np
    ensures !onlyGhost ==> buffer == beam.particles[offsetBox..offsetBox + np]
    ensures forall i :: 0 <= i < np ==> buffer[i] == beam.particles[offsetBox + if onlyGhost then indices[cellStart + i] else i]
  {
    buffer := [];
    for i := 0 to np
      invariant |buffer| == i
      invariant forall j :: 0 <= j < i ==> buffer[j] == beam.particles[offsetBox + if onlyGhost then indices[cellStart + j] else j]
    {
      var src := if onlyGhost then indices[cellStart + i] else i;
      buffer := buffer + [beam.particles[offsetBox + src]];
    }
  }

  /** The loop of Wait that unpacks one species behind the particles already there. */
  method Unpack(beam: BeamTile, buffer: seq<Particle>, blank: Particle)
    modifies beam
    ensures beam.particles == old(beam.particles) + buffer
  {
    ghost var was := beam.particles;
    var oldSize := |beam.particles|;
    beam.particles := beam.particles + seq(|buffer|, _ => blank);
    for i := 0 to |buffer|
      invariant |beam.particles| == oldSize + |buffer|
      invariant forall k :: 0 <= k < oldSize ==> beam.particles[k] == was[k]
      invariant forall k :: oldSize <= k < oldSize + i ==> beam.particles[k] == buffer[k - oldSize]
    {
      beam.particles := beam.particles[oldSize + i := buffer[i]];
    }
  }

  /** The bins of a box relative to its first slice lo. */
  function LocalBins(bin: seq<int>, from: nat, to: nat, lo: int): (r: seq<int>)
    requires from <= to <= |bin|
    ensures |r| == to - from && forall i :: 0 <= i < to - from ==> r[i] == bin[from + i] - lo
  {
    seq(to - from, i requires 0 <= i < to - from => bin[from + i] - lo)
  }

  /** What the program packs for a ghost message, through the bins of a box, are the particles that the pipeline model
      has in the head slice: all particles of the array whose bin is that slice. */
  lemma PackedGhosts(arr: seq<Particle>, bin: seq<int>, from: nat, to: nat, perm: seq<nat>, offsets: seq<nat>, lo: nat, n: nat, buffer: seq<Particle>)
    requires |arr| == |bin| && from <= to <= |arr| && n > 0
    requires forall i :: 0 <= i < |arr| && !(from <= i < to) ==> bin[i] == -1
    requires IsBins(perm, offsets, LocalBins(bin, from, to, lo), n) && PackedFrom(arr, from, perm, offsets, n - 1, buffer)
    ensures multiset(buffer) == multiset(InBin(arr, bin, lo + n - 1))
  {
    PackedLocal(arr, from, to, LocalBins(bin, from, to, lo), perm, offsets, n, buffer);
    BinsOfWindow(arr, bin, from, to, lo, n - 1);
  }

  lemma {:induction false} PackedLocal(arr: seq<Particle>, from: nat, to: nat, local: seq<int>, perm: seq<nat>, offsets: seq<nat>, n: nat, buffer: seq<Particle>)
    requires from <= to <= |arr| && n > 0 && |local| == to - from
    requires IsBins(perm, offsets, local, n) && PackedFrom(arr, from, perm, offsets, n - 1, buffer)
    ensures multiset(buffer) == multiset(InBin(arr[from..to], local, n - 1))
  {
    assert BinAt(perm, offsets, local, n - 1);
    InRange(perm, |local|);
    BinPlaces(perm, offsets, arr[from..to], local, n - 1);
    PlacesAre(arr, from, to, perm, offsets, n - 1, buffer);
  }

  /** The buffer holds the particles at the places of bin k, in this order. */
  ghost predicate PackedFrom(arr: seq<Particle>, from: nat, perm: seq<nat>, offsets: seq<nat>, k: nat, buffer: seq<Particle>) {
    && k + 1 < |offsets| && offsets[k] <= offsets[k + 1] <= |perm| && |buffer| == offsets[k + 1] - offsets[k]
    && forall i :: 0 <= i < |buffer| ==> from + perm[offsets[k] + i] < |arr| && buffer[i] == arr[from + perm[offsets[k] + i]]
  }

  lemma PlacesAre(arr: seq<Particle>, from: nat, to: nat, perm: seq<nat>, offsets: seq<nat>, k: nat, buffer: seq<Particle>)
    requires from <= to <= |arr| && PackedFrom(arr, from, perm, offsets, k, buffer)
    requires forall i :: 0 <= i < |perm| ==> perm[i] < to - from
    ensures buffer == Visit(arr[from..to], perm)[offsets[k]..offsets[k + 1]]
  {
  }

  lemma BinsOfWindow(arr: seq<Particle>, bin: seq<int>, from: nat, to: nat, lo: nat, k: nat)
    requires |arr| == |bin| && from <= to <= |arr|
    requires forall i :: 0 <= i < |arr| && !(from <= i < to) ==> bin[i] == -1
    ensures InBin(arr, bin, lo + k) == InBin(arr[from..to], LocalBins(bin, from, to, lo), k)
  {
    InBinShift(arr[from..to], bin[from..to], LocalBins(bin, from, to, lo), lo, k);
    InBinWindow(arr, bin, from, to, lo + k);
  }

  lemma {:induction false} InBinShift(a: seq<Particle>, bin: seq<int>, local: seq<int>, lo: int, k: int)
    requires |a| == |bin| == |local| && forall i :: 0 <= i < |a| ==> local[i] == bin[i] - lo
    ensures InBin(a, bin, lo + k) == InBin(a, local, k)
  {
    if a != [] { InBinShift(a[1..], bin[1..], local[1..], lo, k); }
  }

  lemma {:induction false} InBinSplit(a: seq<Particle>, bin: seq<int>, c: nat, k: int)
    requires |a| == |bin| && c <= |a|
    ensures InBin(a, bin, k) == InBin(a[..c], bin[..c], k) + InBin(a[c..], bin[c..], k)
  {
    if c > 0 {
      InBinSplit(a[1..], bin[1..], c - 1, k);
      assert a[1..][..c - 1] == a[..c][1..] && bin[1..][..c - 1] == bin[..c][1..];
      assert a[1..][c - 1..] == a[c..] && bin[1..][c - 1..] == bin[c..];
    } else {
      assert a[..0] == [] && bin[..0] == [] && a[0..] == a && bin[0..] == bin;
    }
  }

  lemma {:induction false} InBinNone(a: seq<Particle>, bin: seq<int>, k: int)
    requires |a| == |bin| && forall i :: 0 <= i < |a| ==> bin[i] != k
    ensures InBin(a, bin, k) == []
  {
    if a != [] { InBinNone(a[1..], bin[1..], k); }
  }

  lemma InBinWindow(a: seq<Particle>, bin: seq<int>, from: nat, to: nat, k: int)
    requires |a| == |bin| && from <= to <= |a| && forall i :: 0 <= i < |a| && !(from <= i < to) ==> bin[i] != k
    ensures InBin(a, bin, k) == InBin(a[from..to], bin[from..to], k)
  {
    InBinSplit(a, bin, from, k);
    InBinNone(a[..from], bin[..from], k);
    InBinSplit(a[from..], bin[from..], to - from, k);
    InBinNone(a[from..][to - from..], bin[from..][to - from..], k);
    assert a[from..][..to - from] == a[from..to] && bin[from..][..to - from] == bin[from..to];
  }

  // ---------------------------------------------------------------- the beams of a rank

  /** Box `it` is a range of n particles. */
  predicate BoxInside(offsets: seq<nat>, it: nat, n: nat) {
    it + 1 < |offsets| && offsets[it] <= offsets[it + 1] <= n
  }

  /** The array with the particles of box `it` appended as ghosts. */
  predicate WithGhosts(was: seq<Particle>, offsets: seq<nat>, it: nat, now: seq<Particle>) {
    BoxInside(offsets, it, |was|) && now == was + LocalGhosts(was, offsets, it + 1)
  }

  /** `nReal[i]` is the number of real particles of beam i; the particles behind them are ghosts. */
  class MultiBeam {
    const beams: seq<BeamTile>
    var nReal: seq<nat>

    ghost predicate Valid()
      reads this
    {
      |nReal| == |beams| && forall i, j :: 0 <= i < j < |beams| ==> beams[i] != beams[j]
    }

    constructor (tiles: seq<BeamTile>)
      requires forall i, j :: 0 <= i < j < |tiles| ==> tiles[i] != tiles[j]
      ensures Valid() && beams == tiles && nReal == seq(|tiles|, _ => 0)
    {
      beams := tiles;
      nReal := seq(|tiles|, _ => 0);
    }

    method StoreNRealParticles()
      requires Valid()
      modifies `nReal
      ensures Valid() && forall i :: 0 <= i < |beams| ==> nReal[i] == |beams[i].particles|
    {
      for i := 0 to |beams|
        invariant |nReal| == |beams| && forall j :: 0 <= j < i ==> nReal[j] == |beams[j].particles|
      {
        nReal := nReal[i := |beams[i].particles|];
      }
    }

    /** The particles sorted into box `it` are appended as ghosts: box it+1 is about to be solved. */
    method PackLocalGhostParticles(it: nat, sorters: seq<BoxSorter>, blank: Particle)
      requires Valid() && |sorters| == |beams|
      requires forall i :: 0 <= i < |beams| ==> BoxInside(sorters[i].offsets, it, |beams[i].particles|)
      modifies set i | 0 <= i < |beams| :: beams[i]
      ensures forall i :: 0 <= i < |beams| ==> WithGhosts(old(beams[i].particles), sorters[i].offsets, it, beams[i].particles)
    {
      for i := 0 to |beams|
        invariant forall j :: 0 <= j < i ==> WithGhosts(old(beams[j].particles), sorters[j].offsets, it, beams[j].particles)
        invariant forall j :: i <= j < |beams| ==> beams[j].particles == old(beams[j].particles)
      {
        var left := sorters[i].offsets[it];
        CopyGhosts(beams[i], left, sorters[i].offsets[it + 1] - left, blank);
      }
    }

    /** The copy loop over the ghosts of one beam. */
    method CopyGhosts(beam: BeamTile, left: nat, nghost: nat, blank: Particle)
      requires left + nghost <= |beam.particles|
      modifies beam
      ensures beam.particles == old(beam.particles) + old(beam.particles)[left..left + nghost]
    {
      ghost var was := beam.particles;
      var oldSize := |beam.particles|;
      beam.particles := beam.particles + seq(nghost, _ => blank);
      for idx := 0 to nghost
        invariant |beam.particles| == oldSize + nghost
        invariant forall k :: 0 <= k < oldSize ==> beam.particles[k] == was[k]
        invariant forall k :: oldSize <= k < oldSize + idx ==> beam.particles[k] == was[k - oldSize + left]
      {
        beam.particles := beam.particles[oldSize + idx := beam.particles[left + idx]];
      }
    }

    /** CheckGhostSlice: the ghosts of box `it` that are outside the slice below the box become invalid. */
    method CheckGhostSlice(it: nat, g: Geometry)
      requires Valid() && it < |g.edges| && forall i :: 0 <= i < |beams| ==> nReal[i] <= |beams[i].particles|
      modifies set i | 0 <= i < |beams| :: beams[i]
      ensures forall i :: 0 <= i < |beams| ==> nReal[i] <= |old(beams[i].particles)|
      ensures forall i :: 0 <= i < |beams| ==> beams[i].particles == if it == 0 then old(beams[i].particles)
                      else old(beams[i].particles[..nReal[i]]) + CheckGhosts(g, g.edges[it], old(beams[i].particles[nReal[i]..]))
    {
      if it == 0 { return; }
      for i := 0 to |beams|
        invariant forall j :: 0 <= j < i ==>
          beams[j].particles == old(beams[j].particles[..nReal[j]]) + CheckGhosts(g, g.edges[it], old(beams[j].particles[nReal[j]..]))
        invariant forall j :: i <= j < |beams| ==> beams[j].particles == old(beams[j].particles)
      {
        CheckOne(beams[i], nReal[i], g, g.edges[it]);
      }
    }

    method CheckOne(beam: BeamTile, nreal: nat, g: Geometry, ilo: int)
      requires nreal <= |beam.particles|
      modifies beam
      ensures beam.particles == old(beam.particles[..nreal]) + CheckGhosts(g, ilo, old(beam.particles[nreal..]))
    {
      var zmin, zmax := g.face(ilo - 1), g.face(ilo);
      for i := nreal to |beam.particles|
        invariant |beam.particles| == |old(beam.particles)|
        invariant forall j :: 0 <= j < |beam.particles| ==>
          beam.particles[j] == if nreal <= j < i then CheckGhost(g, ilo, old(beam.particles[j])) else old(beam.particles[j])
      {
        var zp := beam.particles[i].z;
        if zp < zmin || zp > zmax {
          beam.particles := beam.particles[i := beam.particles[i].(id := -1)];
        }
      }
    }

    /** Drops the ghosts. */
    method RemoveGhosts()
      requires Valid() && forall i :: 0 <= i < |beams| ==> nReal[i] <= |beams[i].particles|
      modifies set i | 0 <= i < |beams| :: beams[i]
      ensures forall i :: 0 <= i < |beams| ==> nReal[i] <= |old(beams[i].particles)| && beams[i].particles == old(beams[i].particles[..nReal[i]])
    {
      for i := 0 to |beams|
        invariant forall j :: 0 <= j < i ==> beams[j].particles == old(beams[j].particles[..nReal[j]])
        invariant forall j :: i <= j < |beams| ==> beams[j].particles == old(beams[j].particles)
      {
        beams[i].particles := beams[i].particles[..nReal[i]];
      }
    }

    /** Packing, checking and removing ghosts is undone completely: whatever happened to the ghosts in between, the
        real particles are back as they were stored. */
    method GhostRoundTrip(it: nat, sorters: seq<BoxSorter>, g: Geometry, blank: Particle)
      requires Valid() && |sorters| == |beams| && it + 1 < |g.edges|
      requires forall i :: 0 <= i < |beams| ==> BoxInside(sorters[i].offsets, it, |beams[i].particles|)
      modifies this, set i | 0 <= i < |beams| :: beams[i]
      ensures forall i :: 0 <= i < |beams| ==> beams[i].particles == old(beams[i].particles)
    {
      StoreNRealParticles();
      PackLocalGhostParticles(it, sorters, blank);
      CheckGhostSlice(it + 1, g);
      RemoveGhosts();
    }
  }
}
