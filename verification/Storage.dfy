/** The arrays of class Atom, and how they grow: growarray allocates new arrays and copies
    nothing into them. */
module Storage {

  /** DELTA, and the first allocation less DELTA. */
  const DELTA := 20000
  const FIRST := 300000

  /** nmax after growarray. */
  function Grown(nmax: nat): nat { (if nmax == 0 then FIRST else nmax) + DELTA }

  /** Entries that can be stored without losing any: growing from nothing loses nothing. */
  function Room(nmax: nat): nat { if nmax == 0 then Grown(0) else nmax }

  /** What fresh memory happens to hold, by the size of the array and the index. */
  type Junk<T> = (nat, nat) -> T

  /** live are the entries in use, the first of nmax. */
  datatype Store<T> = Store(live: seq<T>, nmax: nat) {
    predicate Valid() { |live| <= nmax }
  }

  function Fresh<T>(n: nat, size: nat, junk: Junk<T>): (r: seq<T>)
    ensures |r| == n && forall i :: 0 <= i < n ==> r[i] == junk(size, i)
  {
    seq(n, i requires 0 <= i < n => junk(size, i))
  }

  /** The entry after the last one, as addatom, unpack_exchange and unpack_border store
      it. */
  function Put<T>(s: Store<T>, v: T, junk: Junk<T>): (r: Store<T>)
    requires s.Valid()
    ensures r.Valid() && |r.live| == |s.live| + 1
  {
    if |s.live| == s.nmax then Store(Fresh(s.nmax, Grown(s.nmax), junk) + [v], Grown(s.nmax))
    else Store(s.live + [v], s.nmax)
  }

  function PutAll<T>(s: Store<T>, vs: seq<T>, junk: Junk<T>): (r: Store<T>)
    requires s.Valid()
    ensures r.Valid() && |r.live| == |s.live| + |vs|
  {
    if vs == [] then s else Put(PutAll(s, vs[..|vs| - 1], junk), vs[|vs| - 1], junk)
  }

  /** The array has been replaced while it was in use, and its first entries are still
      what the new memory held. */
  ghost predicate Lost<T>(s: Store<T>, junk: Junk<T>, full: nat) {
    0 < full <= |s.live| && Grown(full) == s.nmax && forall i :: 0 <= i < full ==> s.live[i] == junk(s.nmax, i)
  }

  /** While there is room nothing is lost; beyond it everything there was is. */
  lemma {:induction false} PutAllKeeps<T>(s: Store<T>, vs: seq<T>, junk: Junk<T>)
    requires s.Valid()
    ensures var r := PutAll(s, vs, junk);
            if |s.live| + |vs| <= Room(s.nmax) then
              r.live == s.live + vs && r.nmax == if vs == [] then s.nmax else Room(s.nmax)
            else exists full :: Lost(r, junk, full) && Room(s.nmax) <= full
  {
    if vs != [] {
      var n := |vs| - 1;
      PutAllKeeps(s, vs[..n], junk);
      assert vs == vs[..n] + [vs[n]];
      var q := PutAll(s, vs[..n], junk);
      if |s.live| + n > Room(s.nmax) {
        var full :| Lost(q, junk, full) && Room(s.nmax) <= full;
        var next := if |q.live| == q.nmax then q.nmax else full;
        assert Lost(PutAll(s, vs, junk), junk, next);
      } else if |s.live| + |vs| > Room(s.nmax) {
        assert |q.live| == q.nmax == Room(s.nmax);
        assert Lost(PutAll(s, vs, junk), junk, Room(s.nmax));
      }
    }
  }

  /** Once lost, always lost. */
  lemma {:induction false} StaysLost<T>(s: Store<T>, vs: seq<T>, junk: Junk<T>, full: nat)
    requires s.Valid() && Lost(s, junk, full)
    ensures exists o :: Lost(PutAll(s, vs, junk), junk, o) && full <= o
  {
    if vs == [] {
      assert Lost(PutAll(s, vs, junk), junk, full);
    } else {
      StaysLost(s, vs[..|vs| - 1], junk, full);
      var q := PutAll(s, vs[..|vs| - 1], junk);
      var o :| Lost(q, junk, o) && full <= o;
      var next := if |q.live| == q.nmax then q.nmax else o;
      assert Lost(PutAll(s, vs, junk), junk, next);
    }
  }

  /** Storing more entries keeps those there are, whatever fresh memory holds, exactly if
      there is room for all. a and b are two values an entry can have. */
  lemma KeptExactly<T(!new)>(s: Store<T>, vs: seq<T>, a: T, b: T)
    requires s.Valid() && a != b
    ensures (forall junk: Junk<T> :: PutAll(s, vs, junk).live == s.live + vs) <==> |s.live| + |vs| <= Room(s.nmax)
  {
    if |s.live| + |vs| <= Room(s.nmax) {
      forall junk: Junk<T> ensures PutAll(s, vs, junk).live == s.live + vs { PutAllKeeps(s, vs, junk); }
    } else {
      var other := if (s.live + vs)[0] == a then b else a;
      var junk: Junk<T> := (_, _) => other;
      PutAllKeeps(s, vs, junk);
      assert PutAll(s, vs, junk).live[0] == other;
    }
  }

  /** A full array of the first size takes one more atom: no entry before it survives. */
  lemma OverflowExample<T(!new)>(s: Store<T>, v: T, junk: Junk<T>)
    requires |s.live| == s.nmax == 320000
    ensures PutAll(s, [v], junk).live == Fresh(320000, 340000, junk) + [v] && PutAll(s, [v], junk).nmax == 340000
  {
    assert [v][..0] == [];
  }
}
