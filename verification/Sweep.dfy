/**
  The migration of spendable outputs left by older versions: from many files, through one, to the
  sweeper, on a disk that keeps what it is told while the process may die between any two steps.
*/
module Sweep {
  import opened Directory
  import Hex

  /** LDK's three kinds of descriptor; what is in them plays no part here. */
  datatype Descriptor =
    | StaticOutput(fields: seq<nat>)
    | DelayedPaymentOutput(fields: seq<nat>)
    | StaticPaymentOutput(fields: seq<nat>)

  /** How a descriptor is written, and read off the front of some bytes with how many it took. */
  datatype Codec = Codec(write: Descriptor -> Bytes, read: Bytes -> Option<(Descriptor, nat)>)

  /** A reader takes at least a byte, no more than there are, and never looks beyond those it takes. */
  ghost predicate SelfDelimiting(c: Codec) {
    && (forall b: Bytes :: c.read(b).Some? ==> 0 < c.read(b).value.1 <= |b|)
    && (forall b: Bytes, more: Bytes :: c.read(b).Some? ==> c.read(b + more) == c.read(b))
  }

  ghost predicate ReadsBack(c: Codec) {
    forall d: Descriptor :: c.read(c.write(d)) == Some((d, |c.write(d)|))
  }

  // ---------- the bytes of a file ----------

  /** All the descriptors in a file, or None if it does not consist of descriptors. */
  ghost function Parse(c: Codec, b: Bytes): Option<seq<Descriptor>>
    decreases |b|
  {
    if b == [] then Some([])
    else match c.read(b)
      case None => None
      case Some((d, n)) =>
        if 0 < n <= |b| then
          match Parse(c, b[n..]) case None => None case Some(rest) => Some([d] + rest)
        else None
  }

  ghost predicate Whole(c: Codec, b: Bytes) {
    Parse(c, b).Some?
  }

  function WriteAll(c: Codec, ds: seq<Descriptor>): Bytes {
    if ds == [] then [] else c.write(ds[0]) + WriteAll(c, ds[1..])
  }

  lemma ReadAhead(c: Codec, a: Bytes, b: Bytes) returns (n: nat)
    requires SelfDelimiting(c) && c.read(a).Some?
    ensures n == c.read(a).value.1 && 0 < n <= |a|
    ensures c.read(a + b) == c.read(a) && (a + b)[n..] == a[n..] + b
  {
    n := c.read(a).value.1;
  }

  /** Files put end to end hold the descriptors of each, in order. */
  lemma {:induction false} ParseConcat(c: Codec, a: Bytes, b: Bytes)
    requires SelfDelimiting(c) && Whole(c, a)
    ensures Whole(c, a + b) <==> Whole(c, b)
    ensures Whole(c, b) ==> Parse(c, a + b) == Some(Parse(c, a).value + Parse(c, b).value)
    decreases |a|
  {
    hide SelfDelimiting;
    if a == [] {
      assert a + b == b;
      if Whole(c, b) {
        assert Parse(c, a).value + Parse(c, b).value == Parse(c, b).value;
      }
    } else {
      var n := ReadAhead(c, a, b);
      ParseConcat(c, a[n..], b);
      if Whole(c, b) {
        var d, rest := c.read(a).value.0, Parse(c, a[n..]).value;
        assert Parse(c, a).value + Parse(c, b).value == [d] + (rest + Parse(c, b).value);
      }
    }
  }

  /** What was written is what is read, whatever the descriptors and however many. */
  lemma {:induction false} ParseWritten(c: Codec, ds: seq<Descriptor>)
    requires SelfDelimiting(c) && ReadsBack(c)
    ensures Parse(c, WriteAll(c, ds)) == Some(ds)
  {
    if ds != [] {
      ParseWritten(c, ds[1..]);
      var one := c.write(ds[0]);
      assert c.read(one) == Some((ds[0], |one|));
      assert Parse(c, one[|one|..]) == Some([]);
      assert Parse(c, one) == Some([ds[0]] + []);
      ParseConcat(c, one, WriteAll(c, ds[1..]));
      assert [ds[0]] + [] + ds[1..] == ds;
    }
  }

  // ---------- the files of a directory ----------

  type Name = string
  type Dir = map<Name, Bytes>

  /** Names of this length are 32 bytes in hex; a file with any other may be a temporary one. */
  const HEX_NAME := 64

  function Files(dir: Option<Dir>): Dir {
    if dir.Some? then dir.value else map[]
  }

  function ToMove(dir: Dir): Dir {
    map n | n in dir && |n| == HEX_NAME :: dir[n]
  }

  function ToLeave(dir: Dir): Dir {
    map n | n in dir && |n| != HEX_NAME :: dir[n]
  }

  /** The files to move are those named as 32 bytes are printed in hex, or at as much length. */
  lemma HexNamesMove(dir: Dir, v: Bytes, n: Name)
    requires |v| == 32
    ensures |n| == |Hex.Encode(v)| && n in dir ==> n in ToMove(dir) && n !in ToLeave(dir) && ToMove(dir)[n] == dir[n]
    ensures |n| != |Hex.Encode(v)| ==> n !in ToMove(dir)
    ensures |n| != |Hex.Encode(v)| && n in dir ==> n in ToLeave(dir) && ToLeave(dir)[n] == dir[n]
  {
    Hex.EncodeLength(v);
  }

  ghost predicate AllWhole(c: Codec, dir: Dir) {
    forall n :: n in dir ==> Whole(c, dir[n])
  }

  predicate AllEmpty(dir: Dir) {
    forall n :: n in dir ==> dir[n] == []
  }

  ghost function Items(c: Codec, b: Bytes): multiset<Descriptor> {
    if Whole(c, b) then multiset(Parse(c, b).value) else multiset{}
  }

  /** The descriptors of all the files in a directory. */
  ghost function Total(c: Codec, dir: Dir): multiset<Descriptor>
    decreases |dir|
  {
    if dir == map[] then multiset{}
    else
      var n :| n in dir;
      Items(c, dir[n]) + Total(c, dir - {n})
  }

  /** In whatever order the files come. */
  lemma {:induction false} TotalWithout(c: Codec, dir: Dir, n: Name)
    requires n in dir
    ensures Total(c, dir) == Items(c, dir[n]) + Total(c, dir - {n})
    decreases |dir|
  {
    hide Items;
    var m :| m in dir && Total(c, dir) == Items(c, dir[m]) + Total(c, dir - {m});
    if m != n {
      TotalWithout(c, dir - {m}, n);
      TotalWithout(c, dir - {n}, m);
      assert dir - {m} - {n} == dir - {n} - {m};
    }
  }

  /** A file to which descriptors were written holds just those. */
  lemma ItemsWritten(c: Codec, ds: seq<Descriptor>)
    requires SelfDelimiting(c) && ReadsBack(c)
    ensures Items(c, WriteAll(c, ds)) == multiset(ds)
  {
    ParseWritten(c, ds);
  }

  /** The total of a directory has what is in each of its files. */
  lemma TotalHas(c: Codec, dir: Dir, n: Name, ds: seq<Descriptor>)
    requires SelfDelimiting(c) && ReadsBack(c) && n in dir && dir[n] == WriteAll(c, ds)
    ensures multiset(ds) <= Total(c, dir)
  {
    hide Items;
    hide SelfDelimiting;
    hide ReadsBack;
    ItemsWritten(c, ds);
    TotalWithout(c, dir, n);
  }

  /** A file of these bytes is there to be migrated. */
  ghost predicate ToMigrate(pending: Option<Dir>, processing: Option<Dir>, spendable: Option<Dir>, n: Name, b: Bytes) {
    || (pending.Some? && n in pending.value && |n| == 64 && pending.value[n] == b)
    || (processing.Some? && n in processing.value && processing.value[n] == b)
    || (spendable.Some? && n in spendable.value && spendable.value[n] == b)
  }

  /** Whoever has the totals has what was written to each file. */
  lemma TotalsHave(c: Codec, pending: Option<Dir>, processing: Option<Dir>, spendable: Option<Dir>,
                   a: multiset<Descriptor>)
    requires SelfDelimiting(c) && ReadsBack(c)
    requires a >= Total(c, ToMove(Files(pending))) + Total(c, Files(processing)) + Total(c, Files(spendable))
    ensures forall n, ds :: ToMigrate(pending, processing, spendable, n, WriteAll(c, ds)) ==> multiset(ds) <= a
  {
    hide Total;
    hide WriteAll;
    hide SelfDelimiting;
    hide ReadsBack;
    forall n, ds | ToMigrate(pending, processing, spendable, n, WriteAll(c, ds)) ensures multiset(ds) <= a {
      if pending.Some? && n in pending.value && |n| == 64 && pending.value[n] == WriteAll(c, ds) {
        TotalHas(c, ToMove(pending.value), n, ds);
      } else if processing.Some? && n in processing.value && processing.value[n] == WriteAll(c, ds) {
        TotalHas(c, processing.value, n, ds);
      } else {
        TotalHas(c, spendable.value, n, ds);
      }
    }
  }

  lemma TotalWith(c: Codec, dir: Dir, n: Name, b: Bytes)
    requires n !in dir
    ensures Total(c, dir[n := b]) == Items(c, b) + Total(c, dir)
  {
    TotalWithout(c, dir[n := b], n);
    assert dir[n := b] - {n} == dir;
  }

  lemma TotalEmptied(c: Codec, dir: Dir)
    requires AllEmpty(dir)
    ensures Total(c, dir) == multiset{}
    decreases |dir|
  {
    if dir != map[] {
      var n :| n in dir;
      TotalWithout(c, dir, n);
      TotalEmptied(c, dir - {n});
    }
  }

  /** All the files of one directory are in the other. */
  ghost predicate Within(small: Dir, big: Dir) {
    forall n :: n in small ==> n in big && big[n] == small[n]
  }

  lemma WholeWithin(c: Codec, small: Dir, big: Dir)
    requires Within(small, big) && AllWhole(c, big)
    ensures AllWhole(c, small)
  {
    hide Whole;
  }

  lemma NothingIsWhole(c: Codec)
    ensures AllWhole(c, map[])
  {
  }

  lemma NothingTotals(c: Codec)
    ensures ToMove(map[]) == map[] && Total(c, map[]) == multiset{}
  {
  }

  lemma WholeWith(c: Codec, dir: Dir, n: Name, b: Bytes)
    requires n !in dir && Whole(c, b)
    ensures AllWhole(c, dir[n := b]) <==> AllWhole(c, dir)
  {
    hide Whole;
    if AllWhole(c, dir[n := b]) {
      WholeWithin(c, dir, dir[n := b]);
    }
  }

  lemma {:induction false} TotalGrows(c: Codec, small: Dir, big: Dir)
    requires Within(small, big)
    ensures Total(c, small) <= Total(c, big)
    decreases |small|
  {
    hide Items;
    if small != map[] {
      var n :| n in small;
      TotalWithout(c, small, n);
      TotalWithout(c, big, n);
      TotalGrows(c, small - {n}, big - {n});
    } else {
      assert Total(c, small) == multiset{};
    }
  }

  // ---------- moving, while some files are still to be looked at ----------

  function Left(dir: Dir, todo: set<Name>): Dir {
    map n | n in dir && (n in todo || |n| != HEX_NAME) :: dir[n]
  }

  function Moved(dir: Dir, todo: set<Name>): Dir {
    map n | n in dir && n !in todo && |n| == HEX_NAME :: dir[n]
  }

  ghost predicate NoneInBoth(pending: Dir, processing: Dir) {
    forall n :: n in pending && |n| == HEX_NAME ==> n !in processing
  }

  lemma MovingStarts(from: Dir, to: Dir)
    ensures Left(from, from.Keys) == from && to + Moved(from, from.Keys) == to
  {
  }

  lemma MovingEnds(from: Dir)
    ensures Left(from, {}) == ToLeave(from) && Moved(from, {}) == ToMove(from)
  {
  }

  lemma MovingGoesOn(from: Dir, to: Dir, todo: set<Name>, n: Name)
    requires n in todo && todo <= from.Keys && NoneInBoth(from, to)
    ensures |n| != HEX_NAME ==> Left(from, todo - {n}) == Left(from, todo)
    ensures |n| != HEX_NAME ==> Moved(from, todo - {n}) == Moved(from, todo)
    ensures |n| == HEX_NAME ==> Left(from, todo - {n}) == Left(from, todo) - {n}
    ensures |n| == HEX_NAME ==> to + Moved(from, todo - {n}) == (to + Moved(from, todo))[n := from[n]]
  {
  }

  /** However far the moving has come, every descriptor is in one of the two directories. */
  lemma {:induction false} MovingKeepsTotal(c: Codec, from: Dir, to: Dir, todo: set<Name>)
    requires todo <= from.Keys && NoneInBoth(from, to)
    ensures Total(c, ToMove(Left(from, todo))) + Total(c, to + Moved(from, todo))
      == Total(c, ToMove(from)) + Total(c, to)
    decreases from.Keys - todo
  {
    hide Total;
    hide Left;
    hide Moved;
    MovingStarts(from, to);
    if todo != from.Keys {
      var n :| n in from && n !in todo;
      MovingKeepsTotal(c, from, to, todo + {n});
      assert todo + {n} - {n} == todo;
      MovingGoesOn(from, to, todo + {n}, n);
      if |n| == HEX_NAME {
        MovesOne(c, from, to, todo + {n}, n);
      }
    }
  }

  lemma MovesOne(c: Codec, from: Dir, to: Dir, todo: set<Name>, n: Name)
    requires n in todo && todo <= from.Keys && NoneInBoth(from, to) && |n| == HEX_NAME
    ensures Total(c, ToMove(Left(from, todo))) == Items(c, from[n]) + Total(c, ToMove(Left(from, todo) - {n}))
    ensures Total(c, (to + Moved(from, todo))[n := from[n]]) == Items(c, from[n]) + Total(c, to + Moved(from, todo))
  {
    hide Total;
    hide Items;
    var a := ToMove(Left(from, todo));
    assert ToMove(Left(from, todo) - {n}) == a - {n};
    TotalWithout(c, a, n);
    TotalWith(c, to + Moved(from, todo), n, from[n]);
  }

  lemma MovingKeepsAll(from: Dir, to: Dir, todo: set<Name>)
    requires NoneInBoth(from, to)
    ensures to + Moved(from, todo) + ToMove(Left(from, todo)) == to + ToMove(from)
  {
  }

  lemma MovingKeepsSound(c: Codec, from: Dir, to: Dir, todo: set<Name>)
    requires NoneInBoth(from, to) && AllWhole(c, ToMove(from)) && AllWhole(c, to)
    ensures NoneInBoth(Left(from, todo), to + Moved(from, todo))
    ensures AllWhole(c, ToMove(Left(from, todo))) && AllWhole(c, to + Moved(from, todo))
  {
    hide Whole;
  }

  lemma NoneLeftToMove(pending: Dir)
    ensures ToMove(ToLeave(pending)) == map[] && ToMove(map[]) == map[]
  {
  }

  lemma TotalRemaining(c: Codec, dir: Dir, a: multiset<Descriptor>)
    ensures AllEmpty(dir) ==> Total(c, dir) + a == a
  {
    if AllEmpty(dir) {
      TotalEmptied(c, dir);
    }
  }

  /** Everything pending and processing, in one directory. */
  lemma TotalGathered(c: Codec, pending: Dir, processing: Dir)
    requires NoneInBoth(pending, processing)
    ensures Total(c, processing + ToMove(pending)) == Total(c, ToMove(pending)) + Total(c, processing)
    ensures AllEmpty(processing + ToMove(pending)) ==> Total(c, ToMove(pending)) == Total(c, processing) == multiset{}
  {
    NoneLeftToMove(pending);
    MovingKeepsTotal(c, pending, processing, {});
    MovingEnds(pending);
    if AllEmpty(processing + ToMove(pending)) {
      TotalEmptied(c, processing + ToMove(pending));
    }
  }

  // ---------- putting files end to end, while some are still to be read ----------

  /** `outputs` is what has been read of the files `all`, and `rest` are those still to be read. */
  ghost predicate Collected(c: Codec, all: Dir, rest: Dir, outputs: Bytes) {
    && (forall n :: n in rest ==> n in all && rest[n] == all[n])
    && (outputs == [] <==> AllEmpty(all - rest.Keys))
    && (AllWhole(c, all) ==> Whole(c, outputs) && Items(c, outputs) + Total(c, rest) == Total(c, all))
  }

  lemma CollectsNone(c: Codec, all: Dir)
    ensures Collected(c, all, all, [])
  {
  }

  lemma CollectsAll(c: Codec, all: Dir, outputs: Bytes)
    requires Collected(c, all, map[], outputs)
    ensures outputs == [] <==> AllEmpty(all)
    ensures AllWhole(c, all) ==> Whole(c, outputs) && Items(c, outputs) == Total(c, all)
  {
    hide Whole;
    hide Items;
    var none: Dir := map[];
    assert all - none.Keys == all;
  }

  lemma CollectsOne(c: Codec, all: Dir, rest: Dir, outputs: Bytes, n: Name)
    requires SelfDelimiting(c) && Collected(c, all, rest, outputs) && n in rest
    ensures Collected(c, all, rest - {n}, outputs + rest[n])
  {
    hide Total;
    hide Parse;
    hide SelfDelimiting;
    var more := all - (rest - {n}).Keys;
    assert more == (all - rest.Keys)[n := rest[n]];
    assert more[n] == rest[n] && forall m :: m in all - rest.Keys ==> more[m] == (all - rest.Keys)[m];
    if AllWhole(c, all) {
      ParseConcat(c, outputs, rest[n]);
      TotalWithout(c, rest, n);
    }
  }

  lemma FewerStaySound(c: Codec, small: Dir, big: Dir, processing: Dir)
    requires Within(small, big) && NoneInBoth(big, processing) && AllWhole(c, ToMove(big))
    ensures NoneInBoth(small, processing) && AllWhole(c, ToMove(small))
    ensures ToMove(big) == map[] ==> ToMove(small) == map[]
    ensures Total(c, ToMove(big)) == multiset{} ==> Total(c, ToMove(small)) == multiset{}
  {
    hide Whole;
    hide Total;
    WholeWithin(c, ToMove(small), ToMove(big));
    TotalGrows(c, ToMove(small), ToMove(big));
    if small != map[] && ToMove(big) == map[] {
      forall n | n in small ensures |n| != HEX_NAME {
        assert n !in ToMove(big);
      }
    }
  }

  ghost predicate ReadSoFar(c: Codec, all: Dir, rest: Dir, found: seq<Descriptor>) {
    && (forall n :: n in rest ==> n in all && rest[n] == all[n])
    && (forall n :: n in all && n !in rest ==> Whole(c, all[n]))
    && multiset(found) + Total(c, rest) == Total(c, all)
  }

  lemma ReadsNone(c: Codec, all: Dir)
    ensures ReadSoFar(c, all, all, [])
  {
  }

  lemma ReadsOnlyThese(c: Codec, all: Dir, rest: Dir, found: seq<Descriptor>, n: Name)
    requires ReadSoFar(c, all, rest, found) && n in rest
    ensures n in all && rest[n] == all[n]
  {
  }

  lemma ReadsAll(c: Codec, all: Dir, found: seq<Descriptor>)
    requires ReadSoFar(c, all, map[], found)
    ensures AllWhole(c, all) && multiset(found) == Total(c, all)
  {
  }

  lemma ReadsOne(c: Codec, all: Dir, rest: Dir, found: seq<Descriptor>, n: Name)
    requires ReadSoFar(c, all, rest, found) && n in rest && Whole(c, rest[n])
    ensures ReadSoFar(c, all, rest - {n}, found + Parse(c, rest[n]).value)
  {
    hide Parse;
    hide Total;
    TotalWithout(c, rest, n);
  }

  lemma NothingAdds(a: multiset<Descriptor>, b: multiset<Descriptor>)
    ensures Sum(multiset{}, a, multiset{}, b) == a + b
  {
  }

  /** What is pending, in processing, spendable and accepted, together. */
  ghost function Sum(p: multiset<Descriptor>, q: multiset<Descriptor>, s: multiset<Descriptor>, a: multiset<Descriptor>)
    : multiset<Descriptor>
  {
    p + q + s + a
  }

  /** What could not be listed held nothing. */
  ghost predicate KeptFrom(p: multiset<Descriptor>, g: multiset<Descriptor>, s: multiset<Descriptor>,
                           list: Listable, packs: bool)
  {
    && (list.pending || p == multiset{})
    && (list.spendable || (s == multiset{} && (packs ==> g == multiset{})))
  }

  /** Of what was spendable (s), beside what is not touched (p, q), what is kept by a start that has
      deleted it, with `h` handed over and so `a1` accepted. */
  lemma Deleted(p: multiset<Descriptor>, q: multiset<Descriptor>, s: multiset<Descriptor>, a: multiset<Descriptor>,
                a1: multiset<Descriptor>, h: multiset<Descriptor>, listed: bool)
    requires a1 == a + h && h == if listed then s else multiset{}
    ensures Sum(p, q, multiset{}, a1) >= Sum(p, q, s, a) <==> listed || s == multiset{}
  {
    if p + q + multiset{} + a1 >= p + q + s + a && !listed {
      forall d ensures s[d] == 0 { assert (p + q + multiset{} + a1)[d] >= (p + q + s + a)[d]; }
    }
  }

  /** What is kept by one that holds nothing it deletes unread, however far it gets. */
  lemma DeletedOrNot(p: multiset<Descriptor>, q: multiset<Descriptor>, s: multiset<Descriptor>, a: multiset<Descriptor>,
                     p1: multiset<Descriptor>, s1: multiset<Descriptor>, a1: multiset<Descriptor>,
                     h: multiset<Descriptor>)
    requires p == multiset{} && (a1 == a + h || (a1 == a && s1 == s))
    requires h == s || s == multiset{}
    ensures Sum(p1, q, s1, a1) >= Sum(p, q, s, a)
  {
  }

  ghost predicate HandedAll(p: multiset<Descriptor>, q: multiset<Descriptor>, s: multiset<Descriptor>,
                            a: multiset<Descriptor>, a1: multiset<Descriptor>, list: Listable, packs: bool) {
    list.spendable && (packs || p == q == multiset{}) ==> a1 == a + (p + q + s)
  }

  /** Of what was pending (p), in processing (q), spendable (s) and accepted (a), what is kept by a
      start that ends with `q1` in processing and `a1` accepted. */
  lemma Tally(p: multiset<Descriptor>, q: multiset<Descriptor>, s: multiset<Descriptor>, a: multiset<Descriptor>,
              q1: multiset<Descriptor>, a1: multiset<Descriptor>, list: Listable, packs: bool)
    requires packs ==> list.pending
    requires q1 == if !list.pending then q else if packs then multiset{} else p + q
    requires a1 == a + if !list.spendable then multiset{} else if packs then s + (p + q) else s
    ensures q1 + a1 >= Sum(p, q, s, a) <==> KeptFrom(p, p + q, s, list, packs)
    ensures HandedAll(p, q, s, a, a1, list, packs)
  {
    if q1 + a1 >= p + q + s + a {
      if !list.pending {
        forall d ensures p[d] == 0 { assert (q1 + a1)[d] >= (p + q + s + a)[d]; }
      }
      if !list.spendable {
        forall d ensures s[d] == 0 && (packs ==> p[d] + q[d] == 0) { assert (q1 + a1)[d] >= (p + q + s + a)[d]; }
        assert packs ==> forall d :: (p + q)[d] == 0;
      }
    }
  }

  // ---------- the migration ----------

  /** Whether any directory that is there is seen to be, and which, if they are there, can be listed. */
  datatype Listable = Listable(seen: bool, pending: bool, processing: bool, spendable: bool)

  const ALL_LISTABLE := Listable(true, true, true, true)

  /** Panicked is an unwrap that had to fail; Died is any other end: a kill, or an I/O error. */
  datatype Exit = NothingToDo | Done | Panicked | Died

  /** The process is not made to die at any point from the `a`-th up to the `b`-th. */
  ghost predicate Calm(stops: nat -> bool, a: nat, b: nat) {
    forall i :: a <= i < b ==> !stops(i)
  }

  lemma CalmMore(stops: nat -> bool, a: nat, b: nat)
    requires a <= b
    ensures Calm(stops, a, a)
    ensures Calm(stops, a, b + 1) <==> Calm(stops, a, b) && !stops(b)
  {
  }

  class DataDir {
    const codec: Codec
    const stops: nat -> bool       // the points at which the process dies, as it comes to them
    var step: nat                  // how many it has come to
    var pending: Option<Dir>
    var processing: Option<Dir>
    var spendable: Option<Dir>
    /** What the sweeper has taken charge of. */
    var accepted: seq<Descriptor>

    constructor (c: Codec, pending0: Option<Dir>, processing0: Option<Dir>, spendable0: Option<Dir>,
                 stops0: nat -> bool)
      ensures codec == c && stops == stops0 && step == 0 && accepted == []
      ensures pending == pending0 && processing == processing0 && spendable == spendable0
    {
      codec, stops, step := c, stops0, 0;
      pending, processing, spendable, accepted := pending0, processing0, spendable0, [];
    }

    /** The files to migrate consist of descriptors, and no file is waiting to replace another. */
    ghost predicate Sound()
      reads this
    {
      && SelfDelimiting(codec) && NoneInBoth(Files(pending), Files(processing))
      && AllWhole(codec, ToMove(Files(pending))) && AllWhole(codec, Files(processing))
    }

    /** The descriptors waiting to be moved, those being processed, and those ready for the sweeper. */
    ghost function InPending(): multiset<Descriptor>
      reads this
    {
      Total(codec, ToMove(Files(pending)))
    }

    ghost function InProcessing(): multiset<Descriptor>
      reads this
    {
      Total(codec, Files(processing))
    }

    ghost function InSpendable(): multiset<Descriptor>
      reads this
    {
      Total(codec, Files(spendable))
    }

    /** Every file ready for the sweeper consists of descriptors. */
    ghost predicate Readable()
      reads this
    {
      AllWhole(codec, Files(spendable))
    }

    /** Every descriptor that is on disk, or with the sweeper, as often as it is. */
    ghost function Held(): multiset<Descriptor>
      reads this
    {
      Sum(InPending(), InProcessing(), InSpendable(), multiset(accepted))
    }

    /** What is found in the processing directory once the pending files are there too. */
    ghost function Gathered(): Dir
      reads this
    {
      Files(processing) + ToMove(Files(pending))
    }

    /** Does the process die here? */
    method Dies() returns (b: bool)
      modifies this`step
      ensures b == stops(old(step)) && step == old(step) + 1
    {
      b := stops(step);
      step := step + 1;
    }

    method MoveFile(n: Name) returns (alive: bool)
      requires pending.Some? && n in pending.value
      modifies this`pending, this`processing, this`step
      ensures alive == !stops(old(step)) && step == old(step) + 1
      ensures pending == if alive then Some(old(pending.value) - {n}) else old(pending)
      ensures alive ==> Files(processing) == old(Files(processing))[n := old(pending.value)[n]]
      ensures !alive ==> Files(processing) == old(Files(processing))
    {
      processing := Some(Files(processing));
      var dies := Dies();
      if dies {
        return false;
      }
      processing := Some(processing.value[n := pending.value[n]]);
      pending := Some(pending.value - {n});
      return true;
    }

    /** Move what is pending out of the way of new files. */
    method MoveAside() returns (alive: bool)
      requires pending.Some? && Sound()
      modifies this`pending, this`processing, this`step
      ensures old(step) <= step && (alive <==> Calm(stops, old(step), step))
      ensures Sound() && Held() == old(Held()) && Gathered() == old(Gathered()) && pending.Some?
      ensures alive ==> pending == Some(ToLeave(old(pending).value)) && Files(processing) == old(Gathered())
    {
      ghost var from, to := pending.value, Files(processing);
      assert NoneInBoth(from, to) && AllWhole(codec, ToMove(from)) && AllWhole(codec, to);
      hide NoneInBoth;
      hide AllWhole;
      hide SelfDelimiting;
      hide Total;
      hide ToMove;
      hide ToLeave;
      hide Calm;
      MovingStarts(from, to);
      CalmMore(stops, step, step);
      var todo := pending.value.Keys;
      alive := true;
      while todo != {}
        invariant todo <= from.Keys && pending == Some(Left(from, todo)) && Files(processing) == to + Moved(from, todo)
        invariant alive && old(step) <= step && Calm(stops, old(step), step)
        decreases todo
      {
        hide Left;
        hide Moved;
        var n :| n in todo;
        MovingGoesOn(from, to, todo, n);
        if |n| == HEX_NAME {
          CalmMore(stops, old(step), step);
          alive := MoveFile(n);
          if !alive {
            break;
          }
        }
        todo := todo - {n};
      }
      MovingEnds(from);
      MovingKeepsTotal(codec, from, to, todo);
      MovingKeepsSound(codec, from, to, todo);
      MovingKeepsAll(from, to, todo);
    }

    /** All the bytes of the files being processed, end to end, in any order. */
    method Concatenate() returns (outputs: Bytes)
      requires SelfDelimiting(codec)
      ensures AllWhole(codec, Files(processing)) ==>
        Whole(codec, outputs) && Items(codec, outputs) == InProcessing()
      ensures outputs == [] <==> AllEmpty(Files(processing))
    {
      hide SelfDelimiting;
      hide Collected;
      hide Whole;
      hide AllWhole;
      hide AllEmpty;
      hide Items;
      hide Total;
      outputs := [];
      var rest := Files(processing);
      CollectsNone(codec, rest);
      while rest != map[]
        invariant Collected(codec, Files(processing), rest, outputs)
        decreases |rest|
      {
        var n :| n in rest;
        CollectsOne(codec, Files(processing), rest, outputs, n);
        outputs := outputs + rest[n];
        rest := rest - {n};
      }
      CollectsAll(codec, Files(processing), outputs);
    }

    predicate Unused(key: Name, temp: Name)
      reads this
    {
      key != temp && key !in Files(spendable) && temp !in Files(spendable)
    }

    /** A write of the store, which a death may leave as a temporary file with part of the bytes. */
    method StoreOutputs(key: Name, temp: Name, outputs: Bytes) returns (alive: bool)
      requires Unused(key, temp)
      modifies this`spendable, this`step
      ensures old(step) <= step && (alive <==> Calm(stops, old(step), step))
      ensures alive ==> spendable == Some(old(Files(spendable))[key := outputs])
      ensures Within(old(Files(spendable)), Files(spendable))
    {
      spendable := Some(Files(spendable));
      var dies := Dies();
      if dies {
        return false;
      }
      dies := Dies();
      if dies {
        var written :| 0 <= written <= |outputs|;
        spendable := Some(spendable.value[temp := outputs[..written]]);
        return false;
      }
      spendable := Some((spendable.value - {temp})[key := outputs]);
      assert spendable.value == old(Files(spendable))[key := outputs];
      dies := Dies();
      alive := !dies;
    }

    /** Delete a directory, file by file. */
    method RemoveAll(dir: Dir) returns (left: Option<Dir>)
      modifies this`step
      ensures old(step) <= step && (left.None? <==> Calm(stops, old(step), step))
      ensures left.Some? ==> Within(left.value, dir)
    {
      var rest := dir;
      while rest != map[]
        invariant Within(rest, dir) && old(step) <= step && Calm(stops, old(step), step)
        decreases |rest|
      {
        var dies := Dies();
        if dies {
          return Some(rest);
        }
        var n :| n in rest;
        rest := rest - {n};
      }
      var dies := Dies();
      return if dies then Some(rest) else None;
    }

    /** Read descriptors off the front of a file until there are no bytes left. */
    method ReadFile(b: Bytes) returns (outs: Option<seq<Descriptor>>)
      requires SelfDelimiting(codec)
      ensures outs == Parse(codec, b)
    {
      var rest := b;
      var found: seq<Descriptor> := [];
      assert Whole(codec, b) ==> found + Parse(codec, b).value == Parse(codec, b).value;
      while rest != []
        invariant Parse(codec, b) == if Whole(codec, rest) then Some(found + Parse(codec, rest).value) else None
        decreases |rest|
      {
        var next := codec.read(rest);
        if next.None? {
          return None;
        }
        var (d, n) := next.value;
        if Whole(codec, rest[n..]) {
          assert found + ([d] + Parse(codec, rest[n..]).value) == found + [d] + Parse(codec, rest[n..]).value;
        }
        found := found + [d];
        rest := rest[n..];
      }
      assert found + [] == found;
      return Some(found);
    }

    /** Read every file of the directory, in any order; the first that is not whole ends it. */
    method ReadSpendables() returns (outs: Option<seq<Descriptor>>)
      requires SelfDelimiting(codec)
      ensures outs.Some? <==> Readable()
      ensures outs.Some? ==> multiset(outs.value) == InSpendable()
    {
      hide SelfDelimiting;
      hide ReadSoFar;
      hide Parse;
      hide Total;
      var rest := Files(spendable);
      var found: seq<Descriptor> := [];
      ReadsNone(codec, rest);
      while rest != map[]
        invariant ReadSoFar(codec, Files(spendable), rest, found)
        decreases |rest|
      {
        var n :| n in rest;
        ReadsOnlyThese(codec, Files(spendable), rest, found, n);
        var some := ReadFile(rest[n]);
        if some.None? {
          return None;
        }
        ReadsOne(codec, Files(spendable), rest, found, n);
        found := found + some.value;
        rest := rest - {n};
      }
      ReadsAll(codec, Files(spendable), found);
      return Some(found);
    }

    /** No start gets past this: the sweeper has all there was, or a torn file is in the way. */
    ghost predicate Stuck()
      reads this
    {
      || (spendable.None? && (pending.Some? || processing.Some?) && (pending.Some? ==> AllEmpty(Gathered())))
      || !Readable()
    }

    /** Is there anything to put together into a spendable file? */
    ghost predicate Packs(list: Listable)
      reads this
    {
      list.pending && list.processing && pending.Some? && !AllEmpty(Gathered())
    }

    /** Unless there is nothing in them, put the files being processed into one, and drop them. */
    method PackUp(key: Name, temp: Name) returns (alive: bool)
      requires Sound() && Unused(key, temp)
      modifies this`processing, this`spendable, this`step
      ensures old(step) <= step && (alive <==> Calm(stops, old(step), step))
      ensures Sound() && Held() >= old(Held())
      ensures old(AllEmpty(Files(processing))) ==> alive && processing == old(processing) && spendable == old(spendable)
      ensures !old(AllEmpty(Files(processing))) && alive ==> processing.None? && spendable.Some?
      ensures !old(AllEmpty(Files(processing))) && alive ==> InSpendable() == old(InSpendable() + InProcessing())
      ensures !old(AllEmpty(Files(processing))) && alive ==> (Readable() <==> old(Readable()))
      ensures !old(Readable()) ==> !Readable()
    {
      hide Whole;
      hide AllWhole;
      hide Items;
      hide Total;
      hide Within;
      hide SelfDelimiting;
      ghost var before := Files(spendable);
      var outputs := Concatenate();
      if outputs == [] {
        return true;
      }
      alive := StoreOutputs(key, temp, outputs);
      TotalGrows(codec, before, Files(spendable));
      if Readable() {
        WholeWithin(codec, before, Files(spendable));
      }
      if alive {
        TotalWith(codec, before, key, outputs);
        WholeWith(codec, before, key, outputs);
        var left := RemoveAll(Files(processing));
        if left.Some? {
          WholeWithin(codec, left.value, Files(processing));
        } else {
          NothingIsWhole(codec);
        }
        processing := left;
        alive := left.None?;
      }
    }

    /** What cannot be listed holds nothing. */
    ghost predicate Sees(list: Listable)
      reads this
    {
      KeptFrom(InPending(), Total(codec, Gathered()), InSpendable(), list, Packs(list))
    }

    /** Nothing that will be deleted unread holds a descriptor. */
    ghost predicate KeepsAll(list: Listable)
      reads this
    {
      InPending() == multiset{} && (list.spendable || InSpendable() == multiset{})
    }

    /** The first half: from pending files, through processing, to one spendable file. */
    method Consolidate(list: Listable, key: Name, temp: Name) returns (alive: bool)
      requires Sound() && Unused(key, temp)
      modifies this`pending, this`processing, this`spendable, this`step
      ensures old(step) <= step && (alive <==> Calm(stops, old(step), step))
      ensures Sound() && Held() >= old(Held()) && pending.Some? == old(pending).Some?
      ensures !(list.pending && pending.Some?) ==> alive && pending == old(pending) && processing == old(processing)
      ensures list.pending && pending.Some? && alive ==> pending == Some(ToLeave(old(pending).value))
      ensures old(Packs(list)) && alive ==> Files(processing) == map[]
      ensures !old(Packs(list)) && list.pending && pending.Some? && alive ==> Files(processing) == old(Gathered())
      ensures !old(Packs(list)) ==> spendable == old(spendable)
      ensures old(Packs(list)) && alive ==> spendable.Some?
      ensures old(Packs(list)) && alive ==> InSpendable() == old(InSpendable() + Total(codec, Gathered()))
      ensures old(Packs(list)) && alive ==> (Readable() <==> old(Readable()))
      ensures old(Stuck()) ==> Stuck()
      ensures old(Sees(list)) && alive ==> KeepsAll(list)
    {
      NothingTotals(codec);
      NoneLeftToMove(Files(pending));
      if !list.pending || pending.None? {
        return true;
      }
      alive := MoveAside();
      if !alive {
        return;
      }
      if !list.processing {
        return;
      }
      alive := PackUp(key, temp);
    }

    /** Delete the spendable files and then the pending directory; neither may be missing. */
    method Discard() returns (r: Exit)
      requires Sound()
      modifies this`pending, this`spendable, this`step
      ensures old(step) <= step && (r != Died <==> Calm(stops, old(step), step))
      ensures Sound() && (r == Done || r == Panicked || r == Died)
      ensures ToMove(Files(old(pending))) == map[] ==> ToMove(Files(pending)) == map[]
      ensures r != Died ==> (r == Done <==> old(pending).Some? && old(spendable).Some?)
      ensures r == Done ==> pending.None? && spendable.None?
      ensures old(spendable).None? ==> pending == old(pending) && spendable == old(spendable) && r == Panicked
      ensures r == Panicked ==> pending == old(pending) && spendable.None?
      ensures r == Panicked ==> old(spendable).None? || old(pending).None?
      ensures old(InPending()) == multiset{} ==> InPending() == multiset{}
    {
      hide Whole;
      hide AllWhole;
      hide SelfDelimiting;
      hide NoneInBoth;
      hide ToMove;
      if spendable.None? {
        return Panicked;
      }
      spendable := RemoveAll(spendable.value);
      if spendable.Some? {
        return Died;
      }
      if pending.None? {
        return Panicked;
      }
      ghost var before := pending.value;
      pending := RemoveAll(pending.value);
      FewerStaySound(codec, Files(pending), before, Files(processing));
      return if pending.None? then Done else Died;
    }

    /** Give the sweeper the descriptors read, and only then delete what they were read from. */
    method Track(outs: seq<Descriptor>) returns (r: Exit)
      requires Sound()
      modifies this`pending, this`spendable, this`accepted, this`step
      ensures old(step) <= step && (r != Died <==> Calm(stops, old(step), step))
      ensures Sound() && old(accepted) <= accepted && (r == Done || r == Panicked || r == Died)
      ensures r != Died || accepted != old(accepted) || spendable != old(spendable) || pending != old(pending) ==>
        multiset(accepted) == multiset(old(accepted)) + multiset(outs)
      ensures ToMove(Files(old(pending))) == map[] ==> ToMove(Files(pending)) == map[]
      ensures old(InPending()) == multiset{} ==> InPending() == multiset{}
      ensures r != Died ==> (r == Done <==> old(pending).Some? && old(spendable).Some?)
      ensures r == Done ==> pending.None? && spendable.None?
      ensures r == Panicked ==> pending == old(pending) && spendable.None?
      ensures r == Panicked ==> old(spendable).None? || old(pending).None?
      ensures old(spendable).None? ==> pending == old(pending) && spendable == old(spendable) && r != Done
    {
      var dies := Dies();
      if dies {
        return Died;
      }
      accepted := accepted + outs;
      dies := Dies();
      if dies {
        return Died;
      }
      r := Discard();
    }

    /** The second half: from the spendable files to the sweeper, and away with the directories. */
    method HandOver(list: Listable) returns (r: Exit)
      requires Sound()
      modifies this`pending, this`spendable, this`accepted, this`step
      ensures old(step) <= step && (r != Died <==> Calm(stops, old(step), step))
      ensures Sound() && r != NothingToDo && old(accepted) <= accepted
      ensures ToMove(Files(old(pending))) == map[] ==> ToMove(Files(pending)) == map[]
      ensures old(KeepsAll(list)) ==> Held() >= old(Held())
      ensures r == Panicked ==>
        (Held() >= old(Held()) <==> old(pending.Some? || list.spendable || InSpendable() == multiset{}))
      ensures r != Died ==>
        (r == Done <==> old(pending).Some? && old(spendable).Some? && (list.spendable ==> old(Readable())))
      ensures r == Done ==> pending.None? && spendable.None?
      ensures r == Done && list.spendable ==> multiset(accepted) == multiset(old(accepted)) + old(InSpendable())
      ensures r == Done && !list.spendable ==> multiset(accepted) == multiset(old(accepted))
      ensures r == Done ==> Held() == InProcessing() + multiset(accepted)
      ensures old(Stuck()) && list.spendable ==> Stuck() && r != Done
    {
      hide Whole;
      hide AllWhole;
      hide Total;
      hide SelfDelimiting;
      hide NoneInBoth;
      hide ToMove;
      hide Sum;
      ghost var p, q := InPending(), InProcessing();
      ghost var s, a := InSpendable(), multiset(accepted);
      var outs: Option<seq<Descriptor>> := Some([]);
      if list.spendable {
        outs := ReadSpendables();
        if outs.None? {
          return Panicked;
        }
      }
      r := Track(outs.value);
      if p == multiset{} && (list.spendable || s == multiset{}) {
        DeletedOrNot(p, q, s, a, InPending(), InSpendable(), multiset(accepted), multiset(outs.value));
      }
      if r == Panicked {
        NothingTotals(codec);
        Deleted(p, q, s, a, multiset(accepted), multiset(outs.value), list.spendable);
      }
      if r == Done {
        NothingTotals(codec);
        NothingAdds(InProcessing(), multiset(accepted));
      }
    }

    /** The descriptors still on disk. */
    ghost function ToHandOver(): multiset<Descriptor>
      reads this
    {
      InPending() + InProcessing() + InSpendable()
    }

    /** What a start that gets to the end leaves in the processing directory, and what it hands over. */
    ghost function Remaining(list: Listable): Dir
      reads this
    {
      if !list.pending then Files(processing) else if Packs(list) then map[] else Gathered()
    }

    ghost function Handed(list: Listable): multiset<Descriptor>
      reads this
    {
      if !list.spendable then multiset{}
      else if Packs(list) then InSpendable() + Total(codec, Gathered())
      else InSpendable()
    }

    /** A start that nothing disturbs gets to the end. */
    ghost predicate CanFinish(list: Listable)
      reads this
    {
      pending.Some? && (spendable.Some? || Packs(list)) && (list.spendable ==> Readable())
    }

    /** So a start of a stuck migration has something to do, and cannot do it. */
    lemma StuckIsStuck(list: Listable)
      requires Stuck() && list.spendable
      ensures !CanFinish(list) && (pending.Some? || processing.Some? || spendable.Some?)
    {
      NothingIsWhole(codec);
    }

    /** And with a pending directory, only then. */
    lemma StuckOrNot()
      requires pending.Some?
      ensures CanFinish(ALL_LISTABLE) <==> !Stuck()
    {
      NothingIsWhole(codec);
    }

    lemma WithoutPending(list: Listable)
      requires pending.None?
      ensures Sees(list) <==> list.spendable || InSpendable() == multiset{}
    {
      NothingTotals(codec);
    }

    /** A start with something to do. */
    method Proceed(list: Listable, key: Name, temp: Name) returns (r: Exit)
      requires Sound() && Unused(key, temp)
      modifies this
      ensures old(step) <= step && (r != Died <==> Calm(stops, old(step), step))
      ensures Sound() && old(accepted) <= accepted && r != NothingToDo
      ensures old(Sees(list)) ==> Held() >= old(Held())
      ensures r == Panicked ==> (Held() >= old(Held()) <==> old(pending.Some? || Sees(list)))
      ensures r != Died ==> (r == Done <==> old(CanFinish(list)))
      ensures r == Done ==> pending.None? && spendable.None?
      ensures r == Done ==> Held() == InProcessing() + multiset(accepted)
      ensures r == Done ==> Files(processing) == old(Remaining(list))
      ensures r == Done ==> multiset(accepted) == multiset(old(accepted)) + old(Handed(list))
      ensures old(Stuck()) && list.spendable ==> Stuck()
    {
      hide AllWhole;
      hide AllEmpty;
      hide Total;
      hide ToMove;
      hide ToLeave;
      hide NoneInBoth;
      hide SelfDelimiting;
      hide Unused;
      hide Sum;
      hide Sees;
      hide KeepsAll;
      if pending.None? {
        WithoutPending(list);
      }
      var alive := Consolidate(list, key, temp);
      if !alive {
        return Died;
      }
      r := HandOver(list);
    }

    method Migrate(list: Listable, key: Name, temp: Name) returns (r: Exit)
      requires Sound() && Unused(key, temp)
      modifies this
      ensures old(step) <= step && (r != Died <==> Calm(stops, old(step), step))
      ensures Sound() && old(accepted) <= accepted
      ensures r == NothingToDo <==> !list.seen || (old(pending).None? && old(processing).None? && old(spendable).None?)
      ensures r == NothingToDo ==> unchanged(this)
      ensures old(Sees(list)) ==> Held() >= old(Held())
      ensures r == Panicked ==> (Held() >= old(Held()) <==> old(pending.Some? || Sees(list)))
      ensures r != Died && r != NothingToDo ==> (r == Done <==> old(CanFinish(list)))
      ensures r == Done ==> pending.None? && spendable.None?
      ensures r == Done && list == ALL_LISTABLE ==> multiset(accepted) == multiset(old(accepted)) + old(ToHandOver())
      ensures r == Done && list == ALL_LISTABLE ==> Held() == multiset(accepted)
      ensures r == Done && list == ALL_LISTABLE && ReadsBack(codec) ==>
        forall n, ds :: old(ToMigrate(pending, processing, spendable, n, WriteAll(codec, ds))) ==>
          multiset(ds) <= multiset(accepted)
      ensures r == Done ==> (Held() >= old(Held()) <==> old(Sees(list)))
      ensures old(Stuck()) && list.spendable ==> Stuck()
    {
      hide Calm;
      hide WriteAll;
      hide ReadsBack;
      hide ToMigrate;
      hide Unused;
      hide Total;
      hide AllWhole;
      hide SelfDelimiting;
      hide NoneInBoth;
      hide ToMove;
      CalmMore(stops, step, step);
      if !list.seen || (pending.None? && processing.None? && spendable.None?) {
        return NothingToDo;
      }
      ghost var p, q := InPending(), InProcessing();
      ghost var s, a, packs := InSpendable(), multiset(accepted), Packs(list);
      TotalGathered(codec, Files(pending), Files(processing));
      r := Proceed(list, key, temp);
      if r == Done {
        NothingTotals(codec);
        TotalRemaining(codec, Files(processing), multiset(accepted));
        Tally(p, q, s, a, InProcessing(), multiset(accepted), list, packs);
        if list == ALL_LISTABLE && ReadsBack(codec) {
          TotalsHave(codec, old(pending), old(processing), old(spendable), multiset(accepted));
        }
      }
    }

    lemma SeesAll(list: Listable)
      ensures list.pending && list.spendable ==> Sees(list)
    {
    }

    /** Over any number of starts, each of which gets as far as it will, until one gets to the end
        (the `n`-th): nothing is lost as long as what each could not list held nothing (`saw`), as when
        it could list all that matters. If the last could list all, the sweeper has it all. If the
        migration is stuck, no start that lists the spendable files gets to the end. */
    method Restarts(lists: seq<Listable>) returns (finished: bool, n: nat, ghost saw: bool)
      requires Sound()
      modifies this
      ensures Sound() && old(accepted) <= accepted && n <= |lists| && (finished ==> 0 < n)
      ensures saw ==> Held() >= old(Held())
      ensures (forall i :: 0 <= i < n ==> lists[i].pending && lists[i].spendable) ==> saw
      ensures saw && finished && lists[n-1] == ALL_LISTABLE ==> multiset(accepted) >= old(Held())
      ensures old(Stuck()) && (forall i :: 0 <= i < n ==> lists[i].spendable) ==> Stuck() && !finished
    {
      hide Held;
      hide Sees;
      hide Stuck;
      hide Sound;
      hide CanFinish;
      finished, n, saw := false, 0, true;
      while n < |lists| && !finished
        invariant Sound() && old(accepted) <= accepted && n <= |lists| && (finished ==> 0 < n)
        invariant saw ==> Held() >= old(Held())
        invariant (forall i :: 0 <= i < n ==> lists[i].pending && lists[i].spendable) ==> saw
        invariant saw && finished && lists[n-1] == ALL_LISTABLE ==> multiset(accepted) >= old(Held())
        invariant old(Stuck()) && (forall i :: 0 <= i < n ==> lists[i].spendable) ==> Stuck() && !finished
      {
        var list := lists[n];
        n := n + 1;
        var key: Name, temp: Name := *, *;
        if Unused(key, temp) {
          SeesAll(list);
          saw := saw && (!list.seen || Sees(list));
          if Stuck() && list.spendable {
            StuckIsStuck(list);
          }
          var r := Migrate(list, key, temp);
          finished := r == Done;
        }
      }
    }
  }
}
