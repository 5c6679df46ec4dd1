/** What the database holds: each chained record stands for one key and its data; free records are blank.

  `Contents` relates a state and the bytes of the data file to a map from keys to data. The lemmas say what
  taking a record off a list, putting one at the front of a list, and appending one do to the map.
 */
module DbContents {
  import opened DbText
  import opened DbLayout
  import opened DbChains

  /** A byte taken as a signed char. */
  function SignedChar(c: char): int {
    if c as int < 128 then c as int else c as int - 256
  }

  /** Each character times its 1-based position, summed up. */
  function WeightedSum(key: string): int {
    if key == [] then 0 else WeightedSum(key[..|key| - 1]) + SignedChar(key[|key| - 1]) * |key|
  }

  function CharSum(key: string): int {
    if key == [] then 0 else CharSum(key[..|key| - 1]) + SignedChar(key[|key| - 1])
  }

  /** A character put in front counts once, and moves each of the others on by one place. */
  lemma {:induction false} WeightedFront(c: char, key: string)
    ensures WeightedSum([c] + key) == SignedChar(c) + CharSum(key) + WeightedSum(key)
  {
    if key == [] {
      assert [c] + key == [c];
      assert [c][..0] == [];
    } else {
      var n := |key| - 1;
      WeightedFront(c, key[..n]);
      assert ([c] + key)[..|key|] == [c] + key[..n];
    }
  }

  const TWO_64 := 0x1_0000_0000_0000_0000

  /** The hash chain of a key: the sum as an unsigned 64-bit number, modulo the table size. */
  function Hash(key: string): (h: nat)
    ensures h < NHASH
  {
    (WeightedSum(key) % TWO_64) % NHASH
  }

  /** What matters of a record for the contents: its key, its data extent, and the list that owns it. */
  datatype Entry = Entry(key: string, datoff: nat, datlen: nat, owner: nat) {
    predicate Chained() { 1 <= owner < SLOTS }

    /** The data record lies inside the data file and ends with a newline. */
    predicate InFile(dat: string) {
      datlen >= 1 && datoff + datlen <= |dat| && dat[datoff + datlen - 1] == NEWLINE
    }

    function Data(dat: string): string
      requires InFile(dat)
    {
      dat[datoff..datoff + datlen - 1]
    }

    /** What the record stands for: nothing and a blank key when free, its key and data when chained. */
    predicate Stands(dat: string, m: map<string, string>) {
      && InFile(dat)
      && (owner == 0 ==> AllBlank(key))
      && (Chained() ==> owner == 1 + Hash(key) && key in m && m[key] == Data(dat))
    }
  }

  predicate Apart(a: Entry, b: Entry) {
    a.datoff + a.datlen <= b.datoff || b.datoff + b.datlen <= a.datoff
  }

  /** Data extents are disjoint, and chained keys are different. */
  predicate Separate(a: Entry, b: Entry) {
    Apart(a, b) && (a.Chained() && b.Chained() ==> a.key != b.key)
  }

  ghost predicate Recorded(es: seq<Entry>, key: string) {
    exists i :: 0 <= i < |es| && es[i].Chained() && es[i].key == key
  }

  /** The chained records are the map: each stands for its key and data, and each key has one. */
  ghost predicate Represents(es: seq<Entry>, dat: string, m: map<string, string>) {
    && (forall i :: 0 <= i < |es| ==> es[i].Stands(dat, m))
    && (forall i, j :: 0 <= i < j < |es| ==> Separate(es[i], es[j]))
    && (forall k :: k in m ==> Recorded(es, k))
  }

  function Minus(m: map<string, string>, key: string): (r: map<string, string>)
    ensures key !in r
    ensures forall k :: k in r <==> k in m && k != key
    ensures forall k :: k in r ==> r[k] == m[k]
  {
    map k | k in m && k != key :: m[k]
  }

  /** The data file changed only inside one extent. */
  predicate OnlyExtent(dat: string, dat': string, e: Entry) {
    && |dat'| == |dat|
    && forall k :: 0 <= k < |dat| && !(e.datoff <= k < e.datoff + e.datlen) ==> dat'[k] == dat[k]
  }

  lemma DataElsewhere(e: Entry, q: Entry, dat: string, dat': string)
    requires OnlyExtent(dat, dat', e) && q.InFile(dat) && Apart(e, q)
    ensures q.InFile(dat') && q.Data(dat') == q.Data(dat)
  {
  }

  /** Taking a record off its list forgets its key, if it was on a hash chain. */
  lemma TakeOff(es: seq<Entry>, i: nat, dat: string, m: map<string, string>)
    requires Represents(es, dat, m) && i < |es| && es[i].owner < SLOTS
    ensures Represents(es[i := es[i].(owner := IN_HAND)], dat, if es[i].Chained() then Minus(m, es[i].key) else m)
  {
    var es' := es[i := es[i].(owner := IN_HAND)];
    var m' := if es[i].Chained() then Minus(m, es[i].key) else m;
    forall n | 0 <= n < |es|
      ensures es'[n].Stands(dat, m')
    {
      assert es[n].Stands(dat, m);
    }
    forall k | k in m'
      ensures Recorded(es', k)
    {
      assert Recorded(es, k);
      var n :| 0 <= n < |es| && es[n].Chained() && es[n].key == k;
      assert es'[n].Chained() && es'[n].key == k;
    }
  }

  /** Rewriting a record in hand, and its data in place, and putting it on a list: a blank key on the free list,
      or a new key on its hash chain. */
  lemma PutOn(es: seq<Entry>, i: nat, e: Entry, dat: string, dat': string, m: map<string, string>)
    requires Represents(es, dat, m) && i < |es| && es[i].owner == IN_HAND
    requires e.datoff == es[i].datoff && e.datlen == es[i].datlen && OnlyExtent(dat, dat', e) && e.InFile(dat')
    requires if e.Chained() then e.owner == 1 + Hash(e.key) && e.key !in m else AllBlank(e.key)
    ensures Represents(es[i := e], dat', if e.Chained() then m[e.key := e.Data(dat')] else m)
  {
    var es' := es[i := e];
    var m' := if e.Chained() then m[e.key := e.Data(dat')] else m;
    forall n | 0 <= n < |es|
      ensures es'[n].Stands(dat', m')
      ensures n != i ==> Separate(es'[n], e) && Separate(e, es'[n])
    {
      assert es[n].Stands(dat, m);
      if n != i {
        DataElsewhere(e, es[n], dat, dat');
      }
    }
    forall k | k in m'
      ensures Recorded(es', k)
    {
      if e.Chained() && k == e.key {
        assert es'[i].key == k;
      } else {
        assert Recorded(es, k);
        var n :| 0 <= n < |es| && es[n].Chained() && es[n].key == k;
        assert es'[n].Chained() && es'[n].key == k;
      }
    }
  }

  /** A record appended to both files, still in hand, changes nothing. */
  lemma Append(es: seq<Entry>, e: Entry, dat: string, more: string, m: map<string, string>)
    requires Represents(es, dat, m) && e.owner == IN_HAND
    requires e.datoff == |dat| && e.datlen == |more| && |more| >= 1 && more[|more| - 1] == NEWLINE
    ensures Represents(es + [e], dat + more, m)
    ensures e.InFile(dat + more) && e.Data(dat + more) == more[..|more| - 1]
  {
    var es' := es + [e];
    forall n | 0 <= n < |es'|
      ensures es'[n].Stands(dat + more, m)
      ensures n < |es| ==> Separate(es'[n], e)
    {
      if n < |es| {
        assert es[n].Stands(dat, m);
        assert n < |es| && es[n].datoff + es[n].datlen <= |dat|;
        assert es[n].Data(dat + more) == es[n].Data(dat);
      }
    }
    forall k | k in m
      ensures Recorded(es', k)
    {
      assert Recorded(es, k);
      var n :| 0 <= n < |es| && es[n].Chained() && es[n].key == k;
      assert es'[n].Chained() && es'[n].key == k;
    }
  }

  /** Overwriting the data of a chained record in place changes the data of its key. */
  lemma Overwrite(es: seq<Entry>, i: nat, dat: string, dat': string, m: map<string, string>)
    requires Represents(es, dat, m) && i < |es| && es[i].Chained()
    requires OnlyExtent(dat, dat', es[i]) && es[i].InFile(dat')
    ensures es[i].key in m
    ensures Represents(es, dat', m[es[i].key := es[i].Data(dat')])
  {
    var m' := m[es[i].key := es[i].Data(dat')];
    assert es[i].Stands(dat, m);
    forall n | 0 <= n < |es|
      ensures es[n].Stands(dat', m')
    {
      assert es[n].Stands(dat, m);
      if n != i {
        DataElsewhere(es[i], es[n], dat, dat');
      }
    }
  }

  // ----- the entries of a state

  function Entries(st: State): (es: seq<Entry>)
    requires |st.owner| == |st.recs|
    ensures |es| == |st.recs|
    ensures forall i :: 0 <= i < |es| ==>
        es[i] == Entry(st.recs[i].key, st.recs[i].datoff, st.recs[i].datlen, st.owner[i])
  {
    seq(|st.recs|, i requires 0 <= i < |st.recs| =>
      Entry(st.recs[i].key, st.recs[i].datoff, st.recs[i].datlen, st.owner[i]))
  }

  ghost predicate Contents(st: State, dat: string, m: map<string, string>) {
    |st.owner| == |st.recs| && Represents(Entries(st), dat, m)
  }

  lemma UnlinkEntries(st: State, s: nat, j: nat)
    requires |st.owner| == |st.recs| && OnList(st, s, j)
    ensures var i := st.lists[s][j];
            && |Unlink(st, s, j).owner| == |Unlink(st, s, j).recs|
            && Entries(Unlink(st, s, j)) == Entries(st)[i := Entries(st)[i].(owner := IN_HAND)]
  {
  }

  lemma UnlinkContents(st: State, s: nat, j: nat, dat: string, m: map<string, string>)
    requires Consistent(st) && OnList(st, s, j) && Contents(st, dat, m)
    ensures var i := st.lists[s][j];
            Contents(Unlink(st, s, j), dat, if s == 0 then m else Minus(m, st.recs[i].key))
  {
    assert GoodList(st, s);
    assert st.owner[st.lists[s][j]] == s;
    UnlinkEntries(st, s, j);
    TakeOff(Entries(st), st.lists[s][j], dat, m);
  }

  lemma PutFrontContents(st: State, s: nat, i: nat, r: Rec, dat: string, dat': string, m: map<string, string>)
    requires Sized(st) && Contents(st, dat, m) && s < SLOTS && i < |st.recs| && st.owner[i] == IN_HAND
    requires r.datoff == st.recs[i].datoff && r.datlen == st.recs[i].datlen
    requires var e := Entry(r.key, r.datoff, r.datlen, s);
             && OnlyExtent(dat, dat', e) && e.InFile(dat')
             && if s == 0 then AllBlank(r.key) else s == 1 + Hash(r.key) && r.key !in m
    ensures var e := Entry(r.key, r.datoff, r.datlen, s);
            Contents(PutFront(st, s, i, r), dat', if s == 0 then m else m[r.key := e.Data(dat')])
  {
    var e := Entry(r.key, r.datoff, r.datlen, s);
    PutOn(Entries(st), i, e, dat, dat', m);
    assert Entries(PutFront(st, s, i, r)) == Entries(st)[i := e];
  }

  lemma GrowContents(st: State, r: Rec, dat: string, more: string, m: map<string, string>)
    requires Contents(st, dat, m)
    requires r.datoff == |dat| && r.datlen == |more| && |more| >= 1 && more[|more| - 1] == NEWLINE
    ensures Contents(Grow(st, r), dat + more, m)
    ensures forall owner: nat :: var e := Entry(r.key, r.datoff, r.datlen, owner);
            e.InFile(dat + more) && e.Data(dat + more) == more[..|more| - 1]
  {
    var e := Entry(r.key, r.datoff, r.datlen, IN_HAND);
    Append(Entries(st), e, dat, more, m);
    assert Entries(Grow(st, r)) == Entries(st) + [e];
  }

  /** No record of a list has the key. */
  predicate Avoids(recs: seq<Rec>, list: seq<nat>, key: string) {
    forall k :: 0 <= k < |list| ==> list[k] < |recs| && recs[list[k]].key != key
  }

  /** A key whose whole chain has been searched in vain is not in the database. */
  lemma NotOnChain(st: State, dat: string, m: map<string, string>, key: string)
    requires Consistent(st) && Contents(st, dat, m)
    requires Avoids(st.recs, st.lists[1 + Hash(key)], key)
    ensures key !in m
  {
    var es := Entries(st);
    forall n | 0 <= n < |es| && es[n].Chained()
      ensures es[n].key != key
    {
      assert es[n].Stands(dat, m) && Covered(st, n);
    }
    assert !Recorded(es, key);
  }

  /** A record on a hash chain stands for its key. */
  lemma OnChain(st: State, dat: string, m: map<string, string>, s: nat, j: nat)
    requires Consistent(st) && Contents(st, dat, m) && 1 <= s && OnList(st, s, j)
    ensures var r := st.recs[st.lists[s][j]];
            && r.datlen >= 1 && r.datoff + r.datlen <= |dat| && dat[r.datoff + r.datlen - 1] == NEWLINE
            && r.key in m && m[r.key] == dat[r.datoff..r.datoff + r.datlen - 1]
            && Entries(st)[st.lists[s][j]].Chained()
  {
    hide Consistent, Good, WeightedSum;
    ListedOwner(st, s, j);
    assert Entries(st)[st.lists[s][j]].Stands(dat, m);
  }
}
