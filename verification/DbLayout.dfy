/** The index file as bytes: 138 pointer fields, a newline, and the index records one after the other.

  `FileText` spells out the bytes for given pointers and records. The lemmas say where each field is, and that
  overwriting one field in place gives the bytes for the pointers and records with that one field changed.
 */
module DbLayout {
  import opened DbText

  const NHASH := 137
  const FREE_OFF := 0
  const HASH_OFF := PTR_SZ
  const HEADER := (NHASH + 1) * PTR_SZ + 1

  /** Slot 0 is the free list, slot 1+h is hash chain h. */
  const SLOTS := NHASH + 1

  // ----- strings laid end to end

  function Join(parts: seq<string>): string {
    if parts == [] then "" else Join(parts[..|parts| - 1]) + parts[|parts| - 1]
  }

  function Pos(parts: seq<string>, i: nat): nat
    requires i <= |parts|
  {
    if i == 0 then 0 else Pos(parts, i - 1) + |parts[i - 1]|
  }

  /** Bytes written over others, in place. */
  function Splice(s: string, at: nat, t: string): (r: string)
    requires at + |t| <= |s|
    ensures |r| == |s|
  {
    s[..at] + t + s[at + |t|..]
  }

  lemma {:induction false} JoinSplit(parts: seq<string>, i: nat)
    requires i < |parts|
    ensures Join(parts) == Join(parts[..i]) + parts[i] + Join(parts[i + 1..])
    decreases |parts|
  {
    var last := |parts| - 1;
    if i == last {
      assert parts[i + 1..] == [];
    } else {
      JoinSplit(parts[..last], i);
      var tail := parts[i + 1..];
      assert parts[..last][..i] == parts[..i];
      assert parts[..last][i + 1..] == tail[..|tail| - 1] && tail[|tail| - 1] == parts[last];
      assert Join(tail) == Join(tail[..|tail| - 1]) + parts[last];
    }
  }

  lemma {:induction false} JoinLength(parts: seq<string>, i: nat)
    requires i <= |parts|
    ensures |Join(parts[..i])| == Pos(parts, i)
    decreases i
  {
    if i > 0 {
      JoinLength(parts, i - 1);
      assert parts[..i][..i - 1] == parts[..i - 1];
    }
  }

  lemma {:induction false} PosSame(parts: seq<string>, parts': seq<string>, i: nat)
    requires i <= |parts| && i <= |parts'| && forall k :: 0 <= k < i ==> |parts[k]| == |parts'[k]|
    ensures Pos(parts, i) == Pos(parts', i)
    decreases i
  {
    if i > 0 {
      PosSame(parts, parts', i - 1);
    }
  }

  /** One part of a longer text: where it is, and what overwriting it in place does. */
  lemma PartField(file: string, pre: string, parts: seq<string>, post: string, i: nat, t: string)
    requires file == pre + Join(parts) + post && i < |parts| && |t| == |parts[i]|
    ensures var at := |pre| + Pos(parts, i);
            && at + |t| <= |file| && file[at..at + |t|] == parts[i]
            && Splice(file, at, t) == pre + Join(parts[i := t]) + post
  {
    hide Join, Splice, Pos;
    var parts' := parts[i := t];
    JoinSplit(parts, i);
    JoinSplit(parts', i);
    assert parts'[..i] == parts[..i] && parts'[i + 1..] == parts[i + 1..];
    JoinLength(parts, i);
    Middle(file, pre, Join(parts[..i]), parts[i], Join(parts[i + 1..]), post, t);
  }

  lemma Middle(file: string, pre: string, a: string, m: string, b: string, post: string, m': string)
    requires file == pre + (a + m + b) + post && |m'| == |m|
    ensures var at := |pre| + |a|;
            && at + |m'| <= |file| && file[at..at + |m'|] == m
            && Splice(file, at, m') == pre + (a + m' + b) + post
  {
    var at := |pre| + |a|;
    assert file[..at] == pre + a;
    assert file[at + |m|..] == b + post;
  }

  // ----- the index file

  function Pads(heads: seq<nat>): (p: seq<string>)
    ensures |p| == |heads| && forall s :: 0 <= s < |heads| ==> p[s] == Pad(PTR_SZ, heads[s])
  {
    seq(|heads|, s requires 0 <= s < |heads| => Pad(PTR_SZ, heads[s]))
  }

  function Texts(recs: seq<Rec>): (t: seq<string>)
    ensures |t| == |recs| && forall i :: 0 <= i < |recs| ==> t[i] == RecText(recs[i])
  {
    seq(|recs|, i requires 0 <= i < |recs| => RecText(recs[i]))
  }

  function FileText(heads: seq<nat>, recs: seq<Rec>): string {
    Join(Pads(heads)) + [NEWLINE] + Join(Texts(recs))
  }

  /** The file offset of record i. */
  function Off(recs: seq<Rec>, i: nat): nat
    requires i <= |recs|
  {
    HEADER + Pos(Texts(recs), i)
  }

  predicate GoodHeads(heads: seq<nat>) {
    |heads| == SLOTS && forall s :: 0 <= s < SLOTS ==> heads[s] <= PTR_MAX
  }

  predicate GoodRecs(recs: seq<Rec>) {
    forall i :: 0 <= i < |recs| ==> GoodRec(recs[i])
  }

  lemma {:induction false} HeadPos(heads: seq<nat>, s: nat)
    requires s <= |heads| && forall k :: 0 <= k < |heads| ==> heads[k] <= PTR_MAX
    ensures Pos(Pads(heads), s) == s * PTR_SZ
    decreases s
  {
    if s > 0 {
      PtrWidth(heads[s - 1]);
      HeadPos(heads, s - 1);
    }
  }

  /** The bytes before the first record. */
  lemma HeaderLength(heads: seq<nat>)
    requires GoodHeads(heads)
    ensures |Join(Pads(heads)) + [NEWLINE]| == HEADER
  {
    HeadPos(heads, SLOTS);
    JoinLength(Pads(heads), SLOTS);
    assert Pads(heads)[..SLOTS] == Pads(heads);
  }

  /** Records of the same lengths are at the same offsets. */
  lemma OffSame(recs: seq<Rec>, recs': seq<Rec>, i: nat)
    requires i <= |recs| && i <= |recs'|
    requires forall k :: 0 <= k < i ==> |RecText(recs[k])| == |RecText(recs'[k])|
    ensures Off(recs, i) == Off(recs', i)
  {
    PosSame(Texts(recs), Texts(recs'), i);
  }

  lemma FileLength(heads: seq<nat>, recs: seq<Rec>)
    requires GoodHeads(heads)
    ensures |FileText(heads, recs)| == Off(recs, |recs|)
  {
    HeaderLength(heads);
    JoinLength(Texts(recs), |recs|);
    assert Texts(recs)[..|recs|] == Texts(recs);
  }

  // ----- reading and overwriting fields

  lemma FrontField(parts: seq<string>, post: string, i: nat, t: string)
    requires i < |parts| && |t| == |parts[i]|
    ensures var file := Join(parts) + post;
            var at := Pos(parts, i);
            && at + |t| <= |file| && file[at..at + |t|] == parts[i]
            && Splice(file, at, t) == Join(parts[i := t]) + post
  {
    hide Join, Splice, Pos;
    var file := Join(parts) + post;
    PartField(file, "", parts, post, i, t);
  }

  lemma HeadFirst(heads: seq<nat>, recs: seq<Rec>)
    ensures FileText(heads, recs) == Join(Pads(heads)) + ([NEWLINE] + Join(Texts(recs)))
  {
  }

  /** A pointer field of the header. */
  lemma HeadField(heads: seq<nat>, recs: seq<Rec>, s: nat, v: nat)
    requires GoodHeads(heads) && s < SLOTS && v <= PTR_MAX
    ensures var file := FileText(heads, recs);
            var at := s * PTR_SZ;
            && at + PTR_SZ <= |file| && |Pad(PTR_SZ, v)| == PTR_SZ
            && file[at..at + PTR_SZ] == Pad(PTR_SZ, heads[s])
            && Splice(file, at, Pad(PTR_SZ, v)) == FileText(heads[s := v], recs)
  {
    PtrWidth(v);
    PtrWidth(heads[s]);
    HeadPos(heads, s);
    HeadFirst(heads, recs);
    HeadFirst(heads[s := v], recs);
    FrontField(Pads(heads), [NEWLINE] + Join(Texts(recs)), s, Pad(PTR_SZ, v));
    assert Pads(heads)[s := Pad(PTR_SZ, v)] == Pads(heads[s := v]);
  }

  /** A whole record: where it is, and what overwriting it with one of the same length does. */
  lemma RecField(heads: seq<nat>, recs: seq<Rec>, i: nat, r: Rec)
    requires GoodHeads(heads) && i < |recs| && |RecText(r)| == |RecText(recs[i])|
    ensures var file := FileText(heads, recs);
            var at := Off(recs, i);
            && at + |RecText(r)| <= |file|
            && file[at..at + |RecText(r)|] == RecText(recs[i])
            && Splice(file, at, RecText(r)) == FileText(heads, recs[i := r])
  {
    hide RecText, Join, Splice, Pos;
    HeaderLength(heads);
    var pre := Join(Pads(heads)) + [NEWLINE];
    var t := RecText(r);
    assert FileText(heads, recs) == pre + Join(Texts(recs)) + "";
    PartField(FileText(heads, recs), pre, Texts(recs), "", i, t);
    assert Texts(recs)[i := t] == Texts(recs[i := r]);
  }

  /** The pieces of a part of a text. */
  lemma Pieces(file: string, at: nat, t: string, p: nat, q: nat)
    requires at + |t| <= |file| && file[at..at + |t|] == t && p <= q <= |t|
    ensures file[at + p..at + q] == t[p..q]
  {
    forall k | 0 <= k < q - p
      ensures file[at + p..at + q][k] == t[p..q][k]
    {
      assert t[p + k] == file[at + (p + k)];
    }
  }

  /** The chain pointer at the front of a record. */
  lemma PtrField(heads: seq<nat>, recs: seq<Rec>, i: nat, v: nat)
    requires GoodHeads(heads) && i < |recs| && GoodRec(recs[i]) && v <= PTR_MAX
    ensures var file := FileText(heads, recs);
            var at := Off(recs, i);
            && at + PTR_SZ <= |file| && |Pad(PTR_SZ, v)| == PTR_SZ
            && file[at..at + PTR_SZ] == Pad(PTR_SZ, recs[i].ptr)
            && Splice(file, at, Pad(PTR_SZ, v)) == FileText(heads, recs[i := recs[i].(ptr := v)])
  {
    var r := recs[i].(ptr := v);
    RecParts(recs[i]);
    RecParts(r);
    RecField(heads, recs, i, r);
    var file, at := FileText(heads, recs), Off(recs, i);
    var t, t' := RecText(recs[i]), RecText(r);
    Pieces(file, at, t, 0, PTR_SZ);
    SpliceFront(file, at, t, t', PTR_SZ);
  }

  /** Overwriting only the front of a part, when the rest stays. */
  lemma SpliceFront(file: string, at: nat, t: string, t': string, n: nat)
    requires at + |t| <= |file| && file[at..at + |t|] == t && |t'| == |t| && n <= |t| && t'[n..] == t[n..]
    ensures Splice(file, at, t'[..n]) == Splice(file, at, t')
  {
    Pieces(file, at, t, n, |t|);
    assert file[at + n..] == file[at + n..at + |t|] + file[at + |t|..];
    assert t' == t'[..n] + t'[n..];
  }

  /** A record read in the program's three pieces. */
  lemma RecPieces(heads: seq<nat>, recs: seq<Rec>, i: nat)
    requires GoodHeads(heads) && i < |recs| && GoodRec(recs[i])
    ensures var file := FileText(heads, recs);
            var at := Off(recs, i);
            var n := |RecBody(recs[i])|;
            && at + PTR_SZ + IDXLEN_SZ + n <= |file| && IDXLEN_MIN <= n <= IDXLEN_MAX
            && file[at..at + PTR_SZ] == Pad(PTR_SZ, recs[i].ptr)
            && file[at + PTR_SZ..at + PTR_SZ + IDXLEN_SZ] == Pad(IDXLEN_SZ, n)
            && file[at + PTR_SZ + IDXLEN_SZ..at + PTR_SZ + IDXLEN_SZ + n] == RecBody(recs[i])
            && Off(recs, i + 1) == at + PTR_SZ + IDXLEN_SZ + n
  {
    RecParts(recs[i]);
    RecField(heads, recs, i, recs[i]);
    var file, at, t := FileText(heads, recs), Off(recs, i), RecText(recs[i]);
    Pieces(file, at, t, 0, PTR_SZ);
    Pieces(file, at, t, PTR_SZ, PTR_SZ + IDXLEN_SZ);
    Pieces(file, at, t, PTR_SZ + IDXLEN_SZ, |t|);
  }

  lemma AppendRec(heads: seq<nat>, recs: seq<Rec>, r: Rec)
    ensures FileText(heads, recs) + RecText(r) == FileText(heads, recs + [r])
  {
    var t := Texts(recs + [r]);
    assert t[..|recs|] == Texts(recs);
    assert Join(t) == Join(t[..|recs|]) + RecText(r);
  }
}
