/** The database object of apue.2e/db/db.c over in-memory files: the bytes of the index file and of the data file
  are fields, as are the buffers and offsets of the program's DB structure.

  The ghost state `st` says which records and lists the index bytes spell; `m` is the map from keys to data that
  callers see. Record locks are not part of this object; they are the subject of DbProtocol.
 */
module DbStore {
  import opened Wrappers
  import opened DbText
  import opened DbLayout
  import opened DbChains
  import opened DbContents

  const DB_INSERT := 1
  const DB_REPLACE := 2
  const DB_STORE := 3

  predicate HasPlace(st: State, p: Place) {
    if p.Head? then p.s < SLOTS else p.i < |st.recs|
  }

  function PlaceOff(st: State, p: Place): nat
    requires HasPlace(st, p)
  {
    if p.Head? then p.s * PTR_SZ else Off(st.recs, p.i)
  }

  function PtrAt(st: State, p: Place): nat
    requires HasPlace(st, p) && |st.heads| == SLOTS
  {
    if p.Head? then st.heads[p.s] else st.recs[p.i].ptr
  }

  lemma PlaceField(st: State, p: Place, v: nat)
    requires Good(st) && HasPlace(st, p) && v <= PTR_MAX
    ensures var file := FileText(st.heads, st.recs);
            var at := PlaceOff(st, p);
            && at + PTR_SZ <= |file| && |Pad(PTR_SZ, v)| == PTR_SZ
            && file[at..at + PTR_SZ] == Pad(PTR_SZ, PtrAt(st, p))
            && Splice(file, at, Pad(PTR_SZ, v)) == FileText(SetPtr(st, p, v).heads, SetPtr(st, p, v).recs)
            && Good(SetPtr(st, p, v)) && Offs(SetPtr(st, p, v).recs) == Offs(st.recs)
  {
    hide RecText, RecBody, Pad, FileText;
    if p.Head? {
      HeadField(st.heads, st.recs, p.s, v);
    } else {
      PtrField(st.heads, st.recs, p.i, v);
      PtrKeepsSize(st.recs[p.i], v);
      var recs' := SetPtr(st, p, v).recs;
      forall k | 0 <= k < |st.recs|
        ensures |RecText(st.recs[k])| == |RecText(recs'[k])|
      {
      }
      OffsSame(st.recs, recs');
    }
  }

  class DB {
    var idx: string    // bytes of the index file
    var dat: string    // bytes of the data file
    var pos: nat       // current offset of the index file descriptor
    var idxbuf: string
    var datbuf: string
    var idxoff: nat
    var idxlen: nat
    var datoff: nat
    var datlen: nat
    var ptrval: nat
    var ptroff: nat
    var chainoff: nat
    ghost var st: State
    ghost var m: map<string, string>

    /** The index file spells the state, with valid fields everywhere. */
    ghost predicate Spelled()
      reads this
    {
      idx == FileText(st.heads, st.recs) && Good(st)
    }

    /** Bytes, lists and contents agree, and no record is in hand. */
    ghost predicate Valid()
      reads this
    {
      Spelled() && Consistent(st) && Settled(st) && Contents(st, dat, m)
    }

    /** The handle describes record i. */
    ghost predicate Holds(i: nat)
      reads this
    {
      && i < |st.recs|
      && idxoff == Off(st.recs, i) && idxbuf == st.recs[i].key && ptrval == st.recs[i].ptr
      && datoff == st.recs[i].datoff && datlen == st.recs[i].datlen
    }

    /** Create an empty database: 138 pointers of 0 and a newline in the index file, nothing in the data file. */
    constructor Create()
      ensures Valid() && m == map[] && pos == Off(st.recs, 0)
    {
      hide Pad, Represents;
      idx, dat, pos := "", "", 0;
      idxbuf, datbuf := "", "";
      idxoff, idxlen, datoff, datlen, ptrval, ptroff, chainoff := 0, 0, 0, 0, 0, 0, 0;
      st := State(seq(SLOTS, _ => 0), [], seq(SLOTS, _ => []), []);
      m := map[];
      new;
      var asciiptr := Pad(PTR_SZ, 0);
      var hash := "";
      ghost var parts := Pads(st.heads);
      for i := 0 to NHASH + 1
        invariant hash == Join(parts[..i])
        invariant idx == "" && dat == "" && st == State(seq(SLOTS, _ => 0), [], seq(SLOTS, _ => []), []) && m == map[]
      {
        assert parts[..i + 1][..i] == parts[..i];
        hash := hash + asciiptr;
      }
      assert parts[..SLOTS] == parts;
      hash := hash + [NEWLINE];
      idx := hash;
      EmptyValid(st);
      Rewind();
    }

    // ----- single fields and records

    method ReadPtr(offset: nat, ghost p: Place) returns (v: nat)
      requires Spelled() && HasPlace(st, p) && offset == PlaceOff(st, p)
      modifies this`pos
      ensures v == PtrAt(st, p)
    {
      PlaceField(st, p, 0);
      AtolPad(PTR_SZ, PtrAt(st, p));
      var asciiptr := idx[offset..offset + PTR_SZ];
      pos := offset + PTR_SZ;
      v := Atol(asciiptr);
    }

    method WritePtr(offset: nat, v: nat, ghost p: Place) returns (ok: bool)
      requires Spelled() && HasPlace(st, p) && offset == PlaceOff(st, p)
      modifies this`idx, this`pos, this`st
      ensures ok == (v <= PTR_MAX)
      ensures ok ==> Spelled() && st == SetPtr(old(st), p, v)
      ensures ok ==> Offs(st.recs) == Offs(old(st).recs) && |idx| == |old(idx)|
      ensures !ok ==> idx == old(idx) && st == old(st)
    {
      if v > PTR_MAX {
        return false;
      }
      PlaceField(st, p, v);
      var asciiptr := Pad(PTR_SZ, v);
      idx := Splice(idx, offset, asciiptr);
      pos := offset + PTR_SZ;
      st := SetPtr(st, p, v);
      return true;
    }

    /** Read the index record at an offset, or with offset 0 the one at the current file offset. */
    method ReadIdx(offset: nat, ghost i: nat) returns (eof: bool)
      requires Spelled() && i <= |st.recs| && (offset != 0 ==> i < |st.recs|)
      requires Off(st.recs, i) == if offset == 0 then pos else offset
      modifies this`pos, this`idxbuf, this`idxoff, this`idxlen, this`datoff, this`datlen, this`ptrval
      ensures eof <==> i == |st.recs|
      ensures eof ==> pos == old(pos)
      ensures !eof ==> Holds(i) && pos == Off(st.recs, i + 1)
    {
      hide RecText, RecBody, Pad, FileText, ParseBody, Atol, Dec;
      idxoff := if offset == 0 then pos else offset;
      FileLength(st.heads, st.recs);
      if i < |st.recs| {
        RecPieces(st.heads, st.recs, i);
        AtolPad(PTR_SZ, st.recs[i].ptr);
        AtolPad(IDXLEN_SZ, |RecBody(st.recs[i])|);
        ParseInverts(st.recs[i]);
      }
      if idxoff == |idx| {
        return true;
      }
      ptrval := Atol(idx[idxoff..idxoff + PTR_SZ]);
      idxlen := Atol(idx[idxoff + PTR_SZ..idxoff + PTR_SZ + IDXLEN_SZ]);
      pos := idxoff + PTR_SZ + IDXLEN_SZ + idxlen;
      var fields := ParseBody(idx[idxoff + PTR_SZ + IDXLEN_SZ..pos]);
      idxbuf := fields.value.key;
      datoff := fields.value.datoff;
      datlen := fields.value.datlen;
      return false;
    }

    /** Read the data record that datoff and datlen describe. */
    method ReadDat() returns (data: string)
      requires datlen >= 1 && datoff + datlen <= |dat| && dat[datoff + datlen - 1] == NEWLINE
      modifies this`datbuf
      ensures data == dat[datoff..datoff + datlen - 1]
    {
      datbuf := dat[datoff..datoff + datlen];
      datbuf := datbuf[..datlen - 1];
      data := datbuf;
    }

    /** Write a data record and its newline at an offset, or at the end of the file. */
    method WriteDat(data: string, offset: nat, atEnd: bool)
      requires atEnd || offset + |data| + 1 <= |dat|
      modifies this`dat, this`datoff, this`datlen
      ensures datlen == |data| + 1 && datoff == if atEnd then |old(dat)| else offset
      ensures dat == if atEnd then old(dat) + (data + [NEWLINE]) else Splice(old(dat), offset, data + [NEWLINE])
    {
      datoff := if atEnd then |dat| else offset;
      datlen := |data| + 1;
      dat := if atEnd then dat + (data + [NEWLINE]) else Splice(dat, offset, data + [NEWLINE]);
    }

    /** Write an index record for the data record just written, at an offset or at the end of the file. */
    method WriteIdx(key: string, offset: nat, atEnd: bool, ptr: nat, ghost i: nat) returns (ok: bool)
      requires Spelled() && GoodKey(key) && DATLEN_MIN <= datlen <= DATLEN_MAX
      requires !atEnd ==> i < |st.recs| && offset == Off(st.recs, i)
      requires !atEnd && ptr <= PTR_MAX ==> |RecText(Rec(ptr, key, datoff, datlen))| == |RecText(st.recs[i])|
      modifies this`idx, this`pos, this`idxbuf, this`idxoff, this`ptrval, this`st
      ensures var r := Rec(ptr, key, datoff, datlen);
              && ok == (ptr <= PTR_MAX && |RecBody(r)| <= IDXLEN_MAX)
              && (ok ==> Spelled() && GoodRec(r) && st == if atEnd then Grow(old(st), r)
                   else old(st).(recs := old(st).recs[i := r]))
      ensures ok ==> idxoff == if atEnd then |old(idx)| else offset
      ensures ok ==> |idx| == |old(idx)| + if atEnd then |RecText(Rec(ptr, key, datoff, datlen))| else 0
      ensures !ok ==> idx == old(idx) && st == old(st)
    {
      hide Pad, FileText, Dec;
      ghost var r := Rec(ptr, key, datoff, datlen);
      ptrval := ptr;
      if ptrval > PTR_MAX {
        return false;
      }
      idxbuf := key + [SEP] + Dec(datoff) + [SEP] + Dec(datlen) + [NEWLINE];
      var len := |idxbuf|;
      if len < IDXLEN_MIN || len > IDXLEN_MAX {
        return false;
      }
      var asciiptrlen := Pad(PTR_SZ, ptrval) + Pad(IDXLEN_SZ, len);
      assert asciiptrlen + idxbuf == RecText(r);
      if atEnd {
        idxoff := |idx|;
        AppendRec(st.heads, st.recs, r);
        idx := idx + (asciiptrlen + idxbuf);
        st := Grow(st, r);
      } else {
        idxoff := offset;
        RecField(st.heads, st.recs, i, r);
        idx := Splice(idx, offset, asciiptrlen + idxbuf);
        st := st.(recs := st.recs[i := r]);
      }
      pos := idxoff + PTR_SZ + IDXLEN_SZ + len;
      return true;
    }

    // ----- searching

    /** The weighted sum of the key's characters, in 64-bit unsigned arithmetic, modulo the table size. */
    method DbHash(key: string) returns (h: nat)
      ensures h == Hash(key)
    {
      var hval := 0;
      for i := 0 to |key|
        invariant hval == WeightedSum(key[..i]) % TWO_64
      {
        assert key[..i + 1][..i] == key[..i];
        hval := (hval + SignedChar(key[i]) * (i + 1)) % TWO_64;
      }
      assert key[..|key|] == key;
      h := hval % NHASH;
    }

    /** Walk the hash chain of a key. On success the handle describes the record, position j of the chain, and
        ptroff is the offset of the pointer to it. */
    method FindAndLock(key: string) returns (found: bool, ghost j: nat)
      requires Spelled() && GoodList(st, 1 + Hash(key))
      modifies this`pos, this`idxbuf, this`idxoff, this`idxlen, this`datoff,
               this`datlen, this`ptrval, this`ptroff, this`chainoff
      ensures chainoff == (1 + Hash(key)) * PTR_SZ
      ensures found ==> OnList(st, 1 + Hash(key), j) && Holds(st.lists[1 + Hash(key)][j]) && idxbuf == key
      ensures found ==> ptroff == PlaceOff(st, Pointing(st, 1 + Hash(key), j))
      ensures !found ==> Avoids(st.recs, st.lists[1 + Hash(key)], key)
    {
      hide FileText, GoodHeads, GoodRecs, GoodList, Off, Target, WeightedSum;
      var h := DbHash(key);
      chainoff := h * PTR_SZ + HASH_OFF;
      ptroff := chainoff;
      ghost var s: nat := 1 + h;
      ghost var list := st.lists[s];
      j := 0;
      ListStep(st, s, j);
      var offset := ReadPtr(ptroff, Head(s));
      while offset != 0
        invariant j <= |list| && offset == Target(Offs(st.recs), list, j)
        invariant chainoff == s * PTR_SZ && ptroff == PlaceOff(st, Pointing(st, s, j))
        invariant Avoids(st.recs, list[..j], key)
        decreases |list| - j
      {
        ListStep(st, s, j);
        var eof := ReadIdx(offset, list[j]);
        if idxbuf == key {
          return true, j;
        }
        ptroff := offset;
        offset := ptrval;
        j := j + 1;
      }
      ListStep(st, s, j);
      assert list[..|list|] == list;
      return false, j;
    }

    // ----- deletion

    /** Move the record the handle describes from position j of chain s to the front of the free list, blank. */
    method DoDelete(ghost s: nat, ghost j: nat)
      requires Valid() && 1 <= s && OnList(st, s, j) && Holds(st.lists[s][j])
      requires ptroff == PlaceOff(st, Pointing(st, s, j))
      modifies this`idx, this`dat, this`pos, this`idxbuf, this`datbuf, this`idxoff, this`datoff, this`datlen,
               this`ptrval, this`st, this`m
      ensures Valid() && m == Minus(old(m), old(idxbuf))
      ensures |idx| == |old(idx)| && |dat| == |old(dat)| && |st.recs| == |old(st).recs|
      ensures st == Deleted(old(st), s, j)
    {
      hide FileText, RecText, RecBody, GoodHeads, GoodRecs, GoodRec, Consistent, Contents, Settled, Offs, Off, Unlink,
          PutFront, Pad, Dec,
           Minus, Splice, Spaces, Blank, PlaceOff, Deleted, SetPtr;
      ghost var st0, i := st, st.lists[s][j];
      BlankFits(st0, s, j, dat, m);
      DeletePath(st0, s, j);
      DeletedConsistent(st0, s, j);
      DeletedContents(st0, s, j, dat, m);
      datbuf := Spaces(datlen - 1);
      idxbuf := Blank(idxbuf);
      WriteDat(datbuf, datoff, false);
      FreePlace(st);
      var freeptr := ReadPtr(FREE_OFF, Head(0));
      var saveptr := ptrval;
      var ok := WriteIdx(idxbuf, idxoff, false, freeptr, i);
      FreePlace(st);
      ok := WritePtr(FREE_OFF, idxoff, Head(0));
      ok := WritePtr(ptroff, saveptr, Pointing(st0, s, j));
      assert st.heads == Deleted(st0, s, j).heads && st.recs == Deleted(st0, s, j).recs;
      ConsistentGood(Deleted(st0, s, j));
      st := Deleted(st0, s, j);
      m := Minus(m, st0.recs[i].key);
    }

    method Delete(key: string) returns (rc: int)
      requires Valid()
      modifies this
      ensures Valid() && m == Minus(old(m), key)
      ensures rc == if key in old(m) then 0 else -1
      ensures rc != 0 ==> idx == old(idx) && dat == old(dat)
      ensures |idx| == |old(idx)| && |dat| == |old(dat)|
    {
      hide FileText, GoodHeads, GoodRecs, GoodRec, GoodList, Consistent, Contents;
      hide Settled, Entries, Offs, Off, PlaceOff, Deleted, Hash, Represents;
      ChainIsGood(st, 1 + Hash(key));
      var found, j := FindAndLock(key);
      if found {
        OnChain(st, dat, m, 1 + Hash(key), j);
        DoDelete(1 + Hash(key), j);
        rc := 0;
      } else {
        NotOnChain(st, dat, m, key);
        rc := -1;
      }
    }

    /** The data of a key, or None. */
    method Fetch(key: string) returns (data: Option<string>)
      requires Valid()
      modifies this`pos, this`idxbuf, this`datbuf, this`idxoff, this`idxlen, this`datoff, this`datlen, this`ptrval,
               this`ptroff, this`chainoff
      ensures Valid()
      ensures data == if key in m then Some(m[key]) else None
    {
      hide FileText, GoodHeads, GoodRecs, GoodList, Consistent, Contents, Settled, Entries, Offs, Off, PlaceOff;
      ChainIsGood(st, 1 + Hash(key));
      var found, j := FindAndLock(key);
      if found {
        OnChain(st, dat, m, 1 + Hash(key), j);
        var d := ReadDat();
        data := Some(d);
      } else {
        NotOnChain(st, dat, m, key);
        data := None;
      }
    }

    // ----- insertion

    /** Take the first free record whose key and data are exactly as long as wanted off the free list. */
    method FindFree(keylen: nat, len: nat) returns (found: bool, ghost j: nat)
      requires Valid()
      modifies this`idx, this`pos, this`idxbuf, this`idxoff, this`idxlen, this`datoff, this`datlen, this`ptrval, this`st
      ensures found <==> FreeFits(old(st), keylen, len)
      ensures found ==> Spelled() && OnList(old(st), 0, j) && st == Unlink(old(st), 0, j) && |idx| == |old(idx)|
      ensures found ==> var i := old(st).lists[0][j];
                        && Fits(old(st).recs[i], keylen, len)
                        && idxoff == Off(old(st).recs, i) && datoff == old(st).recs[i].datoff && datlen == len
      ensures found ==> forall k :: 0 <= k < j ==> !Fits(old(st).recs[old(st).lists[0][k]], keylen, len)
      ensures !found ==> idx == old(idx) && st == old(st)
    {
      hide FileText, GoodHeads, GoodRecs, GoodList, Covered, Represents, Off, Target;
      ghost var list := st.lists[0];
      ChainIsGood(st, 0);
      var saveoffset := FREE_OFF;
      j := 0;
      ListStep(st, 0, j);
      var offset := ReadPtr(saveoffset, Head(0));
      while offset != 0
        invariant idx == old(idx) && st == old(st)
        invariant j <= |list| && offset == Target(Offs(st.recs), list, j)
        invariant saveoffset == PlaceOff(st, Pointing(st, 0, j))
        invariant forall k :: 0 <= k < j ==> list[k] < |st.recs| && !Fits(st.recs[list[k]], keylen, len)
        decreases |list| - j
      {
        ListStep(st, 0, j);
        var eof := ReadIdx(offset, list[j]);
        if |idxbuf| == keylen && datlen == len {
          PtrFits(st, list[j]);
          var ok := WritePtr(saveoffset, ptrval, Pointing(st, 0, j));
          st := Unlink(old(st), 0, j);
          return true, j;
        }
        saveoffset := offset;
        offset := ptrval;
        j := j + 1;
      }
      ListStep(st, 0, j);
      return false, j;
    }

    /** Append the data and index records of a new key and link them in front of its chain. */
    method AddAtEnd(key: string, data: string, front: nat) returns (ok: bool)
      requires Valid() && GoodKey(key) && key !in m && DATLEN_MIN <= |data| + 1 <= DATLEN_MAX
      requires chainoff == (1 + Hash(key)) * PTR_SZ && front == st.heads[1 + Hash(key)]
      modifies this`idx, this`dat, this`pos, this`idxbuf, this`idxoff, this`datoff,
               this`datlen, this`ptrval, this`st, this`m
      ensures ok == Appendable(key, data, |old(idx)|, |old(dat)|)
      ensures ok ==> Valid() && m == old(m)[key := data] && |st.recs| == |old(st).recs| + 1
    {
      hide FileText, RecText, RecBody, GoodHeads, GoodRecs, GoodRec, Consistent;
      hide Contents, Settled, Offs, Off, PutFront, Pad, Dec;
      ghost var st0, dat0, s := st, dat, 1 + Hash(key);
      ghost var r := Rec(front, key, |dat|, |data| + 1);
      HeadFits(st, s);
      BodyIgnoresPtr(r);
      WriteDat(data, 0, true);
      ok := WriteIdx(key, 0, true, front, 0);
      if !ok {
        return;
      }
      FileLength(st0.heads, st0.recs);
      AddedState(st0, s, r, dat0, data, m);
      ok := WritePtr(chainoff, idxoff, Head(s));
      if !ok {
        return;
      }
      st := Added(st0, s, r);
      m := m[key := data];
    }

    /** Rewrite the free record in hand for a new key and link it in front of its chain. */
    method Reuse(key: string, data: string, front: nat, ghost st0: State, ghost j: nat)
      requires Spelled() && Consistent(st0) && Settled(st0) && Contents(st0, dat, m)
      requires OnList(st0, 0, j) && st == Unlink(st0, 0, j) && Fits(st0.recs[st0.lists[0][j]], |key|, |data| + 1)
      requires idxoff == Off(st0.recs, st0.lists[0][j]) && datoff == st0.recs[st0.lists[0][j]].datoff
      requires GoodKey(key) && key !in m && DATLEN_MIN <= |data| + 1 <= DATLEN_MAX
      requires chainoff == (1 + Hash(key)) * PTR_SZ && front == st0.heads[1 + Hash(key)]
      modifies this`idx, this`dat, this`pos, this`idxbuf, this`idxoff, this`datoff,
               this`datlen, this`ptrval, this`st, this`m
      ensures Valid() && m == old(m)[key := data]
      ensures |idx| == |old(idx)| && |dat| == |old(dat)| && |st.recs| == |st0.recs|
    {
      hide FileText, RecText, RecBody, GoodHeads, GoodRecs, GoodRec, Consistent;
      hide Contents, Settled, Offs, Off, PutFront, Pad, Dec, Unlink;
      ghost var s, i := 1 + Hash(key), st0.lists[0][j];
      ghost var r := Rec(front, key, datoff, |data| + 1);
      ConsistentHead(st0, s);
      ReuseFits(st0, j, r, dat, m);
      ReusedState(st0, s, j, r, dat, data, m);
      WriteDat(data, datoff, false);
      var ok := WriteIdx(key, idxoff, false, front, i);
      ok := WritePtr(chainoff, idxoff, Head(s));
      st := PutFront(Unlink(st0, 0, j), s, i, r);
      m := m[key := data];
    }

    /** Store data under a key, as the flag allows. The call dumps core exactly when the data length is out of
        range, or a record has to be appended and does not fit; otherwise only the key's data changes, and the
        files grow by one record exactly when one is appended. */
    method Store(key: string, data: string, flag: int) returns (rc: int, dumped: bool)
      requires Valid() && GoodKey(key)
      modifies this
      ensures dumped <==>
                && ValidFlag(flag)
                && (DATLEN_MIN <= |data| + 1 <= DATLEN_MAX ==>
                      Appends(old(st), old(m), key, data, flag) && !Appendable(key, data, |old(idx)|, |old(dat)|))
      ensures !dumped ==> Valid() && rc == StoreResult(old(m), key, flag)
      ensures !dumped ==> rc == if flag == 1 then (if key in old(m) then 1 else 0)
        else if flag == 2 then (if key in old(m) then 0 else -1) else if flag == 3 then 0 else -1
      ensures !dumped ==> m == if rc == 0 then old(m)[key := data] else old(m)
      ensures !dumped && rc != 0 ==> idx == old(idx) && dat == old(dat)
      ensures !dumped && !Appends(old(st), old(m), key, data, flag) ==> |idx| == |old(idx)| && |dat| == |old(dat)|
      ensures !dumped ==> |st.recs| == |old(st).recs| + if Appends(old(st), old(m), key, data, flag) then 1 else 0
    {
      hide FileText, GoodHeads, GoodRecs, GoodList, Consistent, Contents, Settled, Entries, Offs, Off, Unlink, Hash,
           OnlyExtent, Appendable, FreeFits, Pad, RecText, Deleted;
      dumped := false;
      if flag != DB_INSERT && flag != DB_REPLACE && flag != DB_STORE {
        return -1, false;
      }
      var keylen := |key|;
      var len := |data| + 1;
      if len < DATLEN_MIN || len > DATLEN_MAX {
        return -1, true;
      }
      ghost var s := 1 + Hash(key);
      ChainIsGood(st, s);
      var found, j := FindAndLock(key);
      if !found {
        NotOnChain(st, dat, m, key);
        if flag == DB_REPLACE {
          return -1, false;
        }
        var front := ReadPtr(chainoff, Head(s));
        ghost var st0 := st;
        var free, k := FindFree(keylen, len);
        if !free {
          var ok := AddAtEnd(key, data, front);
          dumped := !ok;
        } else {
          Reuse(key, data, front, st0, k);
        }
      } else {
        OnChain(st, dat, m, s, j);
        if flag == DB_INSERT {
          return 1, false;
        }
        if len != datlen {
          DoDelete(s, j);
          var front := ReadPtr(chainoff, Head(s));
          var ok := AddAtEnd(key, data, front);
          dumped := !ok;
        } else {
          OverwriteContents(st, s, j, dat, data, m);
          WriteDat(data, datoff, false);
          m := m[key := data];
        }
      }
      rc := 0;
    }

    // ----- reading everything

    /** Set the file offset to the first index record. */
    method Rewind()
      requires Valid()
      modifies this`pos, this`idxoff
      ensures Valid() && pos == Off(st.recs, 0)
    {
      idxoff := (NHASH + 1) * PTR_SZ + 1;
      pos := idxoff;
    }

    method KeyIsBlank() returns (blank: bool)
      ensures blank <==> AllBlank(idxbuf)
    {
      var i := 0;
      while i < |idxbuf| && idxbuf[i] == SPACE
        invariant i <= |idxbuf| && AllBlank(idxbuf[..i])
      {
        i := i + 1;
      }
      blank := i == |idxbuf|;
      if blank {
        assert idxbuf[..i] == idxbuf;
      }
    }

    /** The next record in file order whose key is not blank; None at the end of the file. */
    method NextRec(ghost c: nat) returns (r: Option<(string, string)>, ghost n: nat)
      requires Valid() && c <= |st.recs| && pos == Off(st.recs, c)
      modifies this`pos, this`idxbuf, this`datbuf, this`idxoff, this`idxlen, this`datoff, this`datlen, this`ptrval
      ensures Valid() && c <= n <= |st.recs| && pos == Off(st.recs, n)
      ensures r.None? ==> n == |st.recs| && AllBlankFrom(st.recs, c, n)
      ensures r.Some? ==> c < n && AllBlankFrom(st.recs, c, n - 1)
      ensures r.Some? ==> r.value.0 == st.recs[n - 1].key && !AllBlank(r.value.0)
      ensures r.Some? ==> r.value.0 in m && m[r.value.0] == r.value.1 && Entries(st)[n - 1].Chained()
    {
      hide FileText, Good, GoodList, Contents, Settled, Consistent, Offs, Off, Hash;
      n := c;
      while true
        invariant Spelled() && c <= n <= |st.recs| && pos == Off(st.recs, n) && AllBlankFrom(st.recs, c, n)
        decreases |st.recs| - n
      {
        var eof := ReadIdx(0, n);
        if eof {
          r := None;
          return;
        }
        n := n + 1;
        var blank := KeyIsBlank();
        if !blank {
          break;
        }
      }
      NotBlankIsChained(st, dat, m, n - 1);
      var d := ReadDat();
      r := Some((idxbuf, d));
    }

    /** Rewind, then nextrec to the end of the file, with no other call in between: every live key that is not
        all blanks comes up exactly once, with its data. */
    method Scan() returns (all: seq<(string, string)>)
      requires Valid()
      modifies this`pos, this`idxbuf, this`datbuf, this`idxoff, this`idxlen, this`datoff, this`datlen, this`ptrval
      ensures Valid()
      ensures forall i, j :: 0 <= i < j < |all| ==> all[i].0 != all[j].0
      ensures forall p :: p in all <==> p.0 in m && m[p.0] == p.1 && !AllBlank(p.0)
    {
      hide FileText, Good, GoodList, Settled, Consistent, Offs, Off, Hash, Represents, Entries;
      all := [];
      Rewind();
      ghost var c: nat := 0;
      while true
        invariant Valid() && c <= |st.recs| && pos == Off(st.recs, c)
        invariant Listed(st, m, c, all)
        decreases |st.recs| - c
      {
        ghost var c0 := c;
        var r, n := NextRec(c);
        c := n;
        if r.None? {
          ListedEnd(st, dat, m, c0, all);
          return;
        }
        ListedNext(st, dat, m, c0, n, all, r.value);
        all := all + [r.value];
      }
    }
  }

  lemma EmptyValid(st: State)
    requires st == State(seq(SLOTS, _ => 0), [], seq(SLOTS, _ => []), [])
    ensures Consistent(st) && Settled(st) && Contents(st, "", map[])
    ensures FileText(st.heads, st.recs) == Join(Pads(st.heads)) + [NEWLINE]
  {
    forall s | 0 <= s < SLOTS
      ensures GoodList(st, s)
    {
      assert st.lists[s] == [];
    }
    assert Texts([]) == [] && Join([]) == "";
  }

  predicate ValidFlag(flag: int) {
    flag == DB_INSERT || flag == DB_REPLACE || flag == DB_STORE
  }

  /** 0 when the data is stored, 1 for an insert of a present key, -1 for a replacement of an absent one. */
  function StoreResult(m: map<string, string>, key: string, flag: int): int {
    if !ValidFlag(flag) then -1
    else if key in m then (if flag == DB_INSERT then 1 else 0)
    else (if flag == DB_REPLACE then -1 else 0)
  }

  /** The store needs a new record: the key is new and no free record has the right lengths, or the key's data
      has another length. */
  predicate Appends(st: State, m: map<string, string>, key: string, data: string, flag: int) {
    && ValidFlag(flag)
    && if key in m then flag != DB_INSERT && |m[key]| != |data|
       else flag != DB_REPLACE && !FreeFits(st, |key|, |data| + 1)
  }

  lemma OverwriteContents(st: State, s: nat, j: nat, dat: string, data: string, m: map<string, string>)
    requires Consistent(st) && Contents(st, dat, m) && 1 <= s && OnList(st, s, j)
    requires |data| + 1 == st.recs[st.lists[s][j]].datlen
    ensures var r := st.recs[st.lists[s][j]];
            && r.datoff + r.datlen <= |dat| && r.key in m
            && Contents(st, Splice(dat, r.datoff, data + [NEWLINE]), m[r.key := data])
  {
    hide Consistent, Hash, Splice;
    var i := st.lists[s][j];
    var e := Entries(st)[i];
    ListedOwner(st, s, j);
    assert e.Stands(dat, m);
    SpliceExtent(dat, e, data);
    Overwrite(Entries(st), i, dat, Splice(dat, e.datoff, data + [NEWLINE]), m);
  }

  lemma SpliceExtent(dat: string, e: Entry, data: string)
    requires e.datlen == |data| + 1 && e.datoff + e.datlen <= |dat|
    ensures var dat' := Splice(dat, e.datoff, data + [NEWLINE]);
            OnlyExtent(dat, dat', e) && e.InFile(dat') && e.Data(dat') == data
  {
  }

  predicate AllBlankFrom(recs: seq<Rec>, c: nat, n: nat)
    requires n <= |recs|
  {
    forall i :: c <= i < n ==> AllBlank(recs[i].key)
  }

  /** A record whose key is not blank is on a hash chain, so it stands for its key. */
  lemma NotBlankIsChained(st: State, dat: string, m: map<string, string>, i: nat)
    requires Consistent(st) && Settled(st) && Contents(st, dat, m) && i < |st.recs| && !AllBlank(st.recs[i].key)
    ensures var r := st.recs[i];
            && r.datlen >= 1 && r.datoff + r.datlen <= |dat| && dat[r.datoff + r.datlen - 1] == NEWLINE
            && r.key in m && m[r.key] == dat[r.datoff..r.datoff + r.datlen - 1]
            && Entries(st)[i].Chained()
  {
    assert Entries(st)[i].Stands(dat, m);
  }

  /** The pairs listed so far are the non-blank records before position c. */
  ghost predicate Listed(st: State, m: map<string, string>, c: nat, all: seq<(string, string)>)
    requires c <= |st.recs|
  {
    && (forall i, j :: 0 <= i < j < |all| ==> all[i].0 != all[j].0)
    && (forall p :: p in all ==> p.0 in m && m[p.0] == p.1 && KeyBefore(st, c, p.0))
    && (forall i :: 0 <= i < c && !AllBlank(st.recs[i].key) ==>
          st.recs[i].key in m && (st.recs[i].key, m[st.recs[i].key]) in all)
  }

  ghost predicate KeyBefore(st: State, c: nat, key: string)
    requires c <= |st.recs|
  {
    !AllBlank(key) && exists i :: 0 <= i < c && st.recs[i].key == key
  }

  lemma ListedNext(st: State, dat: string, m: map<string, string>, c: nat, n: nat, all: seq<(string, string)>,
      p: (string, string))
    requires Consistent(st) && Settled(st) && Contents(st, dat, m) && c < n <= |st.recs| && Listed(st, m, c, all)
    requires AllBlankFrom(st.recs, c, n - 1) && p.0 == st.recs[n - 1].key && !AllBlank(p.0) && p.0 in m && m[p.0] == p.1
    ensures Listed(st, m, n, all + [p])
  {
    hide AllBlank, Consistent, Contents, Settled;
    forall i | 0 <= i < |all|
      ensures all[i].0 != p.0
    {
      assert all[i] in all;
      NotListedYet(st, dat, m, c, n, all[i].0);
    }
  }

  /** No two records that are not blank have the same key. */
  lemma NotListedYet(st: State, dat: string, m: map<string, string>, c: nat, n: nat, key: string)
    requires Consistent(st) && Settled(st) && Contents(st, dat, m) && c < n <= |st.recs| && KeyBefore(st, c, key)
    requires !AllBlank(st.recs[n - 1].key)
    ensures key != st.recs[n - 1].key
  {
    hide AllBlank, Consistent, Settled;
    var k :| 0 <= k < c && st.recs[k].key == key;
    NotBlankIsChained(st, dat, m, k);
    NotBlankIsChained(st, dat, m, n - 1);
    assert Separate(Entries(st)[k], Entries(st)[n - 1]);
  }

  lemma ListedEnd(st: State, dat: string, m: map<string, string>, c: nat, all: seq<(string, string)>)
    requires Contents(st, dat, m) && c <= |st.recs| && Listed(st, m, c, all) && AllBlankFrom(st.recs, c, |st.recs|)
    ensures forall p :: p in all <==> p.0 in m && m[p.0] == p.1 && !AllBlank(p.0)
  {
    forall p: (string, string) | p.0 in m && m[p.0] == p.1 && !AllBlank(p.0)
      ensures p in all
    {
      assert Recorded(Entries(st), p.0);
      var i :| 0 <= i < |Entries(st)| && Entries(st)[i].Chained() && Entries(st)[i].key == p.0;
      assert st.recs[i].key == p.0;
    }
  }

  /** The new record fits the limits: its index record is not too long and its offset fits a pointer. */
  predicate Appendable(key: string, data: string, idxsize: nat, datsize: nat) {
    |RecBody(Rec(0, key, datsize, |data| + 1))| <= IDXLEN_MAX && idxsize <= PTR_MAX
  }

  /** The state after a record has been appended and linked in front of list s. */
  function Added(st: State, s: nat, r: Rec): State
    requires Sized(st) && s < SLOTS
  {
    PutFront(Grow(st, r), s, |st.recs|, r)
  }

  lemma FreePlace(st: State)
    requires Sized(st)
    ensures HasPlace(st, Head(0)) && PlaceOff(st, Head(0)) == FREE_OFF
  {
  }

  lemma ConsistentGood(st: State)
    requires Consistent(st)
    ensures Good(st)
  {
  }

  lemma HeadFits(st: State, s: nat)
    requires Good(st) && s < SLOTS
    ensures st.heads[s] <= PTR_MAX
  {
  }

  lemma ConsistentHead(st: State, s: nat)
    requires Consistent(st) && s < SLOTS
    ensures st.heads[s] <= PTR_MAX
  {
  }

  lemma BodyIgnoresPtr(r: Rec)
    ensures RecBody(r) == RecBody(r.(ptr := 0))
  {
  }

  lemma AddedState(st: State, s: nat, r: Rec, dat: string, data: string, m: map<string, string>)
    requires Consistent(st) && Settled(st) && Contents(st, dat, m) && 1 <= s < SLOTS && GoodRec(r)
    requires r.ptr == st.heads[s]
    requires r.datoff == |dat| && r.datlen == |data| + 1 && s == 1 + Hash(r.key) && r.key !in m
    ensures var st' := Added(st, s, r);
            && st'.heads == SetPtr(Grow(st, r), Head(s), Off(st.recs, |st.recs|)).heads && st'.recs == Grow(st, r).recs
            && |st'.recs| == |st.recs| + 1
    ensures Off(st.recs, |st.recs|) <= PTR_MAX ==>
              var st' := Added(st, s, r);
              Good(st') && Consistent(st') && Settled(st') && Contents(st', dat + (data + [NEWLINE]), m[r.key := data])
  {
    hide RecText, RecBody, GoodRec, Off, Covered, Represents, OwnsList, Spells, WeightedSum, AllBlank;
    var st1 := Grow(st, r);
    var more := data + [NEWLINE];
    GrowConsistent(st, r);
    GrowContents(st, r, dat, more, m);
    if Off(st.recs, |st.recs|) <= PTR_MAX {
      PutFrontConsistent(st1, s, |st.recs|, r);
      PutFrontContents(st1, s, |st.recs|, r, dat + more, dat + more, m);
    }
  }

  /** A new record with the key length and extents of a free one is exactly as long. */
  lemma ReuseFits(st: State, j: nat, r: Rec, dat: string, m: map<string, string>)
    requires Consistent(st) && Contents(st, dat, m) && OnList(st, 0, j) && GoodKey(r.key) && r.ptr <= PTR_MAX
    requires var f := st.recs[st.lists[0][j]];
             |r.key| == |f.key| && r.datoff == f.datoff && r.datlen == f.datlen
    ensures var i := st.lists[0][j];
            && GoodRec(r) && |RecText(r)| == |RecText(st.recs[i])| && |RecBody(r)| <= IDXLEN_MAX
            && r.datoff + r.datlen <= |dat| && Off(st.recs, i) <= PTR_MAX
            && Unlink(st, 0, j).recs[i].(ptr := 0) == st.recs[i].(ptr := 0)
            && |RecText(Unlink(st, 0, j).recs[i])| == |RecText(st.recs[i])|
            && Offs(Unlink(st, 0, j).recs) == Offs(st.recs)
            && Off(Unlink(st, 0, j).recs, i) == Off(st.recs, i)
  {
    var i := st.lists[0][j];
    ListedOff(st, 0, j);
    assert GoodRec(st.recs[i]);
    RecParts(r);
    RecParts(st.recs[i]);
    UnlinkGood(st, 0, j);
    assert Offs(Unlink(st, 0, j).recs)[i] == Offs(st.recs)[i];
    assert Entries(st)[i].Stands(dat, m);
    ListedOwner(st, 0, j);
    assert j > 0 ==> st.lists[0][j - 1] != i by { assert GoodList(st, 0); }
  }

  lemma ReusedState(st: State, s: nat, j: nat, r: Rec, dat: string, data: string, m: map<string, string>)
    requires Consistent(st) && Settled(st) && Contents(st, dat, m) && 1 <= s < SLOTS && OnList(st, 0, j)
    requires GoodRec(r) && r.ptr == st.heads[s] && |data| + 1 == r.datlen && s == 1 + Hash(r.key) && r.key !in m
    requires var i := st.lists[0][j];
             && r.datoff == st.recs[i].datoff && r.datlen == st.recs[i].datlen && r.datoff + r.datlen <= |dat|
             && |RecText(r)| == |RecText(st.recs[i])| == |RecText(Unlink(st, 0, j).recs[i])|
             && Off(st.recs, i) <= PTR_MAX
             && Offs(Unlink(st, 0, j).recs) == Offs(st.recs)
    ensures var i := st.lists[0][j];
            var st' := PutFront(Unlink(st, 0, j), s, i, r);
            && Good(st') && Consistent(st') && Settled(st')
            && Contents(st', Splice(dat, r.datoff, data + [NEWLINE]), m[r.key := data])
            && st'.recs == Unlink(st, 0, j).recs[i := r] && |st'.recs| == |st.recs|
            && st'.heads == Unlink(st, 0, j).heads[s := Off(st.recs, i)]
            && Offs(st'.recs) == Offs(st.recs)
  {
    hide RecText, RecBody, GoodRec, Off, Covered, Represents, OwnsList, Spells, WeightedSum, AllBlank;
    var i := st.lists[0][j];
    var st1 := Unlink(st, 0, j);
    var dat' := Splice(dat, r.datoff, data + [NEWLINE]);
    UnlinkConsistent(st, 0, j);
    ListedOwner(st, 0, j);
    UnlinkContents(st, 0, j, dat, m);
    assert Offs(st1.recs)[i] == Offs(st.recs)[i];
    assert st1.heads[s] == st.heads[s];
    PutFrontConsistent(st1, s, i, r);
    PutFrontContents(st1, s, i, r, dat, dat', m);
    assert dat'[r.datoff..r.datoff + r.datlen - 1] == data;
  }

  predicate Fits(r: Rec, keylen: nat, len: nat) {
    |r.key| == keylen && r.datlen == len
  }

  /** Some free record has exactly the wanted lengths. */
  predicate FreeFits(st: State, keylen: nat, len: nat) {
    |st.lists| == SLOTS && exists k ::
      0 <= k < |st.lists[0]| && st.lists[0][k] < |st.recs| && Fits(st.recs[st.lists[0][k]], keylen, len)
  }

  lemma ChainIsGood(st: State, s: nat)
    requires Consistent(st) && s < SLOTS
    ensures GoodList(st, s)
  {
  }

  lemma PtrFits(st: State, i: nat)
    requires Good(st) && i < |st.recs|
    ensures st.recs[i].ptr <= PTR_MAX
  {
    assert GoodRec(st.recs[i]);
  }

  /** What a pointer read in the walk of a list means. */
  lemma ListStep(st: State, s: nat, j: nat)
    requires Good(st) && s < SLOTS && GoodList(st, s) && j <= |st.lists[s]|
    ensures var list := st.lists[s];
            var offset := Target(Offs(st.recs), list, j);
            && (offset == 0 <==> j == |list|)
            && (j == 0 ==> st.heads[s] == offset)
            && (j < |list| ==> OnList(st, s, j) && offset == Off(st.recs, list[j])
                               && st.recs[list[j]].ptr == Target(Offs(st.recs), list, j + 1))
  {
  }

  /** The record a deleted record becomes: the same extents under a blank key, in front of the free list. */
  function BlankRec(st: State, i: nat): Rec
    requires Sized(st) && i < |st.recs|
  {
    Rec(st.heads[0], Blank(st.recs[i].key), st.recs[i].datoff, st.recs[i].datlen)
  }

  /** The state after the record at position j of chain s has moved to the front of the free list. */
  function Deleted(st: State, s: nat, j: nat): State
    requires Sized(st) && OnList(st, s, j)
  {
    PutFront(Unlink(st, s, j), 0, st.lists[s][j], BlankRec(st, st.lists[s][j]))
  }

  /** A record on a list is pointed to, so its offset fits a pointer field. */
  lemma ListedOff(st: State, s: nat, j: nat)
    requires Consistent(st) && OnList(st, s, j)
    ensures Off(st.recs, st.lists[s][j]) <= PTR_MAX
  {
    assert GoodList(st, s);
    ListStep(st, s, j);
    if j > 0 {
      ListStep(st, s, j - 1);
      assert GoodRec(st.recs[st.lists[s][j - 1]]);
    }
  }

  lemma BlankKeepsSize(r: Rec, ptr: nat)
    requires GoodRec(r) && ptr <= PTR_MAX
    ensures var b := Rec(ptr, Blank(r.key), r.datoff, r.datlen);
            GoodRec(b) && |RecText(b)| == |RecText(r)|
  {
    RecParts(r);
    RecParts(Rec(ptr, Blank(r.key), r.datoff, r.datlen));
  }

  lemma BlankFits(st: State, s: nat, j: nat, dat: string, m: map<string, string>)
    requires Consistent(st) && Contents(st, dat, m) && OnList(st, s, j)
    ensures var i := st.lists[s][j];
            var r := st.recs[i];
            var b := BlankRec(st, i);
            && r.datoff + r.datlen <= |dat| && DATLEN_MIN <= r.datlen <= DATLEN_MAX
            && GoodKey(b.key) && GoodRec(b) && |RecText(b)| == |RecText(r)| && |RecBody(b)| <= IDXLEN_MAX
            && st.heads[0] <= PTR_MAX && r.ptr <= PTR_MAX && Off(st.recs, i) <= PTR_MAX
  {
    var i := st.lists[s][j];
    ListedOff(st, s, j);
    assert GoodRec(st.recs[i]);
    BlankKeepsSize(st.recs[i], st.heads[0]);
    assert Entries(st)[i].Stands(dat, m);
  }

  /** The three index writes of a deletion, in the program's order, end in the state `Deleted`. */
  lemma DeletePath(st: State, s: nat, j: nat)
    requires Consistent(st) && 1 <= s && OnList(st, s, j)
    ensures var i := st.lists[s][j];
            var p := Pointing(st, s, j);
            var st1 := st.(recs := st.recs[i := BlankRec(st, i)]);
            var st2 := SetPtr(st1, Head(0), Off(st.recs, i));
            && HasPlace(st2, p) && PlaceOff(st2, p) == PlaceOff(st, p)
            && SetPtr(st2, p, st.recs[i].ptr).heads == Deleted(st, s, j).heads
            && SetPtr(st2, p, st.recs[i].ptr).recs == Deleted(st, s, j).recs
  {
    hide RecText, RecBody, Off, Covered, GoodHeads, GoodRecs, Spells;
    var i := st.lists[s][j];
    var p := Pointing(st, s, j);
    assert GoodList(st, s);
    UnlinkGood(st, s, j);
    BlankOffs(st, i);
    if j > 0 {
      assert st.lists[s][j - 1] != i;
      assert Offs(st.recs)[p.i] == Offs(st.recs[i := BlankRec(st, i)])[p.i];
    }
    assert Offs(Unlink(st, s, j).recs)[i] == Offs(st.recs)[i];
  }

  lemma BlankOffs(st: State, i: nat)
    requires Good(st) && i < |st.recs|
    ensures Offs(st.recs[i := BlankRec(st, i)]) == Offs(st.recs)
  {
    assert GoodRec(st.recs[i]);
    BlankKeepsSize(st.recs[i], st.heads[0]);
    OffsSame(st.recs, st.recs[i := BlankRec(st, i)]);
  }

  lemma DeletedConsistent(st: State, s: nat, j: nat)
    requires Consistent(st) && Settled(st) && 1 <= s && OnList(st, s, j)
    ensures Consistent(Deleted(st, s, j)) && Settled(Deleted(st, s, j))
    ensures Offs(Deleted(st, s, j).recs) == Offs(st.recs) && |Deleted(st, s, j).recs| == |st.recs|
  {
    hide GoodRec, RecText, RecBody, Spells, OwnsList, Covered, Offs, Off, BlankRec;
    var i := st.lists[s][j];
    var st1 := Unlink(st, s, j);
    UnlinkConsistent(st, s, j);
    assert GoodList(st, s);
    ListedOff(st, s, j);
    BlankFitsRec(st, i);
    PutFrontConsistent(st1, 0, i, BlankRec(st, i));
  }

  lemma BlankFitsRec(st: State, i: nat)
    requires Consistent(st) && i < |st.recs|
    ensures GoodRec(BlankRec(st, i)) && |RecText(BlankRec(st, i))| == |RecText(st.recs[i])|
    ensures BlankRec(st, i).ptr == st.heads[0]
  {
    assert GoodRec(st.recs[i]);
    BlankKeepsSize(st.recs[i], st.heads[0]);
  }

  lemma DeletedContents(st: State, s: nat, j: nat, dat: string, m: map<string, string>)
    requires Consistent(st) && Contents(st, dat, m) && 1 <= s && OnList(st, s, j)
    requires var r := st.recs[st.lists[s][j]];
             r.datlen >= 1 && r.datoff + r.datlen <= |dat|
    ensures var r := st.recs[st.lists[s][j]];
            Contents(Deleted(st, s, j), Splice(dat, r.datoff, Spaces(r.datlen - 1) + [NEWLINE]), Minus(m, r.key))
  {
    hide RecText, RecBody, GoodRec, Off, Covered, Represents, OwnsList, Spells;
    var i := st.lists[s][j];
    var r := st.recs[i];
    ListedOwner(st, s, j);
    var dat' := Splice(dat, r.datoff, Spaces(r.datlen - 1) + [NEWLINE]);
    UnlinkContents(st, s, j, dat, m);
    PutFrontContents(Unlink(st, s, j), 0, i, BlankRec(st, i), dat, dat', Minus(m, r.key));
  }
}
