/** What the calls of the record store mean, on a map from keys to data. */
module DbCalls {
  import opened Wrappers
  import opened DbContents
  import opened DbStore

  datatype Call = Store(key: string, data: string, flag: int) | Delete(key: string) | Fetch(key: string)

  datatype Answer = Code(rc: int) | Data(data: Option<string>)

  /** What a call answers on a map. */
  function Reply(m: map<string, string>, c: Call): Answer {
    match c
    case Store(k, _, flag) => Code(StoreResult(m, k, flag))
    case Delete(k) => Code(if k in m then 0 else -1)
    case Fetch(k) => Data(if k in m then Some(m[k]) else None)
  }

  /** What it leaves of the map. */
  function After(m: map<string, string>, c: Call): map<string, string> {
    match c
    case Store(k, d, flag) => if StoreResult(m, k, flag) == 0 then m[k := d] else m
    case Delete(k) => Minus(m, k)
    case Fetch(_) => m
  }

  function AfterAll(m: map<string, string>, calls: seq<Call>): map<string, string> {
    if calls == [] then m else After(AfterAll(m, calls[..|calls| - 1]), calls[|calls| - 1])
  }

  /** What the calls mean, spelled out: a fetch gives the data of the key, a delete takes the key away, and a store with
    flag 1 inserts, with flag 2 replaces, and with flag 3 does either; no call changes another key. */
  lemma CallsMean(m: map<string, string>, k: string, d: string, flag: int)
    ensures Reply(m, Fetch(k)) == (if k in m then Data(Some(m[k])) else Data(None)) && After(m, Fetch(k)) == m
    ensures Reply(m, Delete(k)) == (if k in m then Code(0) else Code(-1))
    ensures Reply(m, Store(k, d, flag)) ==
      if flag == 1 then (if k in m then Code(1) else Code(0))
      else if flag == 2 then (if k in m then Code(0) else Code(-1)) else if flag == 3 then Code(0) else Code(-1)
    ensures Reply(m, Store(k, d, flag)) == Code(0) ==>
      k in After(m, Store(k, d, flag)) && After(m, Store(k, d, flag))[k] == d
    ensures Reply(m, Store(k, d, flag)) != Code(0) ==> After(m, Store(k, d, flag)) == m
    ensures k !in After(m, Delete(k))
    ensures forall j :: j != k ==>
      && (j in After(m, Delete(k)) <==> j in m) && (j in m ==> After(m, Delete(k))[j] == m[j])
      && (j in After(m, Store(k, d, flag)) <==> j in m) && (j in m ==> After(m, Store(k, d, flag))[j] == m[j])
  {
  }
}
