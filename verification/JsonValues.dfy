/** What becomes of a value when it is normalised for printing: everything that JSON can express stays as it is; what it
  cannot express becomes null in an array, and is dropped from an object. */
module JsonValues {
  import opened Seqs
  import opened JsonPrinter

  // ----- JSON values are JavaScript values

  function AsJs(p: Plain): JsValue
    decreases p, 1
  {
    match p
    case PNull => JsNull
    case PBool(b) => JsBool(b)
    case PNumber(n) => JsNumber(n)
    case PString(s) => JsString(s)
    case PArray(items) => JsArray(AsItems(items))
    case PObject(fields) => JsObject(AsMembers(fields))
  }

  function AsItems(items: seq<Plain>): (r: seq<JsValue>)
    ensures |r| == |items|
    decreases items, 0
  {
    if items == [] then [] else AsItems(items[..|items| - 1]) + [AsJs(items[|items| - 1])]
  }

  function AsMembers(fields: seq<Field>): (r: seq<JsMember>)
    ensures |r| == |fields|
    decreases fields, 0
  {
    if fields == [] then []
    else
      var last := fields[|fields| - 1];
      AsMembers(fields[..|fields| - 1]) + [JsMember(last.key, AsJs(last.value))]
  }

  /** A JSON value is printed as it is. */
  lemma {:induction false} NormalKeeps(p: Plain)
    ensures Normal(AsJs(p)) == p
    decreases p, 1
  {
    match p
    case PArray(items) => NormalKeepsItems(items);
    case PObject(fields) => NormalKeepsMembers(fields);
    case _ =>
  }

  lemma {:induction false} NormalKeepsItems(items: seq<Plain>)
    ensures NormalItems(AsItems(items)) == items
    decreases items, 0
  {
    if items != [] {
      var n := |items| - 1;
      NormalKeepsItems(items[..n]);
      NormalKeeps(items[n]);
      assert AsItems(items)[..n] == AsItems(items[..n]);
      assert items == items[..n] + [items[n]];
    }
  }

  lemma {:induction false} NormalKeepsMembers(fields: seq<Field>)
    ensures NormalMembers(AsMembers(fields)) == fields
    decreases fields, 0
  {
    if fields != [] {
      var n := |fields| - 1;
      NormalKeepsMembers(fields[..n]);
      NormalKeeps(fields[n].value);
      assert AsMembers(fields)[..n] == AsMembers(fields[..n]);
      assert fields == fields[..n] + [fields[n]];
    }
  }

  /** Nothing in the value is undefined, a function, or a number that is not finite. */
  predicate Expressible(v: JsValue) {
    match v
    case Undefined => false
    case NonFinite => false
    case JsArray(items) => forall x :: x in items ==> Expressible(x)
    case JsObject(members) => forall x :: x in members ==> Expressible(x.value)
    case _ => true
  }

  /** Such a value is not changed. */
  lemma {:induction false} NormalIsSame(v: JsValue)
    requires Expressible(v)
    ensures AsJs(Normal(v)) == v
    decreases v, 1
  {
    match v
    case JsArray(items) => NormalSameItems(items);
    case JsObject(members) => NormalSameMembers(members);
    case _ =>
  }

  lemma {:induction false} NormalSameItems(items: seq<JsValue>)
    requires forall x :: x in items ==> Expressible(x)
    ensures AsItems(NormalItems(items)) == items
    decreases items, 0
  {
    if items != [] {
      var n := |items| - 1;
      NormalSameItems(items[..n]);
      NormalIsSame(items[n]);
      assert NormalItems(items)[..n] == NormalItems(items[..n]);
      assert items == items[..n] + [items[n]];
    }
  }

  lemma {:induction false} NormalSameMembers(members: seq<JsMember>)
    requires forall x :: x in members ==> Expressible(x.value)
    ensures AsMembers(NormalMembers(members)) == members
    decreases members, 0
  {
    if members != [] {
      var n := |members| - 1;
      NormalSameMembers(members[..n]);
      NormalIsSame(members[n].value);
      assert NormalMembers(members)[..|NormalMembers(members)| - 1] == NormalMembers(members[..n]);
      assert members == members[..n] + [members[n]];
    }
  }

  // ----- what JSON cannot express

  /** An array keeps its length: what cannot be printed is null, and everything else is printed as it is by itself. */
  lemma {:induction false} ItemsOneByOne(items: seq<JsValue>, i: nat)
    requires i < |items|
    ensures Normal(JsArray(items)) == PArray(NormalItems(items)) && |NormalItems(items)| == |items|
    ensures NormalItems(items)[i] ==
      if items[i].Undefined? || items[i].NonFinite? then PNull else Normal(items[i])
    decreases |items|
  {
    if i < |items| - 1 {
      ItemsOneByOne(items[..|items| - 1], i);
    }
  }

  /** The members that can be printed. */
  function Printable(members: seq<JsMember>): (r: seq<JsMember>)
  {
    if members == [] then []
    else if members[0].value.Undefined? then Printable(members[1..])
    else [members[0]] + Printable(members[1..])
  }

  /** They are all that are not undefined, in order. */
  lemma {:induction false} PrintableAre(members: seq<JsMember>)
    ensures Subsequence(Printable(members), members)
    ensures forall m :: m in Printable(members) ==> !m.value.Undefined?
    ensures forall m: JsMember :: !m.value.Undefined? ==> multiset(Printable(members))[m] == multiset(members)[m]
    decreases |members|
  {
    if members != [] {
      var m, rest := members[0], members[1..];
      PrintableAre(rest);
      assert members == [m] + rest;
      if m.value.Undefined? {
        SubsequenceConcat([], [m], Printable(rest), rest);
        assert [] + Printable(rest) == Printable(rest);
      } else {
        SubsequencePrefix([m], []);
        assert [m] + [] == [m];
        SubsequenceConcat([m], [m], Printable(rest), rest);
      }
    }
  }

  /** An object keeps exactly those, with their names, each value printed as it is by itself. */
  lemma {:induction false} MembersOneByOne(members: seq<JsMember>)
    ensures Normal(JsObject(members)) == PObject(NormalMembers(members))
    ensures |NormalMembers(members)| == |Printable(members)|
    ensures forall i :: 0 <= i < |NormalMembers(members)| ==>
      NormalMembers(members)[i] == Field(Printable(members)[i].key, Normal(Printable(members)[i].value))
    decreases |members|
  {
    if members != [] {
      var n := |members| - 1;
      MembersOneByOne(members[..n]);
      PrintableLast(members[..n], members[n]);
      assert members == members[..n] + [members[n]];
    }
  }

  lemma {:induction false} PrintableLast(members: seq<JsMember>, m: JsMember)
    ensures Printable(members + [m]) == Printable(members) + if m.value.Undefined? then [] else [m]
    decreases |members|
  {
    if members != [] {
      PrintableLast(members[1..], m);
      assert (members + [m])[1..] == members[1..] + [m];
    } else {
      assert members + [m] == [m];
    }
  }
}
