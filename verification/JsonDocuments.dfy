/**
 JSON text as the serializer leaves it and the reader takes it up again: which
 documents spell a value, and what reading one of them with a depth limit gives.
 */
module JsonDocuments {
  import opened Wrappers
  import opened Utf8
  import opened JsonValues
  import opened JsonBuilder

  const DEFAULT_MAX_DEPTH := 64

  /** What the serializer takes: valid strings and names, and finite numbers. */
  ghost predicate Serializable(j: Json) {
    match j
    case Number(d) => d.Finite?
    case String(text) => Encodes(text)
    case Array(items) => forall i :: 0 <= i < |items| ==> Serializable(items[i])
    case Object(members) => forall name :: name in members ==> Encodes(name) && Serializable(members[name])
    case _ => true
  }

  /** The token of a scalar; the text of a non-negative integer does not say whether it was signed. */
  function TokenOf(j: Json): Token
    requires !j.Array? && !j.Object?
  {
    match j
    case Null => NullToken
    case Boolean(b) => BooleanToken(b)
    case Integer(i) => if i >= 0 then UnsignedToken(i) else IntegerToken(i)
    case Unsigned(u) => UnsignedToken(u)
    case Number(d) => DecimalToken(d, false)
    case String(text) => StringToken(text)
  }

  /** The document spells the value, with the members of its objects in any order. */
  ghost predicate Spells(d: Document, j: Json)
    decreases d
  {
    match j
    case Array(items) => d.List? && SpellsItems(d.items, items, 0)
    case Object(members) => d.Record? && SpellsMembers(d.members, members, members.Keys)
    case _ => d == Scalar(TokenOf(j))
  }

  ghost predicate SpellsItems(ds: Documents, items: seq<Json>, k: nat)
    requires k <= |items|
    decreases ds
  {
    if k == |items| then ds.NoItems?
    else ds.Item? && Spells(ds.head, items[k]) && SpellsItems(ds.tail, items, k + 1)
  }

  ghost predicate SpellsMembers(ms: Members, members: map<Bytes, Json>, left: set<Bytes>)
    requires left <= members.Keys
    decreases ms
  {
    if left == {} then ms.NoMembers?
    else ms.Member? && ms.name in left && Spells(ms.value, members[ms.name])
         && SpellsMembers(ms.rest, members, left - {ms.name})
  }

  /** Every value is spelled by some document. */
  lemma {:induction false} Spelling(j: Json) returns (d: Document)
    ensures Spells(d, j)
    decreases j, 1, 0
  {
    match j {
      case Array(items) =>
        var ds := SpellingItems(j, 0);
        d := List(ds);
      case Object(members) =>
        var ms := SpellingMembers(j, members.Keys);
        d := Record(ms);
      case _ =>
        d := Scalar(TokenOf(j));
    }
  }

  lemma {:induction false} SpellingItems(j: Json, k: nat) returns (ds: Documents)
    requires j.Array? && k <= |j.items|
    ensures SpellsItems(ds, j.items, k)
    decreases j, 0, |j.items| - k
  {
    if k == |j.items| {
      ds := NoItems;
    } else {
      var head := Spelling(j.items[k]);
      var tail := SpellingItems(j, k + 1);
      ds := Item(head, tail);
    }
  }

  lemma {:induction false} SpellingMembers(j: Json, left: set<Bytes>) returns (ms: Members)
    requires j.Object? && left <= j.members.Keys
    ensures SpellsMembers(ms, j.members, left)
    decreases j, 0, |left|
  {
    if left == {} {
      ms := NoMembers;
    } else {
      var name :| name in left;
      var value := Spelling(j.members[name]);
      var rest := SpellingMembers(j, left - {name});
      ms := Member(name, value, rest);
    }
  }

  // ---------- What is read back ----------

  /** A document that spells a serializable value is well-formed, and its tree is the value, up to integer spelling. */
  lemma {:induction false} SpelledTree(d: Document, j: Json)
    requires Spells(d, j) && Serializable(j)
    ensures Good(d) && Tree(d) == Reread(j)
    decreases d
  {
    match j {
      case Array(items) =>
        SpelledItems(d.items, items, 0);
        assert Reread(j).items[0..] == Reread(j).items;
      case Object(members) =>
        SpelledMembers(d.members, members, members.Keys, {});
        assert Picked(members, members.Keys) == Reread(j).members;
      case _ =>
    }
  }

  lemma {:induction false} SpelledItems(ds: Documents, items: seq<Json>, k: nat)
    requires k <= |items| && SpellsItems(ds, items, k) && Serializable(Array(items))
    ensures GoodItems(ds) && TreeItems(ds) == Reread(Array(items)).items[k..]
    decreases ds
  {
    if k < |items| {
      SpelledTree(ds.head, items[k]);
      SpelledItems(ds.tail, items, k + 1);
    }
  }

  /** The chosen members as they are read back. */
  ghost function Picked(members: map<Bytes, Json>, left: set<Bytes>): map<Bytes, Json>
    requires left <= members.Keys
  {
    map name | name in left :: Reread(members[name])
  }

  lemma PickedStep(members: map<Bytes, Json>, left: set<Bytes>, name: Bytes)
    requires left <= members.Keys && name in left
    ensures Picked(members, left) == map[name := Reread(members[name])] + Picked(members, left - {name})
  {
  }

  lemma {:induction false} SpelledMembers(ms: Members, members: map<Bytes, Json>, left: set<Bytes>, names: set<Bytes>)
    requires left <= members.Keys && left !! names
    requires SpellsMembers(ms, members, left) && Serializable(Object(members))
    ensures GoodMembers(ms, names) && TreeMembers(ms, names) == Picked(members, left)
    decreases ms
  {
    if left != {} {
      SpelledTree(ms.value, members[ms.name]);
      SpelledMembers(ms.rest, members, left - {ms.name}, names + {ms.name});
      PickedStep(members, left, ms.name);
    }
  }

  // ---------- Depth ----------

  /** At most `n` arrays and objects contain each other. */
  ghost predicate Within(j: Json, n: nat) {
    match j
    case Array(items) => n > 0 && forall i :: 0 <= i < |items| ==> Within(items[i], n - 1)
    case Object(members) => n > 0 && forall name :: name in members ==> Within(members[name], n - 1)
    case _ => true
  }

  lemma {:induction false} SpelledDepth(d: Document, j: Json, n: nat)
    requires Spells(d, j)
    ensures Depth(d) <= n <==> Within(j, n)
    decreases d
  {
    match j {
      case Array(items) =>
        if n > 0 {
          SpelledItemsDepth(d.items, items, 0, n - 1);
        }
      case Object(members) =>
        if n > 0 {
          SpelledMembersDepth(d.members, members, members.Keys, n - 1);
        }
      case _ =>
    }
  }

  lemma {:induction false} SpelledItemsDepth(ds: Documents, items: seq<Json>, k: nat, n: nat)
    requires k <= |items| && SpellsItems(ds, items, k)
    ensures ItemsDepth(ds) <= n <==> forall i :: k <= i < |items| ==> Within(items[i], n)
    decreases ds
  {
    if k < |items| {
      SpelledDepth(ds.head, items[k], n);
      SpelledItemsDepth(ds.tail, items, k + 1, n);
    }
  }

  lemma {:induction false} SpelledMembersDepth(ms: Members, members: map<Bytes, Json>, left: set<Bytes>, n: nat)
    requires left <= members.Keys && SpellsMembers(ms, members, left)
    ensures MembersDepth(ms) <= n <==> forall name :: name in left ==> Within(members[name], n)
    decreases ms
  {
    if left != {} {
      SpelledDepth(ms.value, members[ms.name], n);
      SpelledMembersDepth(ms.rest, members, left - {ms.name}, n);
    }
  }

  /** Text the serializer wrote is read back when its containers fit the limit, and fails on the depth when not. */
  lemma ReadBack(d: Document, j: Json, limit: nat)
    requires Spells(d, j) && Serializable(j)
    ensures Build(d, 0, limit) == if Within(j, limit) then Ok(Reread(j)) else Err(DepthLimit)
  {
    SpelledTree(d, j);
    SpelledDepth(d, j, limit);
    GoodBuilds(d, 0, limit);
  }
}
