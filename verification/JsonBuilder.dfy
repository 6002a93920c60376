/**
 The JSON reader's frame stack: it receives one event per token and rebuilds
 the document, rejecting invalid strings, duplicate members, numbers that do
 not fit and containers nested too deeply.
 */
module JsonBuilder {
  import opened Wrappers
  import opened JsonValues
  import opened Utf8

  datatype Failure = InvalidUtf8 | DuplicateMember | DepthLimit | IntegerOverflow | NonFinite | Internal

  // ---------- Documents and their events ----------

  datatype Token =
    | NullToken
    | BooleanToken(b: bool)
    | IntegerToken(i: Int64)
    | UnsignedToken(u: UInt64)
    | DecimalToken(value: Decimal, integral: bool)  // anything else; integral if written without fraction or exponent
    | StringToken(text: Bytes)

  datatype Document = Scalar(token: Token) | List(items: Documents) | Record(members: Members)
  datatype Documents = NoItems | Item(head: Document, tail: Documents)
  datatype Members = NoMembers | Member(name: Bytes, value: Document, rest: Members)

  datatype Event = Simple(token: Token) | StartArray | EndArray | StartObject | Key(name: Bytes) | EndObject

  datatype Stream = Finished | Next(event: Event, rest: Stream)

  function Events(d: Document, after: Stream): Stream {
    match d
    case Scalar(token) => Next(Simple(token), after)
    case List(items) => Next(StartArray, ItemEvents(items, Next(EndArray, after)))
    case Record(members) => Next(StartObject, MemberEvents(members, Next(EndObject, after)))
  }

  function ItemEvents(items: Documents, after: Stream): Stream {
    match items
    case NoItems => after
    case Item(head, tail) => Events(head, ItemEvents(tail, after))
  }

  function MemberEvents(members: Members, after: Stream): Stream {
    match members
    case NoMembers => after
    case Member(name, value, rest) => Next(Key(name), Events(value, MemberEvents(rest, after)))
  }

  // ---------- What the document means ----------

  ghost function ReadToken(t: Token): Result<Json, Failure> {
    match t
    case NullToken => Ok(Null)
    case BooleanToken(b) => Ok(Boolean(b))
    case IntegerToken(i) => Ok(Integer(i))
    case UnsignedToken(u) => Ok(Unsigned(u))
    case DecimalToken(value, integral) =>
      if integral then Err(IntegerOverflow)
      else if value.NotFinite? then Err(NonFinite)
      else Ok(Number(value))
    case StringToken(text) => if Encodes(text) then Ok(String(text)) else Err(InvalidUtf8)
  }

  /** The value of a document, or the first thing wrong with it in reading order. */
  ghost function Build(d: Document, depth: nat, limit: nat): Result<Json, Failure> {
    match d
    case Scalar(token) => ReadToken(token)
    case List(items) =>
      if depth >= limit then Err(DepthLimit)
      else
        var built := BuildItems(items, depth + 1, limit);
        if built.Ok? then Ok(Array(built.value)) else Err(built.error)
    case Record(members) =>
      if depth >= limit then Err(DepthLimit)
      else
        var built := BuildMembers(members, map[], depth + 1, limit);
        if built.Ok? then Ok(Object(built.value)) else Err(built.error)
  }

  ghost function BuildItems(items: Documents, depth: nat, limit: nat): Result<seq<Json>, Failure> {
    match items
    case NoItems => Ok([])
    case Item(head, tail) =>
      var first := Build(head, depth, limit);
      if first.Err? then Err(first.error)
      else
        var others := BuildItems(tail, depth, limit);
        if others.Err? then others else Ok([first.value] + others.value)
  }

  ghost function BuildMembers(members: Members, so: map<Bytes, Json>, depth: nat, limit: nat)
    : Result<map<Bytes, Json>, Failure>
  {
    match members
    case NoMembers => Ok(so)
    case Member(name, value, rest) =>
      if !Encodes(name) then Err(InvalidUtf8)
      else if name in so then Err(DuplicateMember)
      else
        var first := Build(value, depth, limit);
        if first.Err? then Err(first.error) else BuildMembers(rest, so[name := first.value], depth, limit)
  }

  // ---------- The stack machine ----------

  datatype Frames = Bottom | Frame(value: Json, key: Option<Bytes>, below: Frames)

  datatype State = State(frames: Frames, depth: nat, root: Option<Json>, failure: Option<Failure>)

  const FRESH := State(Bottom, 0, None, None)

  function Failing(s: State, f: Failure): State {
    if s.failure.None? then s.(failure := Some(f)) else s
  }

  function AddValue(s: State, v: Json): State {
    match s.frames
    case Bottom => if s.root.Some? then Failing(s, Internal) else s.(root := Some(v))
    case Frame(Array(items), key, below) => s.(frames := Frame(Array(items + [v]), key, below))
    case Frame(Object(members), Some(key), below) => s.(frames := Frame(Object(members[key := v]), None, below))
    case _ => Failing(s, Internal)
  }

  function StartContainer(s: State, limit: nat, empty: Json): State {
    if s.depth >= limit then Failing(s, DepthLimit)
    else s.(frames := Frame(empty, None, s.frames), depth := s.depth + 1)
  }

  function FinishContainer(s: State): State
    requires s.frames.Frame?
  {
    AddValue(s.(frames := s.frames.below, depth := if s.depth > 0 then s.depth - 1 else 0), s.frames.value)
  }

  ghost function AddKey(s: State, name: Bytes): State {
    if !s.frames.Frame? || !s.frames.value.Object? then Failing(s, Internal)
    else if !Encodes(name) then Failing(s, InvalidUtf8)
    else if s.frames.key.Some? || name in s.frames.value.members then Failing(s, DuplicateMember)
    else s.(frames := s.frames.(key := Some(name)))
  }

  ghost function Step(s: State, limit: nat, e: Event): State {
    match e
    case Simple(token) =>
      var v := ReadToken(token);
      if v.Ok? then AddValue(s, v.value) else Failing(s, v.error)
    case StartArray => StartContainer(s, limit, Array([]))
    case StartObject => StartContainer(s, limit, Object(map[]))
    case Key(name) => AddKey(s, name)
    case EndArray =>
      if s.frames.Frame? && s.frames.value.Array? then FinishContainer(s) else Failing(s, Internal)
    case EndObject =>
      if s.frames.Frame? && s.frames.value.Object? && s.frames.key.None? then FinishContainer(s)
      else Failing(s, Internal)
  }

  /** Events are delivered until one fails. */
  ghost function Run(s: State, limit: nat, events: Stream): State
    decreases events
  {
    if s.failure.Some? || events.Finished? then s else Run(Step(s, limit, events.event), limit, events.rest)
  }

  /** A value may come next. */
  predicate Expecting(s: State) {
    && s.failure.None?
    && match s.frames
       case Bottom => s.root.None?
       case Frame(Array(_), _, _) => true
       case Frame(Object(_), key, _) => key.Some?
       case _ => false
  }

  /** The machine, fed the events of a document, adds exactly its value or fails with exactly its failure. */
  lemma {:induction false} RunDocument(s: State, limit: nat, d: Document, after: Stream)
    requires Expecting(s)
    ensures var built := Build(d, s.depth, limit);
            if built.Ok? then Run(s, limit, Events(d, after)) == Run(AddValue(s, built.value), limit, after)
            else Run(s, limit, Events(d, after)).failure == Some(built.error)
    decreases d
  {
    match d {
      case Scalar(token) =>
      case List(items) =>
        if s.depth < limit {
          var t := StartContainer(s, limit, Array([]));
          RunItems(t, limit, items, [], Next(EndArray, after));
          var built := BuildItems(items, t.depth, limit);
          if built.Ok? {
            assert [] + built.value == built.value;
          }
        }
      case Record(members) =>
        if s.depth < limit {
          var t := StartContainer(s, limit, Object(map[]));
          RunMembers(t, limit, members, map[], Next(EndObject, after));
        }
    }
  }

  lemma {:induction false} RunItems(s: State, limit: nat, items: Documents, so: seq<Json>, after: Stream)
    requires s.failure.None? && s.frames.Frame? && s.frames.value == Array(so)
    ensures var built := BuildItems(items, s.depth, limit);
            if built.Ok? then
              Run(s, limit, ItemEvents(items, after))
              == Run(s.(frames := s.frames.(value := Array(so + built.value))), limit, after)
            else Run(s, limit, ItemEvents(items, after)).failure == Some(built.error)
    decreases items
  {
    match items {
      case NoItems =>
        assert so + [] == so;
      case Item(head, tail) =>
        RunDocument(s, limit, head, ItemEvents(tail, after));
        var first := Build(head, s.depth, limit);
        if first.Ok? {
          RunItems(AddValue(s, first.value), limit, tail, so + [first.value], after);
          var others := BuildItems(tail, s.depth, limit);
          if others.Ok? {
            assert so + [first.value] + others.value == so + ([first.value] + others.value);
          }
        }
    }
  }

  lemma {:induction false} RunMembers(s: State, limit: nat, members: Members, so: map<Bytes, Json>, after: Stream)
    requires s.failure.None? && s.frames.Frame? && s.frames.value == Object(so) && s.frames.key.None?
    ensures var built := BuildMembers(members, so, s.depth, limit);
            if built.Ok? then
              Run(s, limit, MemberEvents(members, after))
              == Run(s.(frames := s.frames.(value := Object(built.value))), limit, after)
            else Run(s, limit, MemberEvents(members, after)).failure == Some(built.error)
    decreases members
  {
    match members {
      case NoMembers =>
      case Member(name, value, rest) =>
        if Encodes(name) && name !in so {
          var t := AddKey(s, name);
          RunDocument(t, limit, value, MemberEvents(rest, after));
          var first := Build(value, s.depth, limit);
          if first.Ok? {
            RunMembers(AddValue(t, first.value), limit, rest, so[name := first.value], after);
          }
        }
    }
  }

  // ---------- Well-formed documents ----------

  ghost predicate GoodToken(t: Token) {
    ReadToken(t).Ok?
  }

  /** Valid strings, numbers that fit, and no member name twice. */
  ghost predicate Good(d: Document) {
    match d
    case Scalar(token) => GoodToken(token)
    case List(items) => GoodItems(items)
    case Record(members) => GoodMembers(members, {})
  }

  ghost predicate GoodItems(items: Documents) {
    items.Item? ==> Good(items.head) && GoodItems(items.tail)
  }

  ghost predicate GoodMembers(members: Members, names: set<Bytes>) {
    members.Member? ==>
      && Encodes(members.name) && members.name !in names
      && Good(members.value) && GoodMembers(members.rest, names + {members.name})
  }

  function Max(a: nat, b: nat): nat {
    if a < b then b else a
  }

  /** How deeply the containers of a document are nested. */
  function Depth(d: Document): nat {
    match d
    case Scalar(_) => 0
    case List(items) => 1 + ItemsDepth(items)
    case Record(members) => 1 + MembersDepth(members)
  }

  function ItemsDepth(items: Documents): nat {
    if items.NoItems? then 0 else Max(Depth(items.head), ItemsDepth(items.tail))
  }

  function MembersDepth(members: Members): nat {
    if members.NoMembers? then 0 else Max(Depth(members.value), MembersDepth(members.rest))
  }

  /** The tree a well-formed document spells out. */
  ghost function Tree(d: Document): Json
    requires Good(d)
  {
    match d
    case Scalar(token) => ReadToken(token).value
    case List(items) => Array(TreeItems(items))
    case Record(members) => Object(TreeMembers(members, {}))
  }

  ghost function TreeItems(items: Documents): seq<Json>
    requires GoodItems(items)
  {
    if items.NoItems? then [] else [Tree(items.head)] + TreeItems(items.tail)
  }

  ghost function TreeMembers(members: Members, names: set<Bytes>): map<Bytes, Json>
    requires GoodMembers(members, names)
  {
    if members.NoMembers? then map[]
    else map[members.name := Tree(members.value)] + TreeMembers(members.rest, names + {members.name})
  }

  /** A well-formed document is rebuilt when it fits the limit, and fails with the depth error when it does not. */
  lemma {:induction false} GoodBuilds(d: Document, depth: nat, limit: nat)
    requires Good(d) && depth <= limit
    ensures Build(d, depth, limit) == if depth + Depth(d) <= limit then Ok(Tree(d)) else Err(DepthLimit)
    decreases d
  {
    match d {
      case Scalar(_) =>
      case List(items) =>
        if depth < limit {
          GoodItemsBuild(items, depth + 1, limit);
        }
      case Record(members) =>
        if depth < limit {
          GoodMembersBuild(members, {}, map[], depth + 1, limit);
          if depth + Depth(d) <= limit {
            assert map[] + TreeMembers(members, {}) == TreeMembers(members, {});
          }
        }
    }
  }

  lemma {:induction false} GoodItemsBuild(items: Documents, depth: nat, limit: nat)
    requires GoodItems(items) && depth <= limit
    ensures BuildItems(items, depth, limit)
         == if depth + ItemsDepth(items) <= limit then Ok(TreeItems(items)) else Err(DepthLimit)
    decreases items
  {
    if items.Item? {
      GoodBuilds(items.head, depth, limit);
      GoodItemsBuild(items.tail, depth, limit);
    }
  }

  lemma {:induction false} NamesAreNew(members: Members, names: set<Bytes>)
    requires GoodMembers(members, names)
    ensures TreeMembers(members, names).Keys !! names
    decreases members
  {
    if members.Member? {
      NamesAreNew(members.rest, names + {members.name});
    }
  }

  lemma {:induction false} GoodMembersBuild(members: Members, names: set<Bytes>, so: map<Bytes, Json>,
                                            depth: nat, limit: nat)
    requires GoodMembers(members, names) && so.Keys == names && depth <= limit
    ensures BuildMembers(members, so, depth, limit)
         == if depth + MembersDepth(members) <= limit then Ok(so + TreeMembers(members, names)) else Err(DepthLimit)
    decreases members
  {
    if members.NoMembers? {
      assert so + map[] == so;
    } else {
      var name := members.name;
      GoodBuilds(members.value, depth, limit);
      if depth + Depth(members.value) <= limit {
        var tree := Tree(members.value);
        GoodMembersBuild(members.rest, names + {name}, so[name := tree], depth, limit);
        NamesAreNew(members.rest, names + {name});
        assert so[name := tree] + TreeMembers(members.rest, names + {name})
            == so + (map[name := tree] + TreeMembers(members.rest, names + {name}));
      }
    }
  }

  // ---------- The parser object ----------

  class Parser {
    const limit: nat
    var frames: Frames
    var depth: nat
    var root: Option<Json>
    var failure: Option<Failure>

    constructor (limit: nat)
      ensures this.limit == limit && Current() == FRESH
    {
      this.limit := limit;
      frames, depth, root, failure := Bottom, 0, None, None;
    }

    ghost function Current(): State
      reads this
    {
      State(frames, depth, root, failure)
    }

    method Fail(f: Failure)
      modifies this
      ensures Current() == Failing(old(Current()), f)
    {
      if failure.None? {
        failure := Some(f);
      }
    }

    method Add(v: Json)
      modifies this
      ensures Current() == AddValue(old(Current()), v)
    {
      match frames {
        case Bottom =>
          if root.Some? {
            Fail(Internal);
          } else {
            root := Some(v);
          }
        case Frame(Array(items), key, below) => frames := Frame(Array(items + [v]), key, below);
        case Frame(Object(members), Some(key), below) => frames := Frame(Object(members[key := v]), None, below);
        case _ => Fail(Internal);
      }
    }

    method Start(empty: Json)
      modifies this
      ensures Current() == StartContainer(old(Current()), limit, empty)
    {
      if depth >= limit {
        Fail(DepthLimit);
      } else {
        frames, depth := Frame(empty, None, frames), depth + 1;
      }
    }

    method Finish()
      requires frames.Frame?
      modifies this
      ensures Current() == FinishContainer(old(Current()))
    {
      var value := frames.value;
      frames, depth := frames.below, if depth > 0 then depth - 1 else 0;
      Add(value);
    }

    method Name(name: Bytes)
      modifies this
      ensures Current() == AddKey(old(Current()), name)
    {
      if !frames.Frame? || !frames.value.Object? {
        Fail(Internal);
        return;
      }
      var valid := IsValidUtf8(name);
      if !valid {
        Fail(InvalidUtf8);
      } else if frames.key.Some? || name in frames.value.members {
        Fail(DuplicateMember);
      } else {
        frames := frames.(key := Some(name));
      }
    }

    method Take(token: Token)
      modifies this
      ensures Current() == Step(old(Current()), limit, Simple(token))
    {
      match token {
        case NullToken => Add(Null);
        case BooleanToken(b) => Add(Boolean(b));
        case IntegerToken(i) => Add(Integer(i));
        case UnsignedToken(u) => Add(Unsigned(u));
        case DecimalToken(value, integral) =>
          if integral {
            Fail(IntegerOverflow);
          } else if value.NotFinite? {
            Fail(NonFinite);
          } else {
            Add(Number(value));
          }
        case StringToken(text) =>
          var valid := IsValidUtf8(text);
          if valid {
            Add(String(text));
          } else {
            Fail(InvalidUtf8);
          }
      }
    }

    method Handle(e: Event)
      modifies this
      ensures Current() == Step(old(Current()), limit, e)
    {
      match e {
        case Simple(token) => Take(token);
        case StartArray => Start(Array([]));
        case StartObject => Start(Object(map[]));
        case Key(name) => Name(name);
        case EndArray =>
          if frames.Frame? && frames.value.Array? {
            Finish();
          } else {
            Fail(Internal);
          }
        case EndObject =>
          if frames.Frame? && frames.value.Object? && frames.key.None? {
            Finish();
          } else {
            Fail(Internal);
          }
      }
    }

    method Feed(events: Stream)
      modifies this
      ensures Current() == Run(old(Current()), limit, events)
    {
      var left := events;
      while failure.None? && left.Next?
        invariant Run(Current(), limit, left) == Run(old(Current()), limit, events)
        decreases left
      {
        Handle(left.event);
        left := left.rest;
      }
    }
  }

  /** Reading a document: its value, or the first failure in reading order. */
  method Read(d: Document, limit: nat) returns (r: Result<Json, Failure>)
    ensures r == Build(d, 0, limit)
    ensures Good(d) ==> r == if Depth(d) <= limit then Ok(Tree(d)) else Err(DepthLimit)
  {
    var parser := new Parser(limit);
    parser.Feed(Events(d, Finished));
    RunDocument(FRESH, limit, d, Finished);
    if Good(d) {
      GoodBuilds(d, 0, limit);
    }
    if parser.failure.Some? {
      return Err(parser.failure.value);
    }
    return Ok(parser.root.value);
  }
}
