/**
 Stored attribute documents: partial layers as they are, and materialized
 snapshots that are completed with the built-in values when they are read.
 */
module AttributeDocuments {
  import opened Wrappers
  import opened Utf8
  import opened JsonValues
  import opened AttributeCodec
  import opened Attributes
  import JsonBuilder
  import JsonDocuments

  datatype Mode = Partial | Materialized

  const VALUES: Bytes := [118, 97, 108, 117, 101, 115]           // "values"
  const VERSION_NAME: Bytes := [118, 101, 114, 115, 105, 111, 110]  // "version"
  const VERSION := 1

  // ---------- Encoding ----------

  ghost predicate Encodable(values: AttributeSet) {
    forall name :: name in values ==> AttributeCodec.Encode(values[name], 0).Some?
  }

  ghost function EncodeSet(values: AttributeSet): (r: map<Bytes, Json>)
    requires Encodable(values)
    ensures r.Keys == values.Keys
  {
    map name | name in values :: AttributeCodec.Encode(values[name], 0).value
  }

  /** What is checked before a document is written. */
  ghost predicate Writable(reg: Registry, values: AttributeSet, scope: Scope, mode: Mode, runner: Option<Runner>) {
    && ValidSet(reg, values, scope)
    && (mode == Materialized ==>
          && scope == Job
          && (if runner.Some? then Complete(reg, values, runner)
              else Covers(reg, values, None) && Acceptable(reg, None, map[], map[], values)))
  }

  function Document(members: map<Bytes, Json>): Json {
    Object(map[VALUES := Object(members), VERSION_NAME := Unsigned(VERSION)])
  }

  ghost function EncodeDocument(reg: Registry, values: AttributeSet, scope: Scope, mode: Mode, runner: Option<Runner>)
    : Option<Json>
  {
    if Writable(reg, values, scope, mode, runner) && Encodable(values) then Some(Document(EncodeSet(values))) else None
  }

  // ---------- Decoding ----------

  /** The members of a document of the supported version. */
  function Undocument(j: Json): Option<map<Bytes, Json>> {
    if !j.Object? || |j.members| != 2 || VALUES !in j.members || VERSION_NAME !in j.members then None
    else if !j.members[VALUES].Object? then None
    else if j.members[VERSION_NAME] != Unsigned(VERSION) && j.members[VERSION_NAME] != Integer(VERSION) then None
    else Some(j.members[VALUES].members)
  }

  ghost predicate Readable(reg: Registry, scope: Scope, name: Bytes, j: Json) {
    Encodes(name) && Decode(j, 0).Some? && Validates(reg, name, Decode(j, 0).value, scope)
  }

  ghost function DecodeSet(reg: Registry, members: map<Bytes, Json>, scope: Scope): Option<AttributeSet> {
    if forall name :: name in members ==> Readable(reg, scope, name, members[name]) then Some(DecodeAll(members)) else None
  }

  ghost function DecodeAll(members: map<Bytes, Json>): (r: AttributeSet)
    ensures r.Keys == members.Keys
  {
    map name | name in members :: Item(Decode(members[name], 0), Flag(false))
  }

  /** Completes a stored snapshot; stored values of the other runner are kept as they are. */
  ghost function Completed(reg: Registry, values: AttributeSet, runner: Option<Runner>): Option<AttributeSet> {
    var applicable := Judged(reg, values, runner);
    if Acceptable(reg, runner, map[], map[], applicable)
    then Some(values + Effective(reg, runner, map[], map[], applicable))
    else None
  }

  ghost function DecodeDocument(reg: Registry, j: Json, scope: Scope, mode: Mode, runner: Option<Runner>)
    : Option<AttributeSet>
  {
    var values := Stored(reg, j, scope);
    if values.None? || (mode == Materialized && scope != Job) then None
    else if mode == Partial then values
    else Completed(reg, values.value, runner)
  }

  /** The values a document holds. */
  ghost function Stored(reg: Registry, j: Json, scope: Scope): Option<AttributeSet> {
    var members := Undocument(j);
    if members.None? then None else DecodeSet(reg, members.value, scope)
  }

  /** A stored text is read with the reader's own depth limit before it is decoded. */
  ghost function Load(reg: Registry, text: JsonBuilder.Document, scope: Scope, mode: Mode, runner: Option<Runner>)
    : Option<AttributeSet>
  {
    var read := JsonBuilder.Build(text, 0, JsonDocuments.DEFAULT_MAX_DEPTH);
    if read.Ok? then DecodeDocument(reg, read.value, scope, mode, runner) else None
  }

  /** The values fit the reader's limit, of which the document itself takes two containers. */
  ghost predicate Shallow(values: AttributeSet) {
    forall name :: name in values ==> Fits(values[name], JsonDocuments.DEFAULT_MAX_DEPTH - 2)
  }

  // ---------- Round trips ----------

  /** Attribute names are text. */
  ghost predicate WellNamed(reg: Registry) {
    forall d :: d in reg.definitions ==> Encodes(d.name)
  }

  lemma DocumentNames()
    ensures VALUES == Octets("values") && VERSION_NAME == Octets("version")
  {
  }

  /** A document of version 1 is taken in either integer spelling, and one of another version in none. */
  lemma VersionIsOne(members: map<Bytes, Json>, version: Json)
    ensures var j := Object(map[VALUES := Object(members), VERSION_NAME := version]);
            Undocument(j) == if SignedInteger(version) == Some(1) then Some(members) else None
  {
    var j := Object(map[VALUES := Object(members), VERSION_NAME := version]);
    assert VALUES != VERSION_NAME;
    assert j.members.Keys == {VALUES, VERSION_NAME};
  }

  lemma ReadBack(members: map<Bytes, Json>)
    ensures Undocument(Document(members)) == Some(members)
    ensures Undocument(Reread(Document(members))) == Some(Reread(Object(members)).members)
  {
    assert VALUES != VERSION_NAME;
    assert Document(members).members.Keys == {VALUES, VERSION_NAME};
    assert Reread(Document(members)).members.Keys == {VALUES, VERSION_NAME};
  }

  lemma SetRoundTrip(reg: Registry, values: AttributeSet, scope: Scope)
    requires WellNamed(reg) && ValidSet(reg, values, scope) && Encodable(values)
    ensures DecodeSet(reg, EncodeSet(values), scope) == Some(values)
    ensures DecodeSet(reg, Reread(Object(EncodeSet(values))).members, scope) == Some(values)
  {
    forall name | name in values
      ensures Encodes(name) && Validates(reg, name, values[name], scope)
      ensures Decode(EncodeSet(values)[name], 0) == Some(values[name])
      ensures Decode(Reread(EncodeSet(values)[name]), 0) == Some(values[name])
    {
      assert Validates(reg, name, values[name], scope);
      assert Find(reg, name).value in reg.definitions;
      DecodeEncode(values[name], 0);
    }
    DecodesTo(reg, EncodeSet(values), values, scope);
    DecodesTo(reg, Reread(Object(EncodeSet(values))).members, values, scope);
  }

  lemma DecodesTo(reg: Registry, members: map<Bytes, Json>, values: AttributeSet, scope: Scope)
    requires members.Keys == values.Keys
    requires forall name :: name in values ==> Encodes(name) && Validates(reg, name, values[name], scope)
    requires forall name :: name in values ==> Decode(members[name], 0) == Some(values[name])
    ensures DecodeSet(reg, members, scope) == Some(values)
  {
    forall name | name in members
      ensures Readable(reg, scope, name, members[name])
    {
      assert Decode(members[name], 0) == Some(values[name]);
    }
    assert DecodeAll(members) == values;
  }

  lemma DocumentIsText(members: map<Bytes, Json>)
    requires JsonDocuments.Serializable(Object(members))
    ensures JsonDocuments.Serializable(Document(members))
  {
    Ascii(VALUES);
    Ascii(VERSION_NAME);
  }

  lemma DocumentWithin(members: map<Bytes, Json>, n: nat)
    ensures JsonDocuments.Within(Document(members), n) <==> n > 0 && JsonDocuments.Within(Object(members), n - 1)
  {
    assert VALUES != VERSION_NAME;
    assert Document(members).members[VALUES] == Object(members);
  }

  /** A document can always be written, and its text is read back exactly when its values fit. */
  lemma WrittenText(reg: Registry, values: AttributeSet, scope: Scope)
    requires WellNamed(reg) && ValidSet(reg, values, scope) && Encodable(values)
    ensures var j := Document(EncodeSet(values));
            && JsonDocuments.Serializable(j)
            && (JsonDocuments.Within(j, JsonDocuments.DEFAULT_MAX_DEPTH) <==> Shallow(values))
  {
    forall name | name in values
      ensures Encodes(name) && JsonDocuments.Serializable(EncodeSet(values)[name])
      ensures JsonDocuments.Within(EncodeSet(values)[name], 62) <==> Fits(values[name], 62)
    {
      assert Validates(reg, name, values[name], scope);
      assert Find(reg, name).value in reg.definitions;
      EncodedIsText(values[name], 0);
      EncodedWithin(values[name], 0, 62);
    }
    DocumentIsText(EncodeSet(values));
    DocumentWithin(EncodeSet(values), 64);
  }

  /** A written text is loaded as the document it was written from, up to integer spelling, or not at all. */
  lemma LoadsText(reg: Registry, values: AttributeSet, scope: Scope, mode: Mode, runner: Option<Runner>,
                  text: JsonBuilder.Document)
    requires WellNamed(reg) && ValidSet(reg, values, scope) && Encodable(values)
    requires JsonDocuments.Spells(text, Document(EncodeSet(values)))
    ensures Load(reg, text, scope, mode, runner)
         == if Shallow(values) then DecodeDocument(reg, Reread(Document(EncodeSet(values))), scope, mode, runner) else None
  {
    WrittenText(reg, values, scope);
    JsonDocuments.ReadBack(text, Document(EncodeSet(values)), 64);
  }

  /**
   A partial document comes back exactly as it was written; from stored text,
   exactly when its values fit the reader's depth limit.
   */
  lemma PartialRoundTrip(reg: Registry, values: AttributeSet, scope: Scope, runner: Option<Runner>,
                         text: JsonBuilder.Document)
    requires WellNamed(reg) && EncodeDocument(reg, values, scope, Partial, runner).Some?
    requires JsonDocuments.Spells(text, EncodeDocument(reg, values, scope, Partial, runner).value)
    ensures var j := EncodeDocument(reg, values, scope, Partial, runner).value;
            && DecodeDocument(reg, j, scope, Partial, runner) == Some(values)
            && DecodeDocument(reg, Reread(j), scope, Partial, runner) == Some(values)
            && Load(reg, text, scope, Partial, runner) == if Shallow(values) then Some(values) else None
  {
    ReadsBack(reg, values, scope);
    LoadsText(reg, values, scope, Partial, runner, text);
  }

  /** A complete snapshot is completed to itself, provided the runner's built-in values are valid. */
  lemma CompletedComplete(reg: Registry, values: AttributeSet, runner: Option<Runner>)
    requires Distinct(reg) && Writable(reg, values, Job, Materialized, runner)
    ensures Completed(reg, values, runner) == if BuiltInsValid(reg, runner) then Some(values) else None
  {
    var applicable := Judged(reg, values, runner);
    if runner.None? {
      FixedSet(reg, values);
    } else {
      ApplicableFits(reg, values, runner);
      AcceptableComplete(reg, runner, applicable);
      assert values + applicable == values;
    }
  }

  lemma FixedSet(reg: Registry, values: AttributeSet)
    requires Distinct(reg) && Writable(reg, values, Job, Materialized, None)
    ensures BuiltInsValid(reg, None) && values + Effective(reg, None, map[], map[], values) == values
  {
    ApplicableFits(reg, values, None);
    CompleteIsFixed(reg, None, values);
  }

  lemma ApplicableFits(reg: Registry, values: AttributeSet, runner: Option<Runner>)
    requires Distinct(reg) && ValidSet(reg, values, Job) && Covers(reg, values, runner)
    ensures var applicable := Judged(reg, values, runner);
            ValidSet(reg, applicable, Job) && Covers(reg, applicable, runner) && AllRelevant(reg, runner, applicable)
  {
    var applicable := Judged(reg, values, runner);
    forall name | name in applicable
      ensures Validates(reg, name, applicable[name], Job) && Relevant(reg, runner, name)
    {
      assert Validates(reg, name, values[name], Job);
    }
    forall d | d in reg.definitions && Seeded(d, runner)
      ensures d.name in applicable
    {
      FindOwn(reg, d);
    }
  }

  /** Both spellings of a written document decode to the values it was written from. */
  lemma ReadsBack(reg: Registry, values: AttributeSet, scope: Scope)
    requires WellNamed(reg) && ValidSet(reg, values, scope) && Encodable(values)
    ensures var j := Document(EncodeSet(values));
            && Stored(reg, j, scope) == Some(values)
            && Stored(reg, Reread(j), scope) == Some(values)
  {
    ReadBack(EncodeSet(values));
    SetRoundTrip(reg, values, scope);
  }

  /**
   A materialized document comes back exactly when the built-in values of its
   runner are valid; from stored text, when its values also fit the reader's
   depth limit.
   */
  lemma MaterializedRoundTrip(reg: Registry, values: AttributeSet, runner: Option<Runner>, text: JsonBuilder.Document)
    requires WellNamed(reg) && Distinct(reg) && EncodeDocument(reg, values, Job, Materialized, runner).Some?
    requires JsonDocuments.Spells(text, EncodeDocument(reg, values, Job, Materialized, runner).value)
    ensures var j := EncodeDocument(reg, values, Job, Materialized, runner).value;
            var expected := if BuiltInsValid(reg, runner) then Some(values) else None;
            && DecodeDocument(reg, j, Job, Materialized, runner) == expected
            && DecodeDocument(reg, Reread(j), Job, Materialized, runner) == expected
            && Load(reg, text, Job, Materialized, runner)
               == if BuiltInsValid(reg, runner) && Shallow(values) then Some(values) else None
  {
    ReadsBack(reg, values, Job);
    CompletedComplete(reg, values, runner);
    LoadsText(reg, values, Job, Materialized, runner, text);
  }

  /** One list attribute that takes any list. */
  const LISTS := Registry([Definition([120], {Job}, ListKind, Both, List([]))], (name, v) => true)

  /** A tower of up to 64 lists is written in full, and loaded again exactly when it has at most 30 of them. */
  lemma TallTower(n: nat) returns (text: JsonBuilder.Document)
    requires 0 < n <= MAX_DEPTH
    ensures var values := map[[120] := Tower(n)];
            var j := EncodeDocument(LISTS, values, Job, Partial, None);
            && j.Some? && JsonDocuments.Spells(text, j.value)
            && Load(LISTS, text, Job, Partial, None) == if n <= 30 then Some(values) else None
  {
    var values: AttributeSet := map[[120] := Tower(n)];
    TowerEncodes(n, 0, 62);
    assert Find(LISTS, [120]) == Some(LISTS.definitions[0]);
    assert Encodable(values);
    text := JsonDocuments.Spelling(Document(EncodeSet(values)));
    assert WellNamed(LISTS) by {
      Ascii([120]);
    }
    PartialRoundTrip(LISTS, values, Job, None, text);
    assert values[[120]] == Tower(n);
  }

  /** A definition whose own built-in value is refused: snapshots can be written but not read. */
  const BROKEN := Registry([Definition([120], {Job}, FlagKind, Both, Flag(false))], (name, v) => v == Flag(true))

  lemma BrokenBuiltIn()
    ensures var values := map[[120] := Flag(true)];
            && EncodeDocument(BROKEN, values, Job, Materialized, Some(CliRunner)).Some?
            && !BuiltInsValid(BROKEN, Some(CliRunner))
  {
    var values: AttributeSet := map[[120] := Flag(true)];
    var d := BROKEN.definitions[0];
    assert Find(BROKEN, [120]) == Some(d);
    assert Covers(BROKEN, values, Some(CliRunner));
    assert CrossFields(BROKEN, Judged(BROKEN, values, Some(CliRunner))) by {
      assert |INITIAL_DELAY| > 1 && |FOLLOW_REDIRECTS| > 1;
    }
    assert Encodable(values);
    assert d in BROKEN.definitions && Seeded(d, Some(CliRunner)) && !Validates(BROKEN, d.name, d.builtIn, Job);
  }

  /** Reading an older snapshot keeps every stored value and adds the built-in values it lacks. */
  lemma OlderSnapshot(reg: Registry, values: AttributeSet, runner: Option<Runner>, name: Bytes)
    requires Completed(reg, values, runner).Some?
    ensures var r := Completed(reg, values, runner).value;
            && (name in r <==> name in values || JobName(reg, runner, name))
            && (name in r ==> r[name] == if name in values then values[name] else Find(reg, name).value.builtIn)
  {
    var applicable := Judged(reg, values, runner);
    EffectiveAt(reg, runner, map[], map[], applicable, name);
  }
}
