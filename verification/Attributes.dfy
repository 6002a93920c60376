/**
 Attribute definitions, validation and materialization: built-in values
 overlaid by the daemon's, the queue's and the job's layers.
 */
module Attributes {
  import opened Wrappers
  import opened Utf8
  import opened AttributeCodec
  import opened JsonValues

  datatype Scope = DaemonDefault | QueueDefault | Job

  datatype Kind = FlagKind | WholeKind | RealKind | TextKind | DurationKind | BlobKind | ListKind | MapKind

  datatype Runner = CliRunner | HttpRunner

  datatype Applicability = Both | OnlyCli | OnlyHttp

  datatype Definition = Definition(name: Bytes, scopes: set<Scope>, kind: Kind, applicability: Applicability, builtIn: Value)

  /** The definitions and the per-attribute value check. */
  datatype Registry = Registry(definitions: seq<Definition>, accepts: (Bytes, Value) -> bool)

  type AttributeSet = map<Bytes, Value>

  predicate Distinct(reg: Registry) {
    forall i, j :: 0 <= i < j < |reg.definitions| ==> reg.definitions[i].name != reg.definitions[j].name
  }

  function Find(reg: Registry, name: Bytes): (d: Option<Definition>)
    ensures d.Some? ==> d.value in reg.definitions && d.value.name == name
    ensures d.None? ==> forall i :: 0 <= i < |reg.definitions| ==> reg.definitions[i].name != name
  {
    FindIn(reg.definitions, name)
  }

  function FindIn(definitions: seq<Definition>, name: Bytes): (d: Option<Definition>)
    ensures d.Some? ==> d.value in definitions && d.value.name == name
    ensures d.None? ==> forall i :: 0 <= i < |definitions| ==> definitions[i].name != name
  {
    if definitions == [] then None
    else if definitions[0].name == name then Some(definitions[0])
    else FindIn(definitions[1..], name)
  }

  lemma FindOwn(reg: Registry, d: Definition)
    requires Distinct(reg) && d in reg.definitions
    ensures Find(reg, d.name) == Some(d)
  {
  }

  predicate HasKind(v: Value, k: Kind) {
    match k
    case FlagKind => v.Flag?
    case WholeKind => v.Whole?
    case RealKind => v.Real?
    case TextKind => v.Text?
    case DurationKind => v.Duration?
    case BlobKind => v.Blob?
    case ListKind => v.List?
    case MapKind => v.Map?
  }

  predicate AppliesTo(d: Definition, runner: Runner) {
    d.applicability == Both || d.applicability == if runner == CliRunner then OnlyCli else OnlyHttp
  }

  /** The kind a value has. */
  function KindOfValue(v: Value): Kind {
    match v
    case Flag(_) => FlagKind
    case Whole(_) => WholeKind
    case Real(_) => RealKind
    case Text(_) => TextKind
    case Duration(_) => DurationKind
    case Blob(_) => BlobKind
    case List(_) => ListKind
    case Map(_) => MapKind
  }

  /** A definition is withheld from a runner only when it is the other runner's own. */
  lemma AppliesExactly(d: Definition, v: Value, k: Kind)
    ensures AppliesTo(d, CliRunner) <==> d.applicability != OnlyHttp
    ensures AppliesTo(d, HttpRunner) <==> d.applicability != OnlyCli
    ensures HasKind(v, k) <==> k == KindOfValue(v)
  {
  }

  /** Without a runner every definition applies. */
  predicate Applies(d: Definition, runner: Option<Runner>) {
    runner.None? || AppliesTo(d, runner.value)
  }

  /** A job of this runner has the attribute. */
  predicate Seeded(d: Definition, runner: Option<Runner>) {
    Job in d.scopes && Applies(d, runner)
  }

  predicate Validates(reg: Registry, name: Bytes, v: Value, scope: Scope) {
    var d := Find(reg, name);
    d.Some? && scope in d.value.scopes && HasKind(v, d.value.kind) && reg.accepts(name, v)
  }

  ghost predicate ValidSet(reg: Registry, values: AttributeSet, scope: Scope) {
    forall name :: name in values ==> Validates(reg, name, values[name], scope)
  }

  predicate Relevant(reg: Registry, runner: Option<Runner>, name: Bytes) {
    var d := Find(reg, name);
    d.Some? && Applies(d.value, runner)
  }

  /** The part of a layer that applies to the runner. */
  function View(reg: Registry, runner: Option<Runner>, values: AttributeSet): AttributeSet {
    map name | name in values && Relevant(reg, runner, name) :: values[name]
  }

  // ---------- Rules across attributes ----------

  const INITIAL_DELAY: Bytes := [114, 101, 116, 114, 121, 46, 105, 110, 105, 116, 105, 97, 108, 95, 100, 101, 108, 97, 121]  // "retry.initial_delay"
  const MAX_DELAY: Bytes := [114, 101, 116, 114, 121, 46, 109, 97, 120, 95, 100, 101, 108, 97, 121]  // "retry.max_delay"
  const FOLLOW_REDIRECTS: Bytes := [104, 116, 116, 112, 46, 102, 111, 108, 108, 111, 119, 95, 114, 101, 100, 105, 114, 101, 99, 116, 115]  // "http.follow_redirects"
  const MAX_REDIRECTS: Bytes := [104, 116, 116, 112, 46, 109, 97, 120, 95, 114, 101, 100, 105, 114, 101, 99, 116, 115]  // "http.max_redirects"

  function KindOf(reg: Registry, name: Bytes): Option<Kind> {
    var d := Find(reg, name);
    if d.Some? then Some(d.value.kind) else None
  }

  predicate RetryDelaysFit(reg: Registry, values: AttributeSet) {
    KindOf(reg, INITIAL_DELAY) == Some(DurationKind) && KindOf(reg, MAX_DELAY) == Some(DurationKind)
    && INITIAL_DELAY in values && MAX_DELAY in values
    && values[INITIAL_DELAY].Duration? && values[MAX_DELAY].Duration?
    ==> values[INITIAL_DELAY].ns <= values[MAX_DELAY].ns
  }

  predicate RedirectsFit(reg: Registry, values: AttributeSet) {
    KindOf(reg, FOLLOW_REDIRECTS) == Some(FlagKind) && KindOf(reg, MAX_REDIRECTS) == Some(WholeKind)
    && FOLLOW_REDIRECTS in values && MAX_REDIRECTS in values
    && values[FOLLOW_REDIRECTS] == Flag(true) && values[MAX_REDIRECTS].Whole?
    ==> values[MAX_REDIRECTS].i >= 1
  }

  predicate CrossFields(reg: Registry, values: AttributeSet) {
    RetryDelaysFit(reg, values) && RedirectsFit(reg, values)
  }

  lemma RuleNames()
    ensures INITIAL_DELAY == Octets("retry.initial_delay") && MAX_DELAY == Octets("retry.max_delay")
    ensures FOLLOW_REDIRECTS == Octets("http.follow_redirects") && MAX_REDIRECTS == Octets("http.max_redirects")
  {
  }

  /** Two delays and two redirect settings of their kinds fit exactly when they are in order. */
  lemma RulesExactly(reg: Registry, first: Int64, last: Int64, follow: bool, most: Int64)
    requires KindOf(reg, INITIAL_DELAY) == KindOf(reg, MAX_DELAY) == Some(DurationKind)
    requires KindOf(reg, FOLLOW_REDIRECTS) == Some(FlagKind) && KindOf(reg, MAX_REDIRECTS) == Some(WholeKind)
    ensures var values := map[INITIAL_DELAY := Duration(first), MAX_DELAY := Duration(last),
                              FOLLOW_REDIRECTS := Flag(follow), MAX_REDIRECTS := Whole(most)];
            CrossFields(reg, values) <==> !(last < first) && !(follow && most < 1)
  {
    RuleNames();
    assert |INITIAL_DELAY| == 19 && |MAX_DELAY| == 15 && |FOLLOW_REDIRECTS| == 21 && |MAX_REDIRECTS| == 18;
  }

  // ---------- Complete sets ----------

  /** The attributes a job of this runner has. */
  predicate JobName(reg: Registry, runner: Option<Runner>, name: Bytes) {
    var d := Find(reg, name);
    d.Some? && Seeded(d.value, runner)
  }

  ghost predicate Covers(reg: Registry, values: AttributeSet, runner: Option<Runner>) {
    forall d :: d in reg.definitions && Seeded(d, runner) ==> d.name in values
  }

  function Judged(reg: Registry, values: AttributeSet, runner: Option<Runner>): AttributeSet {
    if runner.None? then values else View(reg, runner, values)
  }

  ghost predicate Complete(reg: Registry, values: AttributeSet, runner: Option<Runner>) {
    ValidSet(reg, values, Job) && Covers(reg, values, runner) && CrossFields(reg, Judged(reg, values, runner))
  }

  // ---------- Materialization ----------

  ghost predicate BuiltInsValid(reg: Registry, runner: Option<Runner>) {
    forall d :: d in reg.definitions && Seeded(d, runner) ==> Validates(reg, d.name, d.builtIn, Job)
  }

  ghost function BuiltIns(reg: Registry, runner: Option<Runner>): AttributeSet {
    map d | d in reg.definitions && JobName(reg, runner, d.name) :: d.name := Find(reg, d.name).value.builtIn
  }

  /** The layers laid over each other, the most specific last. */
  ghost function Effective(reg: Registry, runner: Option<Runner>, daemon: AttributeSet, queue: AttributeSet, job: AttributeSet)
    : AttributeSet
  {
    BuiltIns(reg, runner) + View(reg, runner, daemon) + View(reg, runner, queue) + View(reg, runner, job)
  }

  ghost predicate JobFits(reg: Registry, runner: Option<Runner>, job: AttributeSet) {
    runner.Some? ==> (forall name :: name in job ==> Relevant(reg, runner, name)) && CrossFields(reg, job)
  }

  ghost predicate Acceptable(reg: Registry, runner: Option<Runner>,
                             daemon: AttributeSet, queue: AttributeSet, job: AttributeSet)
  {
    && LayersValid(reg, runner, daemon, queue, job) && BuiltInsValid(reg, runner)
    && Complete(reg, Effective(reg, runner, daemon, queue, job), runner)
  }

  ghost predicate LayersValid(reg: Registry, runner: Option<Runner>,
                              daemon: AttributeSet, queue: AttributeSet, job: AttributeSet)
  {
    && ValidSet(reg, daemon, DaemonDefault) && ValidSet(reg, queue, QueueDefault) && ValidSet(reg, job, Job)
    && JobFits(reg, runner, job)
  }

  /** The value a job gets: its own, else the queue's, else the daemon's, else the built-in. */
  function MostSpecific(reg: Registry, daemon: AttributeSet, queue: AttributeSet, job: AttributeSet, name: Bytes): Value
    requires Find(reg, name).Some?
  {
    if name in job then job[name]
    else if name in queue then queue[name]
    else if name in daemon then daemon[name]
    else Find(reg, name).value.builtIn
  }

  lemma BuiltInsAt(reg: Registry, runner: Option<Runner>, name: Bytes)
    ensures name in BuiltIns(reg, runner) <==> JobName(reg, runner, name)
  {
    if JobName(reg, runner, name) {
      var d := Find(reg, name).value;
      assert d in reg.definitions && d.name == name;
    }
  }

  /** What a layer over others holds. */
  lemma LayerAt(reg: Registry, runner: Option<Runner>, below: AttributeSet, layer: AttributeSet, name: Bytes)
    ensures var all := below + View(reg, runner, layer);
            && (name in all <==> name in below || (name in layer && Relevant(reg, runner, name)))
            && (name in all ==>
                  all[name] == if name in layer && Relevant(reg, runner, name) then layer[name] else below[name])
  {
  }

  lemma EffectiveAt(reg: Registry, runner: Option<Runner>, daemon: AttributeSet, queue: AttributeSet,
                    job: AttributeSet, name: Bytes)
    ensures name in Effective(reg, runner, daemon, queue, job) <==>
              || JobName(reg, runner, name)
              || (Relevant(reg, runner, name) && (name in daemon || name in queue || name in job))
    ensures name in Effective(reg, runner, daemon, queue, job) ==>
              && Find(reg, name).Some?
              && Effective(reg, runner, daemon, queue, job)[name] == MostSpecific(reg, daemon, queue, job, name)
  {
    var one := BuiltIns(reg, runner);
    var two := one + View(reg, runner, daemon);
    var three := two + View(reg, runner, queue);
    BuiltInsAt(reg, runner, name);
    LayerAt(reg, runner, one, daemon, name);
    LayerAt(reg, runner, two, queue, name);
    LayerAt(reg, runner, three, job, name);
  }

  /** The name of a job attribute that is not the other runner's own. */
  ghost predicate Wanted(reg: Registry, runner: Option<Runner>, name: Bytes) {
    && Find(reg, name).Some? && Job in Find(reg, name).value.scopes
    && (runner == Some(CliRunner) ==> Find(reg, name).value.applicability != OnlyHttp)
    && (runner == Some(HttpRunner) ==> Find(reg, name).value.applicability != OnlyCli)
  }

  /** Materialization yields exactly the job's attributes, each with its most specific value. */
  lemma MaterializedExactly(reg: Registry, runner: Option<Runner>, daemon: AttributeSet, queue: AttributeSet,
                            job: AttributeSet, name: Bytes)
    requires Acceptable(reg, runner, daemon, queue, job)
    ensures name in Effective(reg, runner, daemon, queue, job) <==> JobName(reg, runner, name)
    ensures JobName(reg, runner, name) <==> Wanted(reg, runner, name)
    ensures JobName(reg, runner, name) ==>
              Effective(reg, runner, daemon, queue, job)[name]
              == if name in job then job[name] else if name in queue then queue[name]
                 else if name in daemon then daemon[name] else Find(reg, name).value.builtIn
  {
    var all := Effective(reg, runner, daemon, queue, job);
    EffectiveAt(reg, runner, daemon, queue, job, name);
    OnlyJobNames(reg, all, name);
  }

  lemma OnlyJobNames(reg: Registry, all: AttributeSet, name: Bytes)
    requires ValidSet(reg, all, Job)
    ensures name in all ==> Find(reg, name).Some? && Job in Find(reg, name).value.scopes
  {
    if name in all {
      assert Validates(reg, name, all[name], Job);
    }
  }

  /** What the cross rules are for: delays in order, and redirects allowed where they are followed. */
  lemma MaterializedPolicies(reg: Registry, runner: Option<Runner>, daemon: AttributeSet, queue: AttributeSet,
                             job: AttributeSet)
    requires Acceptable(reg, runner, daemon, queue, job)
    ensures var all := Effective(reg, runner, daemon, queue, job);
            && (JobName(reg, runner, INITIAL_DELAY) && JobName(reg, runner, MAX_DELAY)
                && KindOf(reg, INITIAL_DELAY) == KindOf(reg, MAX_DELAY) == Some(DurationKind) ==>
                  && INITIAL_DELAY in all && MAX_DELAY in all
                  && all[INITIAL_DELAY].Duration? && all[MAX_DELAY].Duration?
                  && all[INITIAL_DELAY].ns <= all[MAX_DELAY].ns)
            && (JobName(reg, runner, FOLLOW_REDIRECTS) && JobName(reg, runner, MAX_REDIRECTS)
                && KindOf(reg, FOLLOW_REDIRECTS) == Some(FlagKind) && KindOf(reg, MAX_REDIRECTS) == Some(WholeKind) ==>
                  && FOLLOW_REDIRECTS in all && MAX_REDIRECTS in all
                  && (all[FOLLOW_REDIRECTS] == Flag(true) ==> all[MAX_REDIRECTS].Whole? && all[MAX_REDIRECTS].i >= 1))
  {
    var all := Effective(reg, runner, daemon, queue, job);
    KindHolds(reg, runner, all, INITIAL_DELAY);
    KindHolds(reg, runner, all, MAX_DELAY);
    KindHolds(reg, runner, all, FOLLOW_REDIRECTS);
    KindHolds(reg, runner, all, MAX_REDIRECTS);
  }

  lemma KindHolds(reg: Registry, runner: Option<Runner>, all: AttributeSet, name: Bytes)
    requires ValidSet(reg, all, Job) && Covers(reg, all, runner)
    ensures JobName(reg, runner, name) ==>
              && name in all && name in Judged(reg, all, runner) && Judged(reg, all, runner)[name] == all[name]
              && HasKind(all[name], KindOf(reg, name).value)
  {
    if JobName(reg, runner, name) {
      assert Find(reg, name).value in reg.definitions;
      assert Validates(reg, name, all[name], Job);
    }
  }

  ghost predicate AllRelevant(reg: Registry, runner: Option<Runner>, values: AttributeSet) {
    forall name :: name in values ==> Relevant(reg, runner, name)
  }

  /** A complete set that applies to the runner as a whole is its own materialization. */
  lemma CompleteIsFixed(reg: Registry, runner: Option<Runner>, values: AttributeSet)
    requires Covers(reg, values, runner) && AllRelevant(reg, runner, values)
    ensures Effective(reg, runner, map[], map[], values) == values && View(reg, runner, values) == values
  {
    var all := Effective(reg, runner, map[], map[], values);
    forall name
      ensures name in all <==> name in values
      ensures name in all ==> all[name] == values[name]
    {
      FixedAt(reg, runner, values, name);
    }
  }

  lemma FixedAt(reg: Registry, runner: Option<Runner>, values: AttributeSet, name: Bytes)
    requires Covers(reg, values, runner) && AllRelevant(reg, runner, values)
    ensures name in Effective(reg, runner, map[], map[], values) <==> name in values
    ensures name in values ==> Effective(reg, runner, map[], map[], values)[name] == values[name]
  {
    EffectiveAt(reg, runner, map[], map[], values, name);
    if JobName(reg, runner, name) {
      assert Find(reg, name).value in reg.definitions;
    }
  }

  /** A complete set that applies as a whole is accepted exactly when the built-in values are valid. */
  lemma AcceptableComplete(reg: Registry, runner: Option<Runner>, values: AttributeSet)
    requires ValidSet(reg, values, Job) && Covers(reg, values, runner) && AllRelevant(reg, runner, values)
    requires CrossFields(reg, values)
    ensures Acceptable(reg, runner, map[], map[], values) <==> BuiltInsValid(reg, runner)
    ensures Effective(reg, runner, map[], map[], values) == values
  {
    CompleteIsFixed(reg, runner, values);
    assert ValidSet(reg, map[], DaemonDefault) && ValidSet(reg, map[], QueueDefault);
    assert JobFits(reg, runner, values);
  }

  /** Materializing a materialized set again, with empty defaults, changes nothing. */
  lemma Rematerialize(reg: Registry, runner: Option<Runner>, daemon: AttributeSet, queue: AttributeSet, job: AttributeSet)
    requires Acceptable(reg, runner, daemon, queue, job)
    ensures var all := Effective(reg, runner, daemon, queue, job);
            Acceptable(reg, runner, map[], map[], all) && Effective(reg, runner, map[], map[], all) == all
  {
    var all := Effective(reg, runner, daemon, queue, job);
    forall name | name in all
      ensures Relevant(reg, runner, name)
    {
      MaterializedExactly(reg, runner, daemon, queue, job, name);
    }
    CompleteIsFixed(reg, runner, all);
    AcceptableComplete(reg, runner, all);
  }

  // ---------- The operations ----------

  method ValidateSet(reg: Registry, values: AttributeSet, scope: Scope) returns (ok: bool)
    ensures ok <==> ValidSet(reg, values, scope)
  {
    var left := values.Keys;
    while left != {}
      invariant left <= values.Keys
      invariant forall name :: name in values && name !in left ==> Validates(reg, name, values[name], scope)
      decreases |left|
    {
      var name :| name in left;
      if !Validates(reg, name, values[name], scope) {
        return false;
      }
      left := left - {name};
    }
    return true;
  }

  method ValidateJob(reg: Registry, values: AttributeSet, runner: Runner) returns (ok: bool)
    requires ValidSet(reg, values, Job)
    ensures ok <==> JobFits(reg, Some(runner), values)
  {
    var left := values.Keys;
    while left != {}
      invariant left <= values.Keys
      invariant forall name :: name in values && name !in left ==> Relevant(reg, Some(runner), name)
      decreases |left|
    {
      var name :| name in left;
      if !Relevant(reg, Some(runner), name) {
        return false;
      }
      left := left - {name};
    }
    return CrossFields(reg, values);
  }

  method ValidateComplete(reg: Registry, values: AttributeSet, runner: Option<Runner>) returns (ok: bool)
    ensures ok <==> Complete(reg, values, runner)
  {
    ok := ValidateSet(reg, values, Job);
    if !ok {
      return;
    }
    for i := 0 to |reg.definitions|
      invariant forall d :: d in reg.definitions[..i] && Seeded(d, runner) ==> d.name in values
    {
      var d := reg.definitions[i];
      if Seeded(d, runner) && d.name !in values {
        return false;
      }
    }
    assert reg.definitions[..|reg.definitions|] == reg.definitions;
    return CrossFields(reg, Judged(reg, values, runner));
  }

  /** Seeds the built-in values; None when one of them is not valid itself. */
  method Seed(reg: Registry, runner: Option<Runner>) returns (r: Option<AttributeSet>)
    requires Distinct(reg)
    ensures r.Some? <==> BuiltInsValid(reg, runner)
    ensures r.Some? ==> r.value == BuiltIns(reg, runner)
  {
    var seeded: AttributeSet := map[];
    for i := 0 to |reg.definitions|
      invariant forall d :: d in reg.definitions[..i] && Seeded(d, runner) ==> Validates(reg, d.name, d.builtIn, Job)
      invariant forall d :: d in reg.definitions[..i] && Seeded(d, runner) ==>
                  d.name in seeded && seeded[d.name] == d.builtIn
      invariant forall name :: name in seeded ==> JobName(reg, runner, name)
    {
      var d := reg.definitions[i];
      FindOwn(reg, d);
      if Seeded(d, runner) {
        if !Validates(reg, d.name, d.builtIn, Job) {
          return None;
        }
        seeded := seeded[d.name := d.builtIn];
      }
    }
    assert reg.definitions[..|reg.definitions|] == reg.definitions;
    SeededAll(reg, runner, seeded);
    return Some(seeded);
  }

  lemma SeededAll(reg: Registry, runner: Option<Runner>, seeded: AttributeSet)
    requires forall d :: d in reg.definitions && Seeded(d, runner) ==>
               d.name in seeded && seeded[d.name] == d.builtIn
    requires forall name :: name in seeded ==> JobName(reg, runner, name)
    ensures seeded == BuiltIns(reg, runner)
  {
    forall name
      ensures name in seeded <==> name in BuiltIns(reg, runner)
    {
      BuiltInsAt(reg, runner, name);
      if JobName(reg, runner, name) {
        assert Find(reg, name).value in reg.definitions;
      }
    }
    forall name | name in seeded
      ensures seeded[name] == BuiltIns(reg, runner)[name]
    {
      assert Find(reg, name).value in reg.definitions;
    }
  }

  function Restrict(layer: AttributeSet, names: set<Bytes>): AttributeSet {
    map name | name in layer && name in names :: layer[name]
  }

  lemma RestrictMore(under: AttributeSet, layer: AttributeSet, names: set<Bytes>, name: Bytes)
    requires name in layer
    ensures under + Restrict(layer, names + {name}) == (under + Restrict(layer, names))[name := layer[name]]
  {
  }

  method Overlay(reg: Registry, runner: Option<Runner>, under: AttributeSet, layer: AttributeSet)
      returns (r: AttributeSet)
    ensures r == under + View(reg, runner, layer)
  {
    r := under;
    var left := layer.Keys;
    ghost var chosen: set<Bytes> := {};
    assert Restrict(layer, chosen) == map[];
    while left != {}
      invariant left <= layer.Keys && chosen !! left && r == under + Restrict(layer, chosen)
      invariant forall name :: name in layer && name !in left ==> (name in chosen <==> Relevant(reg, runner, name))
      decreases |left|
    {
      var name :| name in left;
      if Relevant(reg, runner, name) {
        RestrictMore(under, layer, chosen, name);
        r := r[name := layer[name]];
        chosen := chosen + {name};
      }
      left := left - {name};
    }
    ChosenIsView(reg, runner, layer, chosen);
  }

  lemma ChosenIsView(reg: Registry, runner: Option<Runner>, layer: AttributeSet, chosen: set<Bytes>)
    requires forall name :: name in layer ==> (name in chosen <==> Relevant(reg, runner, name))
    ensures Restrict(layer, chosen) == View(reg, runner, layer)
  {
  }

  method ValidateLayers(reg: Registry, runner: Option<Runner>, daemon: AttributeSet, queue: AttributeSet, job: AttributeSet)
      returns (ok: bool)
    ensures ok <==> LayersValid(reg, runner, daemon, queue, job)
  {
    var daemonOk := ValidateSet(reg, daemon, DaemonDefault);
    var queueOk := ValidateSet(reg, queue, QueueDefault);
    ok := ValidateSet(reg, job, Job);
    ok := ok && daemonOk && queueOk;
    if ok && runner.Some? {
      ok := ValidateJob(reg, job, runner.value);
    }
  }

  method LayOver(reg: Registry, runner: Option<Runner>, seeded: AttributeSet,
                 daemon: AttributeSet, queue: AttributeSet, job: AttributeSet) returns (r: AttributeSet)
    requires seeded == BuiltIns(reg, runner)
    ensures r == Effective(reg, runner, daemon, queue, job)
  {
    r := Overlay(reg, runner, seeded, daemon);
    r := Overlay(reg, runner, r, queue);
    r := Overlay(reg, runner, r, job);
  }

  /** materialize_attributes(), with or without a runner. */
  method Materialize(reg: Registry, runner: Option<Runner>, daemon: AttributeSet, queue: AttributeSet, job: AttributeSet)
      returns (r: Option<AttributeSet>)
    requires Distinct(reg)
    ensures r.Some? <==> Acceptable(reg, runner, daemon, queue, job)
    ensures r.Some? ==> r.value == Effective(reg, runner, daemon, queue, job)
  {
    var valid := ValidateLayers(reg, runner, daemon, queue, job);
    if !valid {
      return None;
    }
    var seeded := Seed(reg, runner);
    if seeded.None? {
      return None;
    }
    var result := LayOver(reg, runner, seeded.value, daemon, queue, job);
    var complete := ValidateComplete(reg, result, runner);
    return if complete then Some(result) else None;
  }
}
