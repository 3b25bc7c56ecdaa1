/**
 Evidence bundles (dsl/evidence.go): the export of two hash chains under one root hash, and
 their offline check. The digest is a parameter: binding is proved for every digest that has
 no collision among the texts that checking the two bundles hashes.
 */
module Evidence {
  import opened Canonical
  import opened Definition
  import opened Marshal
  import Lexical

  const FORMAT_V1 := "weiyang-evidence/v1"
  const OCC_STARTED := 0
  const OCC_DEF_ACTIVATED := 18

  /** A SHA-256 sum in hexadecimal. */
  type Digest = s: string | |s| == 64 witness seq(64, _ => '0')

  type Hash = string -> Digest

  datatype Entry = Entry(fact: Fact, prev: string, hash: string)

  datatype Bundle = Bundle(
    format: string, definitions: seq<Version>, definitionLog: seq<Entry>, executionLog: seq<Entry>, root: string)

  predicate ProperLog(log: seq<Entry>) {
    forall e <- log :: ProperFact(e.fact)
  }

  predicate ProperBundle(b: Bundle) {
    (forall v <- b.definitions :: ProperVersion(v)) && ProperLog(b.definitionLog) && ProperLog(b.executionLog)
  }

  // ---------------------------------------------------------------- hashed texts

  function EntryPayload(prev: string, f: Fact): Json {
    JObject(map["domain" := JString(FORMAT_V1 + "/occurrence"), "previous" := JString(prev), "occurrence" := MarshalFact(f)])
  }

  ghost function EntryText(prev: string, f: Fact): string {
    Encode(EntryPayload(prev, f))
  }

  function Head(log: seq<Entry>): string {
    if log == [] then "" else log[|log| - 1].hash
  }

  function Summary(log: seq<Entry>): Json {
    JObject(map["count" := JNumber(Decimal(|log|)), "head" := JString(Head(log))])
  }

  function RootPayload(b: Bundle): Json {
    JObject(map[
      "format" := JString(b.format),
      "definitions" := JArray(seq(|b.definitions|, i requires 0 <= i < |b.definitions| => MarshalVersion(b.definitions[i]))),
      "definitionLog" := Summary(b.definitionLog),
      "executionLog" := Summary(b.executionLog)])
  }

  ghost function RootText(b: Bundle): string {
    Encode(RootPayload(b))
  }

  lemma EntryTextUnique(p: string, f: Fact, q: string, g: Fact)
    requires ProperFact(f) && ProperFact(g) && EntryText(p, f) == EntryText(q, g)
    ensures p == q && f == g
  {
    hide MarshalFact, Encode;
    FactProper(f);
    FactProper(g);
    Faithful(EntryPayload(p, f), EntryPayload(q, g));
    var m, n := EntryPayload(p, f).fields, EntryPayload(q, g).fields;
    assert m["previous"] == n["previous"] && m["occurrence"] == n["occurrence"];
    FactReads(f);
    FactReads(g);
  }

  lemma SummaryProper(log: seq<Entry>)
    ensures Proper(Summary(log))
  {
    hide Head;
    var m := Summary(log).fields;
    assert Proper(m["count"]) && Proper(m["head"]);
  }

  lemma RootProper(b: Bundle)
    requires ProperBundle(b)
    ensures Proper(RootPayload(b))
  {
    hide MarshalVersion, ProperVersion;
    forall i | 0 <= i < |b.definitions| ensures Proper(MarshalVersion(b.definitions[i])) {
      VersionProper(b.definitions[i]);
    }
    assert Proper(RootPayload(b).fields["definitions"]);
    SummaryProper(b.definitionLog);
    SummaryProper(b.executionLog);
  }

  lemma RootTextUnique(a: Bundle, b: Bundle)
    requires ProperBundle(a) && ProperBundle(b) && RootText(a) == RootText(b)
    ensures a.format == b.format && a.definitions == b.definitions
    ensures |a.definitionLog| == |b.definitionLog| && Head(a.definitionLog) == Head(b.definitionLog)
    ensures |a.executionLog| == |b.executionLog| && Head(a.executionLog) == Head(b.executionLog)
  {
    hide MarshalVersion, ProperVersion, Encode, Head, Decimal;
    RootProper(a);
    RootProper(b);
    Faithful(RootPayload(a), RootPayload(b));
    var m, n := RootPayload(a).fields, RootPayload(b).fields;
    assert m["format"] == n["format"] && m["definitions"] == n["definitions"];
    assert m["definitionLog"] == n["definitionLog"] && m["executionLog"] == n["executionLog"];
    SummaryUnique(a.definitionLog, b.definitionLog);
    SummaryUnique(a.executionLog, b.executionLog);
    forall i | 0 <= i < |a.definitions| ensures a.definitions[i] == b.definitions[i] {
      assert m["definitions"].elems[i] == n["definitions"].elems[i];
      VersionReads(a.definitions[i]);
      VersionReads(b.definitions[i]);
    }
  }

  lemma SummaryUnique(a: seq<Entry>, b: seq<Entry>)
    requires Summary(a) == Summary(b)
    ensures |a| == |b| && Head(a) == Head(b)
  {
    var m, n := Summary(a).fields, Summary(b).fields;
    assert m["count"] == n["count"] && m["head"] == n["head"];
    DecimalReads(|a|);
    DecimalReads(|b|);
  }

  // ------------------------------------------------------------- valid bundles

  /** Each entry hashes its fact behind the hash of the entry before it. */
  ghost predicate Linked(h: Hash, log: seq<Entry>) {
    forall i | 0 <= i < |log| ::
      log[i].prev == Head(log[..i]) && log[i].hash == h(EntryText(log[i].prev, log[i].fact))
  }

  predicate Rising(log: seq<Entry>) {
    forall i, j | 0 <= i < j < |log| :: log[i].fact.seqNo < log[j].fact.seqNo
  }

  type Key = (string, string)

  predicate KeyLess(a: Key, b: Key) {
    Lexical.Less(a.0, b.0) || (a.0 == b.0 && Lexical.Less(a.1, b.1))
  }

  function KeyOf(p: Process): Key {
    (p.id, p.version)
  }

  /** `hashProcessDef` keeps half of the sum. */
  ghost function DefinitionHash(h: Hash, p: Process): string {
    h(Encode(MarshalProcess(p)))[..32]
  }

  ghost predicate History(h: Hash, versions: seq<Version>) {
    && (forall v <- versions :: v.definition.Some? && v.definition.value.id != "" && v.definition.value.version != "" &&
          v.hash == DefinitionHash(h, v.definition.value))
    && forall i, j | 0 <= i < j < |versions| ::
         KeyLess(KeyOf(versions[i].definition.value), KeyOf(versions[j].definition.value))
  }

  /** An activation agrees with the version it names. */
  predicate Backs(v: Version, f: Fact) {
    && v.definition.Some? && KeyOf(v.definition.value) == (f.defId, f.defVersion)
    && f.activation.Some? && f.activation.value.defId == f.defId && f.activation.value.version == f.defVersion
    && f.activation.value.hash == v.hash
    && f.activation.value.proposer == v.info.proposer && f.activation.value.owner == v.info.owner
  }

  predicate Activates(versions: seq<Version>, f: Fact) {
    f.kind == OCC_DEF_ACTIVATED && f.instance == "" && f.execution == "" && exists v <- versions :: Backs(v, f)
  }

  /** A fact of the one execution that `first` belongs to. */
  predicate Executes(first: Fact, f: Fact) {
    && f.kind != OCC_DEF_ACTIVATED && f.instance != "" && f.defId == "" && f.defVersion == "" && f.activation.None?
    && f.instance == first.instance && f.execution == first.execution
  }

  predicate Execution(log: seq<Fact>) {
    log != [] && (forall f <- log :: Executes(log[0], f)) && exists f <- log :: f.kind == OCC_STARTED
  }

  function Facts(log: seq<Entry>): seq<Fact> {
    seq(|log|, i requires 0 <= i < |log| => log[i].fact)
  }

  /** What a bundle that passes the offline check is. */
  ghost predicate Verified(h: Hash, b: Bundle) {
    && b.format == FORMAT_V1 && b.definitions != [] && History(h, b.definitions)
    && Linked(h, b.definitionLog) && Rising(b.definitionLog)
    && (forall f <- Facts(b.definitionLog) :: Activates(b.definitions, f))
    && Linked(h, b.executionLog) && Rising(b.executionLog) && Execution(Facts(b.executionLog))
    && b.root == h(RootText(b))
  }

  // ------------------------------------------------- what is in an accepted bundle

  /** The activation of a version, member by member: the version is listed, and the fact says
      of it what the list says. */
  ghost predicate Attests(h: Hash, versions: seq<Version>, f: Fact) {
    f.activation.Some? && exists v <- versions ::
      && v.definition.Some?
      && v.definition.value.id == f.defId == f.activation.value.defId
      && v.definition.value.version == f.defVersion == f.activation.value.version
      && f.activation.value.hash == h(Encode(MarshalProcess(v.definition.value)))[..32]
      && f.activation.value.proposer == v.info.proposer
      && f.activation.value.owner == v.info.owner
  }

  /** A hash chain, entry by entry. */
  ghost predicate Chained(h: Hash, log: seq<Entry>) {
    forall i | 0 <= i < |log| :: ChainedAt(h, log, i)
  }

  ghost predicate ChainedAt(h: Hash, log: seq<Entry>, i: nat)
    requires i < |log|
  {
    && log[i].prev == (if i == 0 then "" else log[i - 1].hash)
    && log[i].hash == h(Encode(JObject(map[
         "domain" := JString("weiyang-evidence/v1/occurrence"),
         "previous" := JString(log[i].prev),
         "occurrence" := MarshalFact(log[i].fact)])))
    && (i > 0 ==> log[i - 1].fact.seqNo < log[i].fact.seqNo)
  }

  /** Versions with their own hashes, each behind its neighbour. */
  ghost predicate Catalogued(h: Hash, versions: seq<Version>) {
    forall i | 0 <= i < |versions| :: CataloguedAt(h, versions, i)
  }

  ghost predicate CataloguedAt(h: Hash, versions: seq<Version>, i: nat)
    requires i < |versions|
  {
    && versions[i].definition.Some?
    && var p := versions[i].definition.value;
       && p.id != "" && p.version != "" && versions[i].hash == h(Encode(MarshalProcess(p)))[..32]
       && (i > 0 && versions[i - 1].definition.Some? ==>
             var q := versions[i - 1].definition.value;
             Lexical.Less(q.id, p.id) || (q.id == p.id && Lexical.Less(q.version, p.version)))
  }

  lemma ChainedMeaning(h: Hash, log: seq<Entry>)
    ensures Linked(h, log) && Rising(log) <==> Chained(h, log)
  {
    hide EntryText, ChainedAt, Head;
    if Chained(h, log) {
      forall i, j | 0 <= i < j < |log| ensures log[i].fact.seqNo < log[j].fact.seqNo {
        forall k | 0 < k < |log| ensures log[k - 1].fact.seqNo < log[k].fact.seqNo {
          assert ChainedAt(h, log, k);
          ChainedHere(h, log, k);
        }
        RisesFrom(log, i, j);
      }
    }
    if Linked(h, log) && Rising(log) {
      forall i | 0 <= i < |log| ensures ChainedAt(h, log, i) {
        assert log[i].prev == Head(log[..i]);
        ChainedHere(h, log, i);
      }
    }
    if Chained(h, log) {
      forall i | 0 <= i < |log|
        ensures log[i].prev == Head(log[..i]) && log[i].hash == h(EntryText(log[i].prev, log[i].fact))
      {
        assert ChainedAt(h, log, i);
        ChainedHere(h, log, i);
      }
    }
  }

  lemma ChainedHere(h: Hash, log: seq<Entry>, i: nat)
    requires i < |log|
    ensures ChainedAt(h, log, i) <==>
      log[i].prev == Head(log[..i]) && log[i].hash == h(EntryText(log[i].prev, log[i].fact)) &&
      (i > 0 ==> log[i - 1].fact.seqNo < log[i].fact.seqNo)
  {
    hide Encode, MarshalFact;
    assert FORMAT_V1 + "/occurrence" == "weiyang-evidence/v1/occurrence";
    if i > 0 {
      LastHash(log[..i]);
    }
  }

  lemma {:induction false} RisesFrom(log: seq<Entry>, i: nat, j: nat)
    requires i < j < |log| && forall k | 0 < k < |log| :: log[k - 1].fact.seqNo < log[k].fact.seqNo
    ensures log[i].fact.seqNo < log[j].fact.seqNo
    decreases j
  {
    if i + 1 < j {
      RisesFrom(log, i, j - 1);
    }
  }

  lemma CataloguedMeaning(h: Hash, versions: seq<Version>)
    ensures History(h, versions) <==> Catalogued(h, versions)
  {
    hide MarshalProcess, Encode;
    if Catalogued(h, versions) {
      forall i | 0 <= i < |versions| ensures HasKey(h, versions[i]) {
        assert CataloguedAt(h, versions, i);
      }
      forall i, j | 0 <= i < j < |versions|
        ensures KeyLess(KeyOf(versions[i].definition.value), KeyOf(versions[j].definition.value))
      {
        FollowsFrom(h, versions, i, j);
      }
    }
    if History(h, versions) {
      forall i | 0 <= i < |versions| ensures CataloguedAt(h, versions, i) {
        assert versions[i] in versions && (i > 0 ==> versions[i - 1] in versions);
      }
    }
  }

  ghost predicate HasKey(h: Hash, v: Version) {
    && v.definition.Some? && v.definition.value.id != "" && v.definition.value.version != ""
    && v.hash == h(Encode(MarshalProcess(v.definition.value)))[..32]
  }

  lemma {:induction false} FollowsFrom(h: Hash, versions: seq<Version>, i: nat, j: nat)
    requires i < j < |versions| && Catalogued(h, versions)
    ensures versions[i].definition.Some? && versions[j].definition.Some?
    ensures KeyLess(KeyOf(versions[i].definition.value), KeyOf(versions[j].definition.value))
    decreases j
  {
    hide MarshalProcess, Encode;
    assert CataloguedAt(h, versions, i) && CataloguedAt(h, versions, j - 1) && CataloguedAt(h, versions, j);
    if i + 1 < j {
      FollowsFrom(h, versions, i, j - 1);
      KeyOrder(KeyOf(versions[i].definition.value), KeyOf(versions[j - 1].definition.value), KeyOf(versions[j].definition.value));
    }
  }

  lemma AttestsMeaning(h: Hash, versions: seq<Version>, f: Fact)
    requires Catalogued(h, versions)
    ensures (exists v <- versions :: Backs(v, f)) <==> Attests(h, versions, f)
  {
    hide MarshalProcess, Encode;
    forall v | v in versions
      ensures v.definition.Some? && v.hash == h(Encode(MarshalProcess(v.definition.value)))[..32]
    {
      var i :| 0 <= i < |versions| && versions[i] == v;
      assert CataloguedAt(h, versions, i);
    }
  }

  /** What is in a valid bundle, member by member: versions with their own hashes, each behind
      its neighbour; activations of listed versions, true in every member; the facts of one
      started execution; chains of increasing numbers; and the root over them. */
  lemma VerifiedMeaning(h: Hash, b: Bundle)
    ensures Verified(h, b) <==>
      && b.format == "weiyang-evidence/v1" && b.definitions != []
      && Catalogued(h, b.definitions) && Chained(h, b.definitionLog) && Chained(h, b.executionLog)
      && (forall i | 0 <= i < |b.definitionLog| ::
            var f := b.definitionLog[i].fact;
            f.kind == 18 && f.instance == "" && f.execution == "" && Attests(h, b.definitions, f))
      && (forall i | 0 <= i < |b.executionLog| ::
            var f, first := b.executionLog[i].fact, b.executionLog[0].fact;
            && f.kind != 18 && f.defId == "" && f.defVersion == "" && f.activation.None?
            && f.instance != "" && f.instance == first.instance && f.execution == first.execution)
      && (exists i | 0 <= i < |b.executionLog| :: b.executionLog[i].fact.kind == 0)
      && b.root == h(RootText(b))
  {
    hide RootText, Linked, Rising, Chained, History, Catalogued, Attests, Backs, Activates, Execution, Facts;
    ChainedMeaning(h, b.definitionLog);
    ChainedMeaning(h, b.executionLog);
    CataloguedMeaning(h, b.definitions);
    ExecutionMeaning(b.executionLog);
    if Catalogued(h, b.definitions) {
      ActivationsMeaning(h, b.definitions, b.definitionLog);
    }
  }

  lemma ActivationsMeaning(h: Hash, versions: seq<Version>, log: seq<Entry>)
    requires Catalogued(h, versions)
    ensures (forall f <- Facts(log) :: Activates(versions, f)) <==>
      forall i | 0 <= i < |log| ::
        var f := log[i].fact;
        f.kind == 18 && f.instance == "" && f.execution == "" && Attests(h, versions, f)
  {
    hide Catalogued, Attests, Backs, Facts;
    FactsOf(log);
    var facts := Facts(log);
    assert forall i | 0 <= i < |log| :: facts[i] in facts;
    forall i | 0 <= i < |log|
      ensures (exists v <- versions :: Backs(v, log[i].fact)) <==> Attests(h, versions, log[i].fact)
    {
      AttestsMeaning(h, versions, log[i].fact);
    }
  }

  lemma ExecutionMeaning(log: seq<Entry>)
    ensures Execution(Facts(log)) <==>
      && (forall i | 0 <= i < |log| ::
            var f, first := log[i].fact, log[0].fact;
            && f.kind != 18 && f.defId == "" && f.defVersion == "" && f.activation.None?
            && f.instance != "" && f.instance == first.instance && f.execution == first.execution)
      && (exists i | 0 <= i < |log| :: log[i].fact.kind == 0)
  {
    var facts := Facts(log);
    FactsOf(log);
    if log != [] {
      assert forall i | 0 <= i < |log| :: facts[i] in facts;
    }
  }

  lemma FactsOf(log: seq<Entry>)
    ensures |Facts(log)| == |log| && forall i | 0 <= i < |log| :: Facts(log)[i] == log[i].fact
  {
  }

  /** No key is listed twice. */
  lemma OneVersion(h: Hash, versions: seq<Version>, v: Version, w: Version)
    requires Catalogued(h, versions) && v in versions && w in versions && v.definition.Some? && w.definition.Some?
    requires KeyOf(v.definition.value) == KeyOf(w.definition.value)
    ensures v == w
  {
    hide Catalogued, KeyLess;
    var i :| 0 <= i < |versions| && versions[i] == v;
    var j :| 0 <= j < |versions| && versions[j] == w;
    CataloguedMeaning(h, versions);
    var key := KeyOf(v.definition.value);
    KeyOrder(key, key, key);
  }

  /** An activation of a listed version has one true reading. */
  lemma OneActivation(h: Hash, versions: seq<Version>, f: Fact, g: Fact)
    requires Catalogued(h, versions) && Attests(h, versions, f) && Attests(h, versions, g)
    requires (f.defId, f.defVersion) == (g.defId, g.defVersion)
    ensures var x, y := f.activation.value, g.activation.value;
      (x.defId, x.version, x.hash, x.proposer, x.owner) == (y.defId, y.version, y.hash, y.proposer, y.owner)
  {
    hide Catalogued, Encode, MarshalProcess;
    var v :| v in versions && v.definition.Some? && KeyOf(v.definition.value) == (f.defId, f.defVersion) &&
      f.activation.value.hash == h(Encode(MarshalProcess(v.definition.value)))[..32] &&
      f.activation.value.proposer == v.info.proposer && f.activation.value.owner == v.info.owner;
    var w :| w in versions && w.definition.Some? && KeyOf(w.definition.value) == (g.defId, g.defVersion) &&
      g.activation.value.hash == h(Encode(MarshalProcess(w.definition.value)))[..32] &&
      g.activation.value.proposer == w.info.proposer && g.activation.value.owner == w.info.owner;
    OneVersion(h, versions, v, w);
  }

  /** Whoever alters what one activation says of its version, in any of the five members, and
      recomputes both chains and the root, does not pass the check. */
  lemma AlteredActivation(h: Hash, a: Bundle, b: Bundle, i: nat, altered: Activation)
    requires Verified(h, a) && b.definitions == a.definitions
    requires i < |a.definitionLog| && i < |b.definitionLog|
    requires b.definitionLog[i].fact == a.definitionLog[i].fact.(activation := Some(altered))
    requires a.definitionLog[i].fact.activation.Some?
    requires
      var x := a.definitionLog[i].fact.activation.value;
      || altered.defId != x.defId || altered.version != x.version || altered.hash != x.hash
      || altered.proposer != x.proposer || altered.owner != x.owner
    ensures !Verified(h, b)
  {
    hide RootText, Chained, Catalogued, Attests, Verified;
    VerifiedMeaning(h, a);
    VerifiedMeaning(h, b);
    if Verified(h, b) {
      OneActivation(h, a.definitions, a.definitionLog[i].fact, b.definitionLog[i].fact);
    }
  }

  // -------------------------------------------------------------------- binding

  ghost function EntryTexts(log: seq<Entry>): set<string> {
    set i | 0 <= i < |log| :: EntryText(log[i].prev, log[i].fact)
  }

  /** The texts whose hashes tie a bundle to its root. */
  ghost function Texts(b: Bundle): set<string> {
    EntryTexts(b.definitionLog) + EntryTexts(b.executionLog) + {RootText(b)}
  }

  ghost predicate CollisionFree(h: Hash, texts: set<string>) {
    forall s, t | s in texts && t in texts && h(s) == h(t) :: s == t
  }

  lemma FreeOf(h: Hash, texts: set<string>, s: string, t: string)
    requires CollisionFree(h, texts) && s in texts && t in texts && h(s) == h(t)
    ensures s == t
  {
  }

  lemma FreeWithin(h: Hash, texts: set<string>, some: set<string>)
    requires CollisionFree(h, texts) && some <= texts
    ensures CollisionFree(h, some)
  {
  }

  lemma SameEnd(a: seq<Entry>, b: seq<Entry>)
    requires |a| == |b| > 0 && a[..|a| - 1] == b[..|b| - 1] && a[|a| - 1] == b[|b| - 1]
    ensures a == b
  {
    assert a == a[..|a| - 1] + [a[|a| - 1]];
    assert b == b[..|b| - 1] + [b[|b| - 1]];
  }

  /** The last entries are the same, and what was asked of the chains holds of those before. */
  lemma EndsAlike(h: Hash, a: seq<Entry>, b: seq<Entry>)
    requires a != [] && b != [] && ProperLog(a) && ProperLog(b) && Linked(h, a) && Linked(h, b) && Head(a) == Head(b)
    requires CollisionFree(h, EntryTexts(a) + EntryTexts(b))
    ensures a[|a| - 1] == b[|b| - 1]
    ensures var x, y := a[..|a| - 1], b[..|b| - 1];
      && ProperLog(x) && ProperLog(y) && Linked(h, x) && Linked(h, y) && Head(x) == Head(y)
      && CollisionFree(h, EntryTexts(x) + EntryTexts(y))
  {
    hide Linked, EntryTexts, EntryText, ProperLog, Head, CollisionFree, ProperFact;
    var last, end, texts := a[|a| - 1], b[|b| - 1], EntryTexts(a) + EntryTexts(b);
    LastEntry(h, a);
    LastEntry(h, b);
    FreeOf(h, texts, EntryText(last.prev, last.fact), EntryText(end.prev, end.fact));
    FreeWithin(h, texts, EntryTexts(a[..|a| - 1]) + EntryTexts(b[..|b| - 1]));
    EntryTextUnique(last.prev, last.fact, end.prev, end.fact);
  }

  /** A chain is determined by its length and its last hash. */
  lemma {:induction false} ChainBinding(h: Hash, a: seq<Entry>, b: seq<Entry>)
    requires ProperLog(a) && ProperLog(b) && Linked(h, a) && Linked(h, b)
    requires |a| == |b| && Head(a) == Head(b)
    requires CollisionFree(h, EntryTexts(a) + EntryTexts(b))
    ensures a == b
    decreases |a|
  {
    if a != [] {
      hide Linked, EntryTexts, EntryText, ProperLog, Head, CollisionFree, ProperFact;
      var n := |a| - 1;
      EndsAlike(h, a, b);
      ChainBinding(h, a[..n], b[..n]);
      SameEnd(a, b);
    }
  }

  lemma LastEntry(h: Hash, log: seq<Entry>)
    requires log != [] && Linked(h, log) && ProperLog(log)
    ensures var last := log[|log| - 1]; var before := log[..|log| - 1];
      && Linked(h, before) && ProperLog(before) && EntryTexts(before) <= EntryTexts(log)
      && ProperFact(last.fact) && EntryText(last.prev, last.fact) in EntryTexts(log)
      && Head(log) == last.hash == h(EntryText(last.prev, last.fact)) && last.prev == Head(before)
  {
    hide EntryText, ProperFact, Head;
    var before := log[..|log| - 1];
    assert forall i | 0 <= i < |before| :: before[..i] == log[..i];
    forall i | 0 <= i < |before| ensures EntryText(before[i].prev, before[i].fact) in EntryTexts(log) {
      assert before[i] == log[i];
    }
    LastHash(log);
  }

  lemma LastHash(log: seq<Entry>)
    requires log != []
    ensures Head(log) == log[|log| - 1].hash
  {
  }

  /** Two bundles that pass the check under one root hash are the same bundle: no edit,
      deletion, insertion or reordering goes unseen. */
  lemma Binding(h: Hash, a: Bundle, b: Bundle)
    requires ProperBundle(a) && ProperBundle(b) && CollisionFree(h, Texts(a) + Texts(b))
    requires Verified(h, a) && Verified(h, b) && a.root == b.root
    ensures a == b
  {
    hide RootText, ProperFact, Linked, EntryTexts, History, Activates, Execution, Rising;
    assert RootText(a) in Texts(a) && RootText(b) in Texts(b);
    RootTextUnique(a, b);
    ChainBinding(h, a.definitionLog, b.definitionLog);
    ChainBinding(h, a.executionLog, b.executionLog);
  }

  // -------------------------------------------------------------- the offline check

  method CanonicalHash(h: Hash, v: Json) returns (sum: Digest)
    ensures sum == h(Encode(v))
  {
    var bytes := CanonicalJson(v);
    sum := h(bytes);
  }

  method HashProcess(h: Hash, p: Process) returns (hash: string)
    ensures hash == DefinitionHash(h, p)
  {
    var sum := CanonicalHash(h, MarshalProcess(p));
    hash := sum[..32];
  }

  lemma KeyOrder(a: Key, b: Key, c: Key)
    ensures KeyLess(a, b) || a == b || KeyLess(b, a)
    ensures !(KeyLess(a, b) && KeyLess(b, a)) && !KeyLess(a, a)
    ensures KeyLess(a, b) && KeyLess(b, c) ==> KeyLess(a, c)
  {
    Lexical.Trichotomy(a.0, b.0);
    Lexical.Trichotomy(a.1, b.1);
    if KeyLess(a, b) && KeyLess(b, c) {
      if Lexical.Less(a.0, b.0) && Lexical.Less(b.0, c.0) {
        Lexical.Transitive(a.0, b.0, c.0);
      } else if a.0 == b.0 == c.0 {
        Lexical.Transitive(a.1, b.1, c.1);
      }
    }
  }

  lemma Longer(h: Hash, versions: seq<Version>, v: Version)
    requires History(h, versions) && v.definition.Some?
    requires v.definition.value.id != "" && v.definition.value.version != ""
    requires v.hash == DefinitionHash(h, v.definition.value)
    ensures History(h, versions + [v]) <==>
      (versions != [] ==> KeyLess(KeyOf(versions[|versions| - 1].definition.value), KeyOf(v.definition.value)))
  {
    hide KeyLess, DefinitionHash;
    var n, key := |versions|, KeyOf(v.definition.value);
    var all := versions + [v];
    assert forall i | 0 <= i < n :: all[i] == versions[i];
    if n > 0 {
      var last := KeyOf(versions[n - 1].definition.value);
      if KeyLess(last, key) {
        forall i | 0 <= i < n ensures KeyLess(KeyOf(all[i].definition.value), key) {
          KeyOrder(KeyOf(versions[i].definition.value), last, key);
        }
      } else {
        assert all[n - 1] == versions[n - 1] && all[n] == v;
      }
    }
  }

  /** The versions by key. */
  ghost predicate Indexed(known: map<Key, Version>, versions: seq<Version>) {
    forall k: Key, v: Version :: (k in known && known[k] == v) <==>
      (v in versions && v.definition.Some? && KeyOf(v.definition.value) == k)
  }

  lemma IndexedMore(known: map<Key, Version>, versions: seq<Version>, v: Version)
    requires Indexed(known, versions) && v.definition.Some?
    requires forall w <- versions :: w.definition.Some? && KeyOf(w.definition.value) != KeyOf(v.definition.value)
    ensures Indexed(known[KeyOf(v.definition.value) := v], versions + [v])
  {
    assert forall w :: w in versions + [v] <==> w in versions || w == v;
  }

  /** The versions by key, provided they form a history. */
  method VerifyDefinitions(h: Hash, versions: seq<Version>) returns (known: Option<map<Key, Version>>)
    ensures known.Some? <==> History(h, versions)
    ensures known.Some? ==> Indexed(known.value, versions)
  {
    hide History, KeyLess, DefinitionHash;
    NoHistory(h);
    var found: map<Key, Version> := map[];
    for i := 0 to |versions|
      invariant History(h, versions[..i])
      invariant Indexed(found, versions[..i])
    {
      var v := versions[i];
      assert versions[..i + 1] == versions[..i] + [v];
      HistoryHead(h, versions, i);
      if v.definition.None? || v.definition.value.id == "" || v.definition.value.version == "" {
        return None;
      }
      var hash := HashProcess(h, v.definition.value);
      if hash != v.hash {
        return None;
      }
      Longer(h, versions[..i], v);
      if i > 0 && !KeyLess(KeyOf(versions[i - 1].definition.value), KeyOf(v.definition.value)) {
        return None;
      }
      NewKey(h, versions[..i], v);
      IndexedMore(found, versions[..i], v);
      found := found[KeyOf(v.definition.value) := v];
    }
    assert versions[..|versions|] == versions;
    known := Some(found);
  }

  lemma NoHistory(h: Hash)
    ensures History(h, [])
  {
  }

  /** A history makes its version `i` fit and its first versions a history. */
  lemma HistoryHead(h: Hash, versions: seq<Version>, i: nat)
    requires i < |versions|
    ensures History(h, versions) ==> History(h, versions[..i + 1])
    ensures History(h, versions[..i + 1]) ==>
      versions[i].definition.Some? && versions[i].definition.value.id != "" && versions[i].definition.value.version != "" &&
      versions[i].hash == DefinitionHash(h, versions[i].definition.value)
    ensures i > 0 && History(h, versions[..i]) ==> versions[i - 1].definition.Some?
  {
    hide DefinitionHash, KeyLess;
    assert versions[..i + 1][i] == versions[i];
    assert i > 0 ==> versions[..i][i - 1] == versions[i - 1];
  }

  lemma NewKey(h: Hash, versions: seq<Version>, v: Version)
    requires v.definition.Some? && History(h, versions + [v])
    ensures forall w <- versions :: w.definition.Some? && KeyOf(w.definition.value) != KeyOf(v.definition.value)
  {
    hide DefinitionHash, KeyLess;
    var all := versions + [v];
    forall w | w in versions ensures w.definition.Some? && KeyOf(w.definition.value) != KeyOf(v.definition.value) {
      var i :| 0 <= i < |versions| && versions[i] == w;
      assert all[i] == w && all[|versions|] == v;
      KeyOrder(KeyOf(w.definition.value), KeyOf(v.definition.value), KeyOf(v.definition.value));
    }
  }

  lemma LinkedStep(h: Hash, log: seq<Entry>, i: nat)
    requires i < |log|
    ensures Linked(h, log[..i + 1]) <==>
      Linked(h, log[..i]) && log[i].prev == Head(log[..i]) && log[i].hash == h(EntryText(log[i].prev, log[i].fact))
    ensures Head(log[..i + 1]) == log[i].hash
    ensures Linked(h, log) ==> Linked(h, log[..i + 1])
  {
    hide EntryText, Head;
    var long, short := log[..i + 1], log[..i];
    assert long[i] == log[i] && long[..i] == short;
    assert forall k | 0 <= k < i :: long[k] == short[k] && long[..k] == short[..k];
    assert forall k | 0 <= k <= i :: long[k] == log[k] && long[..k] == log[..k];
    LastHash(long);
  }

  lemma RisingStep(log: seq<Entry>, i: nat)
    requires i < |log| && Rising(log[..i])
    ensures Rising(log[..i + 1]) <==> i == 0 || log[i - 1].fact.seqNo < log[i].fact.seqNo
    ensures Rising(log) ==> Rising(log[..i + 1])
  {
    var long, short := log[..i + 1], log[..i];
    assert long[i] == log[i] && forall k | 0 <= k < i :: long[k] == short[k] == log[k];
    if i > 0 {
      assert long[i - 1] == log[i - 1];
    }
  }

  /** The head of a chain, provided it is one. */
  method VerifyChain(h: Hash, log: seq<Entry>) returns (head: Option<string>)
    ensures head.Some? <==> Linked(h, log) && Rising(log)
    ensures head.Some? ==> head.value == Head(log)
  {
    var previous, previousSeq := "", 0;
    for i := 0 to |log|
      invariant previous == Head(log[..i]) && (i > 0 ==> previousSeq == log[i - 1].fact.seqNo)
      invariant Linked(h, log[..i]) && Rising(log[..i])
    {
      hide Linked, Rising, EntryText, Head;
      var entry := log[i];
      LinkedStep(h, log, i);
      RisingStep(log, i);
      if entry.prev != previous {
        return None;
      }
      if i > 0 && entry.fact.seqNo <= previousSeq {
        return None;
      }
      var hash := HashEntry(h, previous, entry.fact);
      if hash != entry.hash {
        return None;
      }
      previous, previousSeq := hash, entry.fact.seqNo;
    }
    assert log[..|log|] == log;
    head := Some(previous);
  }

  method HashEntry(h: Hash, prev: string, f: Fact) returns (hash: Digest)
    ensures hash == h(EntryText(prev, f))
  {
    hash := CanonicalHash(h, EntryPayload(prev, f));
  }

  lemma ActivatesByKey(versions: seq<Version>, known: map<Key, Version>, f: Fact)
    requires Indexed(known, versions)
    ensures Activates(versions, f) <==>
      f.kind == OCC_DEF_ACTIVATED && f.instance == "" && f.execution == "" &&
      (f.defId, f.defVersion) in known && Backs(known[(f.defId, f.defVersion)], f)
  {
    var key := (f.defId, f.defVersion);
    if Activates(versions, f) {
      var v :| v in versions && Backs(v, f);
      assert key in known && known[key] == v;
    }
    if key in known {
      assert known[key] in versions;
    }
  }

  method VerifyActivations(versions: seq<Version>, known: map<Key, Version>, log: seq<Entry>) returns (ok: bool)
    requires Indexed(known, versions)
    ensures ok <==> forall f <- Facts(log) :: Activates(versions, f)
  {
    for i := 0 to |log|
      invariant forall k | 0 <= k < i :: Activates(versions, log[k].fact)
    {
      var f := log[i].fact;
      assert Facts(log)[i] == f;
      ActivatesByKey(versions, known, f);
      if f.kind != OCC_DEF_ACTIVATED || f.instance != "" || f.execution != "" {
        return false;
      }
      var key := (f.defId, f.defVersion);
      if key !in known || f.activation.None? {
        return false;
      }
      var v, state := known[key], f.activation.value;
      if state.defId != key.0 || state.version != key.1 || state.hash != v.hash ||
         state.proposer != v.info.proposer || state.owner != v.info.owner {
        return false;
      }
    }
    ok := true;
  }

  method VerifyExecution(log: seq<Entry>) returns (ok: bool)
    ensures ok <==> Execution(Facts(log))
  {
    if log == [] {
      return false;
    }
    ghost var facts := Facts(log);
    var first, started := log[0].fact, false;
    for i := 0 to |log|
      invariant forall k | 0 <= k < i :: Executes(first, log[k].fact)
      invariant started <==> exists k | 0 <= k < i :: log[k].fact.kind == OCC_STARTED
    {
      var f := log[i].fact;
      assert facts[i] == f && f in facts && facts[0] == first;
      if f.kind == OCC_DEF_ACTIVATED || f.instance == "" || f.defId != "" || f.defVersion != "" || f.activation.Some? {
        return false;
      }
      if i > 0 && (f.instance != first.instance || f.execution != first.execution) {
        return false;
      }
      if f.kind == OCC_STARTED {
        started := true;
      }
    }
    assert forall k | 0 <= k < |log| :: facts[k] == log[k].fact;
    ok := started;
  }

  /** `VerifyEvidence` accepts exactly the valid bundles. Every activation in one names a
      listed version, by the hash of its canonical text and by its metadata. */
  method VerifyEvidence(h: Hash, b: Bundle) returns (ok: bool)
    ensures ok <==> Verified(h, b)
    ensures ok ==> forall i | 0 <= i < |b.definitionLog| :: Attests(h, b.definitions, b.definitionLog[i].fact)
    ensures ok ==> Catalogued(h, b.definitions) && Chained(h, b.definitionLog) && Chained(h, b.executionLog)
  {
    hide History, Linked, Rising, Activates, Execution, RootText, Catalogued, Chained, Attests;
    VerifiedMeaning(h, b);
    if b.format != FORMAT_V1 || b.definitions == [] {
      return false;
    }
    var known := VerifyDefinitions(h, b.definitions);
    if known.None? {
      return false;
    }
    var defHead := VerifyChain(h, b.definitionLog);
    if defHead.None? {
      return false;
    }
    var activated := VerifyActivations(b.definitions, known.value, b.definitionLog);
    if !activated {
      return false;
    }
    var execHead := VerifyChain(h, b.executionLog);
    if execHead.None? {
      return false;
    }
    var executed := VerifyExecution(b.executionLog);
    if !executed {
      return false;
    }
    var root := RootHash(h, b);
    HeadOf(h, b.definitionLog);
    HeadOf(h, b.executionLog);
    ok := !(root != b.root || (defHead.value == "" && b.definitionLog != []) || execHead.value == "");
  }

  lemma HeadOf(h: Hash, log: seq<Entry>)
    requires Linked(h, log)
    ensures Head(log) == "" <==> log == []
    ensures Execution(Facts(log)) ==> log != []
  {
    if log != [] {
      assert |log[|log| - 1].hash| == 64;
    }
  }

  method RootHash(h: Hash, b: Bundle) returns (root: Digest)
    ensures root == h(RootText(b))
  {
    root := CanonicalHash(h, RootPayload(b));
  }

  // -------------------------------------------------------------------- export

  /** The registry's metadata by definition and version. */
  type Registry = map<Key, VersionInfo>

  ghost function Registered(h: Hash, registry: Registry, p: Process): Version
    requires KeyOf(p) in registry
  {
    Version(Some(p), DefinitionHash(h, p), registry[KeyOf(p)])
  }

  predicate Listed(registry: Registry, definitions: seq<Option<Process>>) {
    forall d <- definitions :: d.Some? && KeyOf(d.value) in registry
  }

  predicate Distinct(registry: Registry, definitions: seq<Option<Process>>)
    requires Listed(registry, definitions)
  {
    forall i, j | 0 <= i < j < |definitions| :: KeyOf(definitions[i].value) != KeyOf(definitions[j].value)
  }

  predicate RisingFacts(facts: seq<Fact>) {
    forall i, j | 0 <= i < j < |facts| :: facts[i].seqNo < facts[j].seqNo
  }

  /** What an export asks of its inputs. */
  ghost predicate Presentable(h: Hash, definitions: seq<Option<Process>>, registry: Registry, defLog: seq<Fact>, execLog: seq<Fact>) {
    && definitions != [] && Listed(registry, definitions) && Distinct(registry, definitions)
    && (forall d <- definitions :: d.value.id != "" && d.value.version != "")
    && RisingFacts(defLog) && RisingFacts(execLog) && Execution(execLog)
    && forall f <- defLog ::
         f.kind == OCC_DEF_ACTIVATED && f.instance == "" && f.execution == "" &&
         exists d <- definitions :: Backs(Registered(h, registry, d.value), f)
  }

  predicate Ordered(versions: seq<Version>) {
    && (forall v <- versions :: v.definition.Some?)
    && forall i, j | 0 <= i < j < |versions| ::
         !KeyLess(KeyOf(versions[j].definition.value), KeyOf(versions[i].definition.value))
  }

  function Insert(v: Version, versions: seq<Version>): seq<Version>
    requires v.definition.Some? && forall w <- versions :: w.definition.Some?
  {
    if versions == [] then [v]
    else if KeyLess(KeyOf(v.definition.value), KeyOf(versions[0].definition.value)) then [v] + versions
    else [versions[0]] + Insert(v, versions[1..])
  }

  lemma {:induction false} InsertMembers(v: Version, versions: seq<Version>)
    requires v.definition.Some? && forall w <- versions :: w.definition.Some?
    ensures multiset(Insert(v, versions)) == multiset(versions) + multiset{v}
  {
    if versions != [] {
      assert versions == [versions[0]] + versions[1..];
      InsertMembers(v, versions[1..]);
    }
  }

  lemma OrderedHead(v: Version, versions: seq<Version>)
    requires v.definition.Some? && Ordered(versions)
    requires forall w <- versions :: !KeyLess(KeyOf(w.definition.value), KeyOf(v.definition.value))
    ensures Ordered([v] + versions)
  {
    hide KeyLess;
    assert forall i | 0 <= i < |versions| :: ([v] + versions)[i + 1] == versions[i];
  }

  lemma OrderedTail(versions: seq<Version>)
    requires Ordered(versions) && versions != []
    ensures Ordered(versions[1..]) && versions[0].definition.Some?
    ensures forall w <- versions :: w.definition.Some?
    ensures forall w <- versions[1..] :: !KeyLess(KeyOf(w.definition.value), KeyOf(versions[0].definition.value))
  {
    hide KeyLess;
  }

  lemma {:induction false} InsertOrdered(v: Version, versions: seq<Version>)
    requires v.definition.Some? && Ordered(versions)
    ensures Ordered(Insert(v, versions))
  {
    if versions == [] {
      OrderedHead(v, versions);
    } else {
      hide KeyLess, Ordered;
      var key, rest := KeyOf(v.definition.value), versions[1..];
      var first := KeyOf(versions[0].definition.value);
      OrderedTail(versions);
      InsertMembers(v, rest);
      forall w | w in rest || w == versions[0]
        ensures KeyLess(key, first) ==> !KeyLess(KeyOf(w.definition.value), key)
      {
        KeyOrder(KeyOf(w.definition.value), key, first);
      }
      if KeyLess(key, first) {
        OrderedHead(v, versions);
      } else {
        InsertOrdered(v, rest);
        assert forall w :: w in Insert(v, rest) <==> w in multiset(Insert(v, rest));
        OrderedHead(versions[0], Insert(v, rest));
      }
    }
  }

  predicate Apart(versions: seq<Version>)
    requires forall v <- versions :: v.definition.Some?
  {
    forall i, j | 0 <= i < j < |versions| :: KeyOf(versions[i].definition.value) != KeyOf(versions[j].definition.value)
  }

  lemma ApartHead(v: Version, versions: seq<Version>)
    requires v.definition.Some? && forall w <- versions :: w.definition.Some?
    ensures Apart([v] + versions) <==>
      Apart(versions) && forall w <- versions :: KeyOf(w.definition.value) != KeyOf(v.definition.value)
  {
    var all := [v] + versions;
    assert forall i | 0 <= i < |versions| :: all[i + 1] == versions[i];
    if Apart(all) {
      forall i | 0 <= i < |versions| ensures KeyOf(versions[i].definition.value) != KeyOf(v.definition.value) {
        assert KeyOf(all[0].definition.value) != KeyOf(all[i + 1].definition.value);
      }
      forall i, j | 0 <= i < j < |versions|
        ensures KeyOf(versions[i].definition.value) != KeyOf(versions[j].definition.value)
      {
        assert KeyOf(all[i + 1].definition.value) != KeyOf(all[j + 1].definition.value);
      }
    }
  }

  lemma {:induction false} InsertApart(v: Version, versions: seq<Version>)
    requires v.definition.Some? && forall w <- versions :: w.definition.Some?
    ensures forall w <- Insert(v, versions) :: w.definition.Some?
    ensures Apart(Insert(v, versions)) <==> Apart([v] + versions)
  {
    hide Apart, KeyLess;
    if versions != [] {
      var rest := versions[1..];
      assert versions == [versions[0]] + rest;
      InsertMembers(v, rest);
      assert forall w :: w in Insert(v, rest) <==> w in multiset(Insert(v, rest));
      assert forall w :: w in Insert(v, rest) <==> w == v || w in rest;
      InsertApart(v, rest);
      ApartHead(v, versions);
      ApartHead(v, rest);
      ApartHead(versions[0], rest);
      ApartHead(versions[0], Insert(v, rest));
    } else {
      assert [v] + versions == [v];
    }
  }

  lemma EmptyChain(h: Hash)
    ensures Linked(h, []) && Head([]) == "" && Facts([]) == []
  {
  }

  lemma ChainGrows(h: Hash, chain: seq<Entry>, e: Entry)
    requires Linked(h, chain) && e.prev == Head(chain) && e.hash == h(EntryText(e.prev, e.fact))
    ensures Linked(h, chain + [e]) && Head(chain + [e]) == e.hash && Facts(chain + [e]) == Facts(chain) + [e.fact]
  {
    hide EntryText;
    assert (chain + [e])[..|chain|] == chain && (chain + [e])[..|chain| + 1] == chain + [e];
    LinkedStep(h, chain + [e], |chain|);
  }

  /** The chain of a log. */
  method ExportChain(h: Hash, facts: seq<Fact>) returns (chain: seq<Entry>)
    ensures Linked(h, chain) && Facts(chain) == facts
  {
    hide EntryText, Linked, Head, Facts;
    chain := [];
    var previous := "";
    EmptyChain(h);
    for i := 0 to |facts|
      invariant Linked(h, chain) && previous == Head(chain) && Facts(chain) == facts[..i]
    {
      var hash := HashEntry(h, previous, facts[i]);
      ChainGrows(h, chain, Entry(facts[i], previous, hash));
      chain := chain + [Entry(facts[i], previous, hash)];
      previous := hash;
    }
  }

  /** The registered versions of the definitions, in key order. */
  method ExportHistory(h: Hash, definitions: seq<Option<Process>>, registry: Registry) returns (history: Option<seq<Version>>)
    ensures history.Some? <==> Listed(registry, definitions)
    ensures history.Some? ==>
      && Ordered(history.value) && (Apart(history.value) <==> Distinct(registry, definitions))
      && |history.value| == |definitions|
      && forall v :: v in history.value <==> exists d <- definitions :: v == Registered(h, registry, d.value)
  {
    hide DefinitionHash, KeyLess;
    var versions: seq<Version> := [];
    for i := 0 to |definitions|
      invariant Listed(registry, definitions[..i]) && Ordered(versions) && |versions| == i
      invariant Apart(versions) <==> Distinct(registry, definitions[..i])
      invariant forall v :: v in versions <==> exists d <- definitions[..i] :: v == Registered(h, registry, d.value)
    {
      var d := definitions[i];
      assert definitions[..i + 1] == definitions[..i] + [d];
      if d.None? || KeyOf(d.value) !in registry {
        assert d in definitions;
        return None;
      }
      var hash := HashProcess(h, d.value);
      var v := Version(d, hash, registry[KeyOf(d.value)]);
      Collected(h, registry, definitions[..i], d, versions);
      versions := Insert(v, versions);
    }
    assert definitions[..|definitions|] == definitions;
    history := Some(versions);
  }

  lemma Collected(h: Hash, registry: Registry, definitions: seq<Option<Process>>, d: Option<Process>, versions: seq<Version>)
    requires Listed(registry, definitions) && d.Some? && KeyOf(d.value) in registry && Ordered(versions)
    requires Apart(versions) <==> Distinct(registry, definitions)
    requires forall v :: v in versions <==> exists e <- definitions :: v == Registered(h, registry, e.value)
    ensures Listed(registry, definitions + [d])
    ensures var all := Insert(Registered(h, registry, d.value), versions);
      && Ordered(all) && |all| == |versions| + 1
      && (Apart(all) <==> Distinct(registry, definitions + [d]))
      && forall v :: v in all <==> exists e <- definitions + [d] :: v == Registered(h, registry, e.value)
  {
    hide DefinitionHash, KeyLess, Apart, Ordered, Distinct;
    var w := Registered(h, registry, d.value);
    var all := Insert(w, versions);
    AllDefined(versions);
    InsertOrdered(w, versions);
    InsertApart(w, versions);
    InsertMembers(w, versions);
    ApartHead(w, versions);
    assert |multiset(all)| == |multiset(versions)| + 1;
    assert forall v :: v in all <==> v in multiset(all);
    assert forall v :: v in all <==> v == w || v in versions;
    DistinctLast(h, registry, definitions, d, versions);
    assert forall e :: e in definitions + [d] <==> e in definitions || e == d;
  }

  lemma AllDefined(versions: seq<Version>)
    requires Ordered(versions)
    ensures forall v <- versions :: v.definition.Some?
  {
  }

  lemma DistinctLast(h: Hash, registry: Registry, definitions: seq<Option<Process>>, d: Option<Process>, versions: seq<Version>)
    requires Listed(registry, definitions) && d.Some? && KeyOf(d.value) in registry && Listed(registry, definitions + [d])
    requires forall v :: v in versions <==> exists e <- definitions :: v == Registered(h, registry, e.value)
    requires forall v <- versions :: v.definition.Some?
    ensures Distinct(registry, definitions + [d]) <==>
      Distinct(registry, definitions) && forall w <- versions :: KeyOf(w.definition.value) != KeyOf(d.value)
  {
    hide DefinitionHash;
    var all := definitions + [d];
    assert forall i | 0 <= i < |definitions| :: all[i] == definitions[i];
    if Distinct(registry, all) {
      forall w | w in versions ensures KeyOf(w.definition.value) != KeyOf(d.value) {
        var e :| e in definitions && w == Registered(h, registry, e.value);
        var i :| 0 <= i < |definitions| && definitions[i] == e;
        assert KeyOf(all[i].value) != KeyOf(all[|definitions|].value);
      }
    }
    if forall w <- versions :: KeyOf(w.definition.value) != KeyOf(d.value) {
      forall i | 0 <= i < |definitions| ensures KeyOf(definitions[i].value) != KeyOf(d.value) {
        assert definitions[i] in definitions;
        assert Registered(h, registry, definitions[i].value) in versions;
      }
    }
  }

  /** The root hash does not cover itself. */
  lemma RootlessText(b: Bundle, root: string)
    ensures RootText(b.(root := root)) == RootText(b)
  {
    hide MarshalVersion, Encode;
    assert RootPayload(b.(root := root)).fields["definitions"].elems == RootPayload(b).fields["definitions"].elems;
  }

  lemma Refused(h: Hash, definitions: seq<Option<Process>>, registry: Registry, defLog: seq<Fact>, execLog: seq<Fact>)
    ensures Presentable(h, definitions, registry, defLog, execLog) ==> definitions != [] && Listed(registry, definitions)
  {
  }

  lemma ExportVerifies(h: Hash, definitions: seq<Option<Process>>, registry: Registry, defLog: seq<Fact>, execLog: seq<Fact>, b: Bundle)
    requires definitions != [] && Listed(registry, definitions)
    requires b.format == FORMAT_V1 && Linked(h, b.definitionLog) && Linked(h, b.executionLog) && b.root == h(RootText(b))
    requires Facts(b.definitionLog) == defLog && Facts(b.executionLog) == execLog
    requires Ordered(b.definitions) && |b.definitions| == |definitions|
    requires Apart(b.definitions) <==> Distinct(registry, definitions)
    requires forall v :: v in b.definitions <==> exists d <- definitions :: v == Registered(h, registry, d.value)
    ensures Verified(h, b) <==> Presentable(h, definitions, registry, defLog, execLog)
  {
    hide DefinitionHash, KeyLess, Linked, RootText, Execution, Apart, Ordered, Distinct, History, Backs;
    ExportedHistory(h, definitions, registry, b.definitions);
    FactsRising(b.definitionLog);
    FactsRising(b.executionLog);
    forall f | f in defLog
      ensures (exists v <- b.definitions :: Backs(v, f)) <==> exists d <- definitions :: Backs(Registered(h, registry, d.value), f)
    {
      forall v | v in b.definitions && Backs(v, f) ensures exists d <- definitions :: Backs(Registered(h, registry, d.value), f) {
        var d :| d in definitions && v == Registered(h, registry, d.value);
        assert Backs(Registered(h, registry, d.value), f);
      }
      forall d | d in definitions && Backs(Registered(h, registry, d.value), f) ensures exists v <- b.definitions :: Backs(v, f) {
        assert Registered(h, registry, d.value) in b.definitions;
      }
    }
  }

  lemma FactsRising(log: seq<Entry>)
    ensures Rising(log) <==> RisingFacts(Facts(log))
  {
    var facts := Facts(log);
    assert forall i | 0 <= i < |log| :: facts[i] == log[i].fact;
  }

  lemma ExportedHistory(h: Hash, definitions: seq<Option<Process>>, registry: Registry, versions: seq<Version>)
    requires Listed(registry, definitions) && Ordered(versions) && (Apart(versions) <==> Distinct(registry, definitions))
    requires forall v :: v in versions <==> exists d <- definitions :: v == Registered(h, registry, d.value)
    ensures History(h, versions) <==>
      Distinct(registry, definitions) && forall d <- definitions :: d.value.id != "" && d.value.version != ""
  {
    hide DefinitionHash, KeyLess, Distinct;
    forall i, j | 0 <= i < j < |versions|
      ensures var a, b := KeyOf(versions[i].definition.value), KeyOf(versions[j].definition.value);
        KeyLess(a, b) <==> a != b
    {
      KeyOrder(KeyOf(versions[i].definition.value), KeyOf(versions[j].definition.value), KeyOf(versions[i].definition.value));
    }
    forall d | d in definitions ensures Registered(h, registry, d.value) in versions {
    }
    forall v | v in versions
      ensures v.hash == DefinitionHash(h, v.definition.value) && v.definition in definitions
    {
      var d :| d in definitions && v == Registered(h, registry, d.value);
    }
    assert forall d <- definitions :: Registered(h, registry, d.value).definition == d;
  }

  /** `ExportEvidence` succeeds exactly on presentable inputs and then hands out a valid bundle
      that holds them: every version once and both logs in order. */
  method ExportEvidence(h: Hash, definitions: seq<Option<Process>>, registry: Registry, defLog: seq<Fact>, execLog: seq<Fact>)
    returns (r: Option<Bundle>)
    ensures r.Some? <==> Presentable(h, definitions, registry, defLog, execLog)
    ensures r.Some? ==>
      && Verified(h, r.value) && Facts(r.value.definitionLog) == defLog && Facts(r.value.executionLog) == execLog
      && (forall f <- defLog :: Attests(h, r.value.definitions, f))
      && forall v :: v in r.value.definitions <==> exists d <- definitions :: v == Registered(h, registry, d.value)
  {
    hide DefinitionHash, KeyLess, Linked, RootText, Execution, Apart, Ordered, Verified, Presentable, Attests, Catalogued, Chained;
    Refused(h, definitions, registry, defLog, execLog);
    if definitions == [] {
      return None;
    }
    var history := ExportHistory(h, definitions, registry);
    if history.None? {
      return None;
    }
    var defChain := ExportChain(h, defLog);
    var execChain := ExportChain(h, execLog);
    var b := Bundle(FORMAT_V1, history.value, defChain, execChain, "");
    var root := RootHash(h, b);
    RootlessText(b, root);
    b := b.(root := root);
    var ok := VerifyEvidence(h, b);
    ExportVerifies(h, definitions, registry, defLog, execLog, b);
    r := if ok then Some(b) else None;
  }

  // ----------------------------------------------------------------- repeatability

  /** A chain is determined by its facts. */
  lemma ChainDetermined(h: Hash, a: seq<Entry>, b: seq<Entry>)
    requires Linked(h, a) && Linked(h, b) && Facts(a) == Facts(b)
    ensures a == b
  {
    hide Linked;
    assert |Facts(a)| == |Facts(b)|;
    forall i | 0 <= i < |a| ensures a[i] == b[i] {
      SameEntry(h, a, b, i);
    }
  }

  lemma {:induction false} SameEntry(h: Hash, a: seq<Entry>, b: seq<Entry>, i: nat)
    requires Linked(h, a) && Linked(h, b) && Facts(a) == Facts(b) && i < |a| && i < |b|
    ensures a[i] == b[i]
    decreases i
  {
    hide Linked, Facts, EntryText;
    EntryAt(h, a, i);
    EntryAt(h, b, i);
    if i > 0 {
      SameEntry(h, a, b, i - 1);
    }
  }

  lemma EntryAt(h: Hash, log: seq<Entry>, i: nat)
    requires Linked(h, log) && i < |log|
    ensures i < |Facts(log)|
    ensures var prev := if i == 0 then "" else log[i - 1].hash;
      log[i] == Entry(Facts(log)[i], prev, h(EntryText(prev, Facts(log)[i])))
  {
    hide EntryText;
  }

  lemma {:induction false} HistoryUnique(h: Hash, a: seq<Version>, b: seq<Version>)
    requires History(h, a) && History(h, b) && forall v :: v in a <==> v in b
    ensures a == b
    decreases |a|
  {
    hide DefinitionHash, KeyLess;
    FirstIn(a);
    FirstIn(b);
    if a != [] && b != [] {
      assert a[0] in b && b[0] in a;
      var i :| 0 <= i < |a| && a[i] == b[0];
      var j :| 0 <= j < |b| && b[j] == a[0];
      KeyOrder(KeyOf(a[0].definition.value), KeyOf(b[0].definition.value), KeyOf(a[0].definition.value));
      assert a == [a[0]] + a[1..] && b == [b[0]] + b[1..];
      HeadOnce(h, a);
      HeadOnce(h, b);
      assert a[0] == b[0];
      assert forall v :: v in a[1..] <==> v in a && v != a[0];
      assert forall v :: v in b[1..] <==> v in b && v != b[0];
      HistoryUnique(h, a[1..], b[1..]);
    }
  }

  lemma FirstIn(a: seq<Version>)
    ensures a != [] ==> a[0] in a
  {
  }

  lemma HeadOnce(h: Hash, a: seq<Version>)
    requires a != [] && History(h, a)
    ensures History(h, a[1..]) && a[0] !in a[1..]
  {
    hide DefinitionHash, KeyLess;
    var key := KeyOf(a[0].definition.value);
    KeyOrder(key, key, key);
    forall i | 0 < i < |a| ensures a[i] != a[0] {
    }
  }

  /** A valid bundle is determined by its versions and its two logs, so exporting the same
      contents again, with the definitions in any order, gives the same root. */
  lemma Repeatable(h: Hash, a: Bundle, b: Bundle)
    requires Verified(h, a) && Verified(h, b)
    requires Facts(a.definitionLog) == Facts(b.definitionLog) && Facts(a.executionLog) == Facts(b.executionLog)
    requires forall v :: v in a.definitions <==> v in b.definitions
    ensures a == b
  {
    hide History, Linked, Facts, RootText, Activates, Execution, Rising;
    HistoryUnique(h, a.definitions, b.definitions);
    ChainDetermined(h, a.definitionLog, b.definitionLog);
    ChainDetermined(h, a.executionLog, b.executionLog);
    RootlessText(a, b.root);
    assert a.(root := b.root) == b;
  }
}
