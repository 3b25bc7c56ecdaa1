/**
 What evidence is made of and how it is marshalled (dsl/journal.go:82-142,
 dsl/activation.go:45-54, dsl/registry.go:23-33): occurrences, versions and activations as
 JSON objects, from which they can be read back.
 */
module Marshal {
  import opened Canonical
  import opened Definition
  import Lexical

  // -------------------------------------------------------------------- contents

  /** `ActivationState`: the members that are checked, and the others as they are marshalled. */
  datatype Activation = Activation(
    defId: string, version: string, hash: string, proposer: string, owner: string, other: map<string, Json>)

  /** A journalled occurrence as evidence carries it. */
  datatype Fact = Fact(
    seqNo: int, kind: int, instance: string, execution: string, defId: string, defVersion: string,
    activation: Option<Activation>, other: map<string, Json>)

  datatype VersionInfo = VersionInfo(proposer: string, owner: string, other: map<string, Json>)

  datatype Process = Process(id: string, version: string, other: map<string, Json>)

  datatype Version = Version(definition: Option<Process>, hash: string, info: VersionInfo)

  const ACTIVATION_KEYS := {"defId", "version", "hash", "proposer", "owner"}
  const FACT_KEYS := {"seq", "kind", "instanceId", "executionId", "defId", "defVersion", "activation"}
  const INFO_KEYS := {"proposer", "owner"}
  const PROCESS_KEYS := {"ID", "Version"}

  /** The other members are JSON values under names of their own. */
  predicate Others(m: map<string, Json>, keys: set<string>) {
    m.Keys !! keys && Proper(JObject(m))
  }

  predicate ProperFact(f: Fact) {
    && Others(f.other, FACT_KEYS)
    && (f.activation.Some? ==> Others(f.activation.value.other, ACTIVATION_KEYS))
  }

  predicate ProperVersion(v: Version) {
    && Others(v.info.other, INFO_KEYS)
    && (v.definition.Some? ==> Others(v.definition.value.other, PROCESS_KEYS))
  }

  // ------------------------------------------------------------------ marshalling

  function Decimal(n: int): (s: string)
    ensures NumberToken(s) && (s[0] == '-' <==> n < 0)
  {
    if n < 0 then "-" + Lexical.Digits(-n) else Lexical.Digits(n)
  }

  type Members = map<string, Json>

  /** A member that is left out when it is absent. */
  function Put(m: Members, key: string, value: Option<Json>): (r: Members)
    ensures r.Keys <= m.Keys + {key}
  {
    if value.Some? then m[key := value.value] else m
  }

  /** A text with `omitempty`: the empty text is left out. */
  function Text(text: string): Option<Json> {
    if text == "" then None else Some(JString(text))
  }

  function MarshalActivation(a: Activation): Json {
    JObject(Put(Put(Put(Put(Put(a.other,
      "defId", Some(JString(a.defId))),
      "version", Some(JString(a.version))),
      "hash", Some(JString(a.hash))),
      "proposer", Text(a.proposer)),
      "owner", Text(a.owner)))
  }

  function Identified(f: Fact): Members {
    Put(Put(Put(Put(f.other,
      "seq", Some(JNumber(Decimal(f.seqNo)))),
      "kind", Some(JNumber(Decimal(f.kind)))),
      "instanceId", Text(f.instance)),
      "executionId", Text(f.execution))
  }

  function MarshalFact(f: Fact): Json {
    JObject(Put(Put(Put(Identified(f),
      "defId", Text(f.defId)),
      "defVersion", Text(f.defVersion)),
      "activation", if f.activation.Some? then Some(MarshalActivation(f.activation.value)) else None))
  }

  function MarshalInfo(i: VersionInfo): Json {
    JObject(Put(Put(i.other, "proposer", Text(i.proposer)), "owner", Text(i.owner)))
  }

  function MarshalProcess(p: Process): Json {
    JObject(Put(Put(p.other, "ID", Some(JString(p.id))), "Version", Some(JString(p.version))))
  }

  function MarshalVersion(v: Version): Json {
    JObject(map[
      "definition" := if v.definition.Some? then MarshalProcess(v.definition.value) else JNull,
      "hash" := JString(v.hash),
      "info" := MarshalInfo(v.info)])
  }

  // --------------------------------------------------------------------- reading

  /** The text under a name, empty where there is none. */
  function TextAt(m: Members, key: string): string {
    if key in m && m[key].JString? then m[key].text else ""
  }

  /** The number under a name, zero where there is none. */
  function NumberAt(m: Members, key: string): int {
    if key in m && m[key].JNumber? then ReadDecimal(m[key].token) else 0
  }

  function ReadDecimal(token: string): int {
    if token != "" && token[0] == '-' then 0 - Lexical.Number(token[1..]) else Lexical.Number(token)
  }

  function MembersAt(m: Members, key: string): Members {
    if key in m && m[key].JObject? then m[key].fields else map[]
  }

  function UnmarshalActivation(m: Members): Activation {
    Activation(TextAt(m, "defId"), TextAt(m, "version"), TextAt(m, "hash"), TextAt(m, "proposer"), TextAt(m, "owner"),
      m - ACTIVATION_KEYS)
  }

  function UnmarshalFact(m: Members): Fact {
    Fact(NumberAt(m, "seq"), NumberAt(m, "kind"), TextAt(m, "instanceId"), TextAt(m, "executionId"),
      TextAt(m, "defId"), TextAt(m, "defVersion"),
      if "activation" in m then Some(UnmarshalActivation(MembersAt(m, "activation"))) else None, m - FACT_KEYS)
  }

  function UnmarshalVersion(m: Members): Version {
    var d, i := MembersAt(m, "definition"), MembersAt(m, "info");
    Version(
      if "definition" in m && m["definition"].JObject? then
        Some(Process(TextAt(d, "ID"), TextAt(d, "Version"), d - PROCESS_KEYS))
      else None,
      TextAt(m, "hash"), VersionInfo(TextAt(i, "proposer"), TextAt(i, "owner"), i - INFO_KEYS))
  }

  lemma DecimalReads(n: int)
    ensures ReadDecimal(Decimal(n)) == n
  {
    Lexical.NumberReads(if n < 0 then -n else n);
  }

  lemma ActivationReads(a: Activation)
    requires Others(a.other, ACTIVATION_KEYS)
    ensures MarshalActivation(a).JObject? && UnmarshalActivation(MarshalActivation(a).fields) == a
  {
    var m := MarshalActivation(a).fields;
    assert a.other.Keys !! ACTIVATION_KEYS;
    assert m - ACTIVATION_KEYS == a.other;
  }

  lemma IdentifiedReads(f: Fact)
    requires ProperFact(f)
    ensures
      var m := Identified(f);
      && NumberAt(m, "seq") == f.seqNo && NumberAt(m, "kind") == f.kind
      && TextAt(m, "instanceId") == f.instance && TextAt(m, "executionId") == f.execution
      && m - FACT_KEYS == f.other && m.Keys !! {"defId", "defVersion", "activation"}
  {
    DecimalReads(f.seqNo);
    DecimalReads(f.kind);
    assert f.other.Keys !! FACT_KEYS;
    assert Identified(f) - FACT_KEYS == f.other;
  }

  /** Adding a member changes no other one. */
  lemma PutReads(m: Members, key: string, value: Option<Json>)
    requires key !in m
    ensures
      var r := Put(m, key, value);
      && (key in r <==> value.Some?) && (value.Some? ==> r[key] == value.value)
      && r - {key} == m && forall k | k != key :: (k in r <==> k in m) && (k in m ==> r[k] == m[k])
  {
  }

  lemma FactReads(f: Fact)
    requires ProperFact(f)
    ensures UnmarshalFact(MarshalFact(f).fields) == f
  {
    hide Put, Others, Identified, MarshalActivation, UnmarshalActivation;
    IdentifiedReads(f);
    var m0, activation := Identified(f), if f.activation.Some? then Some(MarshalActivation(f.activation.value)) else None;
    var m1 := Put(m0, "defId", Text(f.defId));
    var m2 := Put(m1, "defVersion", Text(f.defVersion));
    var m := Put(m2, "activation", activation);
    PutReads(m0, "defId", Text(f.defId));
    PutReads(m1, "defVersion", Text(f.defVersion));
    PutReads(m2, "activation", activation);
    assert m - FACT_KEYS == m0 - FACT_KEYS;
    if f.activation.Some? {
      ActivationReads(f.activation.value);
    }
  }

  lemma VersionReads(v: Version)
    requires ProperVersion(v)
    ensures UnmarshalVersion(MarshalVersion(v).fields) == v
  {
    assert MarshalInfo(v.info).fields - INFO_KEYS == v.info.other;
    if v.definition.Some? {
      assert MarshalProcess(v.definition.value).fields - PROCESS_KEYS == v.definition.value.other;
    }
  }

  // ------------------------------------------------------- what is marshalled is JSON

  lemma PutProper(m: Members, key: string, value: Option<Json>)
    requires Proper(JObject(m)) && (value.Some? ==> Proper(value.value))
    ensures Proper(JObject(Put(m, key, value)))
  {
  }

  lemma OthersProper(m: Members, keys: set<string>)
    requires Others(m, keys)
    ensures Proper(JObject(m))
  {
  }

  lemma ActivationProper(a: Activation)
    requires Others(a.other, ACTIVATION_KEYS)
    ensures Proper(MarshalActivation(a))
  {
    hide Put, Others;
    OthersProper(a.other, ACTIVATION_KEYS);
    var a1 := Put(a.other, "defId", Some(JString(a.defId)));
    var a2 := Put(a1, "version", Some(JString(a.version)));
    var a3 := Put(a2, "hash", Some(JString(a.hash)));
    var a4 := Put(a3, "proposer", Text(a.proposer));
    PutProper(a.other, "defId", Some(JString(a.defId)));
    PutProper(a1, "version", Some(JString(a.version)));
    PutProper(a2, "hash", Some(JString(a.hash)));
    PutProper(a3, "proposer", Text(a.proposer));
    PutProper(a4, "owner", Text(a.owner));
  }

  lemma IdentifiedProper(f: Fact)
    requires ProperFact(f)
    ensures Proper(JObject(Identified(f)))
  {
    hide Put, Others;
    OthersProper(f.other, FACT_KEYS);
    var seqNo, kind := Some(JNumber(Decimal(f.seqNo))), Some(JNumber(Decimal(f.kind)));
    var f1 := Put(f.other, "seq", seqNo);
    var f2 := Put(f1, "kind", kind);
    var f3 := Put(f2, "instanceId", Text(f.instance));
    PutProper(f.other, "seq", seqNo);
    PutProper(f1, "kind", kind);
    PutProper(f2, "instanceId", Text(f.instance));
    PutProper(f3, "executionId", Text(f.execution));
  }

  lemma FactProper(f: Fact)
    requires ProperFact(f)
    ensures Proper(MarshalFact(f))
  {
    hide Put, Others, Identified, MarshalActivation;
    IdentifiedProper(f);
    var activation := if f.activation.Some? then Some(MarshalActivation(f.activation.value)) else None;
    if f.activation.Some? {
      ActivationProper(f.activation.value);
    }
    var f1 := Put(Identified(f), "defId", Text(f.defId));
    var f2 := Put(f1, "defVersion", Text(f.defVersion));
    PutProper(Identified(f), "defId", Text(f.defId));
    PutProper(f1, "defVersion", Text(f.defVersion));
    PutProper(f2, "activation", activation);
  }

  lemma VersionProper(v: Version)
    requires ProperVersion(v)
    ensures Proper(MarshalVersion(v))
  {
    hide Put, Others;
    var i := v.info;
    OthersProper(i.other, INFO_KEYS);
    PutProper(i.other, "proposer", Text(i.proposer));
    PutProper(Put(i.other, "proposer", Text(i.proposer)), "owner", Text(i.owner));
    if v.definition.Some? {
      var p := v.definition.value;
      OthersProper(p.other, PROCESS_KEYS);
      PutProper(p.other, "ID", Some(JString(p.id)));
      PutProper(Put(p.other, "ID", Some(JString(p.id))), "Version", Some(JString(p.version)));
    }
  }
}
