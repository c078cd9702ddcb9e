/** Which config dicts normalise to nothing: the case that makes a payload need a second pass. */
module ConfigVanishing {
  import opened Json
  import opened ConfigCodec
  import opened ConfigRoundTrip

  /** A message read from a dict shows nothing exactly when, empty ids apart, it is the default one. */
  lemma ShowsNothing(q: Config, host: Host)
    requires Faithful(host) && Image(q, host)
    ensures ToDict(q) == map[] <==> Trimmed(q) == DEFAULT
  {
    var t := Trimmed(q);
    TrimmedSameDict(q);
    forall k | k in t.extraConfigurable ensures KeepsExtra(t, k, t.extraConfigurable[k], host) {
      assert KeepsExtra(q, k, q.extraConfigurable[k], host);
    }
    EmptyDict(t, host);
  }

  /** Absent, null, or printed as the empty string. */
  predicate Blank(j: Json, host: Host) {
    j == JNull || host.sprint(j) == ""
  }

  /** A configurable object none of whose entries is kept. */
  predicate DropsAllConfigurable(c: Object, host: Host) {
    && (forall k | k in c && k !in SPECIAL && k !in RESTRICTED :: c[k] == JNull)
    && !Field(c, "__pregel_resuming").JBool?
    && Field(c, "__pregel_task_id") == JNull && Field(c, "thread_id") == JNull && Field(c, "checkpoint_ns") == JNull
    && Fields(Field(c, "checkpoint_map")) == map[]
    && Blank(Field(c, "checkpoint_id"), host)
    && DurabilityOf(Field(c, "__pregel_durability")) == None
    && (forall m | m in Items(Field(c, "__pregel_root_stream_modes")) :: IndexIn(MODES, host.sprint(m)) == None)
    && Blank(Field(c, "__langsmith_project__"), host) && Blank(Field(c, "__langsmith_example_id__"), host)
  }

  /** A config dict each of whose entries is dropped by its own rule. */
  predicate DropsAll(d: Object, host: Host) {
    var meta := Fields(Field(d, "metadata"));
    && d.Keys <= KNOWN
    && Items(Field(d, "tags")) == []
    && (Field(d, "run_name").JStr? ==> Field(d, "run_name").s == "")
    && NonZero(ToInt32(Field(d, "max_concurrency"), host)) == None
    && NonZero(ToInt32(Field(d, "recursion_limit"), host)) == None
    && Blank(Field(d, "run_id"), host)
    && meta.Keys <= {"run_attempt"} && !Field(meta, "run_attempt").JNum?
    && DropsAllConfigurable(Fields(Field(d, "configurable")), host)
  }

  lemma {:induction false} NoModes(js: seq<Json>, host: Host)
    ensures ModeNumbers(js, host) == [] <==> forall m | m in js :: IndexIn(MODES, host.sprint(m)) == None
    decreases |js|
  {
    if js != [] {
      NoModes(js[1..], host);
      assert forall m :: m in js <==> m == js[0] || m in js[1..];
    }
  }

  /** The fields of a message that do not come from configurable or metadata are unset. */
  predicate NoTop(q: Config) {
    q.tags == [] && q.runName == None && q.maxConcurrency == None && q.recursionLimit == None && q.extra == map[]
  }

  predicate NoMetadata(q: Config) {
    q.metadata == map[] && q.runAttempt == None && q.serverRunId == None
  }

  predicate NoConfigurable(q: Config) {
    && q.extraConfigurable == map[] && q.resuming == None && q.taskId == None && q.threadId == None && q.checkpointMap == map[]
    && NonEmpty(q.checkpointId) == None && q.checkpointNs == None && q.durability == None && q.modes == []
    && NonEmpty(q.project) == None && NonEmpty(q.exampleId) == None
  }

  lemma TrimmedIsDefault(q: Config)
    requires q.runtime == None && q.resumeMap == map[] && q.graphId == None
    ensures Trimmed(q) == DEFAULT <==> NoTop(q) && NoMetadata(q) && NoConfigurable(q) && q.runId == None
  {
  }

  lemma TopDropped(d: Object, host: Host)
    ensures NoTop(FromDict(d, host)) <==>
            && d.Keys <= KNOWN && Items(Field(d, "tags")) == []
            && (Field(d, "run_name").JStr? ==> Field(d, "run_name").s == "")
            && NonZero(ToInt32(Field(d, "max_concurrency"), host)) == None
            && NonZero(ToInt32(Field(d, "recursion_limit"), host)) == None
  {
    var q := FromDict(d, host);
    if q.extra == map[] {
      assert forall k | k in d && k !in KNOWN :: k in q.extra;
    }
  }

  lemma ConfigurableDropped(d: Object, host: Host)
    ensures NoConfigurable(FromDict(d, host)) <==> DropsAllConfigurable(Fields(Field(d, "configurable")), host)
  {
    var q, c := FromDict(d, host), Fields(Field(d, "configurable"));
    NoModes(Items(Field(c, "__pregel_root_stream_modes")), host);
    OthersDropped(c);
    if q.checkpointMap == map[] {
      assert forall k | k in Fields(Field(c, "checkpoint_map")) :: k in q.checkpointMap;
    }
  }

  /** A dict is read as nothing but blanks exactly when every entry is dropped by its own rule. */
  lemma ReadsAsNothing(d: Object, host: Host)
    ensures Trimmed(FromDict(d, host)) == DEFAULT <==> DropsAll(d, host)
  {
    TrimmedIsDefault(FromDict(d, host));
    TopDropped(d, host);
    MetadataDropped(Fields(Field(d, "metadata")), host);
    ConfigurableDropped(d, host);
    RunIdDropped(d, host);
    NoRunId(Fields(Field(d, "configurable")), host);
  }

  /** A configurable object that drops everything has no run id either. */
  lemma NoRunId(c: Object, host: Host)
    ensures DropsAllConfigurable(c, host) ==> Field(c, "run_id") == JNull
  {
    SpecialKeys();
  }

  lemma MetadataDropped(meta: Object, host: Host)
    ensures ((map k | k in meta && k !in METADATA_KEYS :: Doc(meta[k])) == map[]
             && ToInt32(Field(meta, "run_attempt"), host) == None && "run_id" !in meta)
            <==> (meta.Keys <= {"run_attempt"} && !Field(meta, "run_attempt").JNum?)
  {
    var kept := map k | k in meta && k !in METADATA_KEYS :: Doc(meta[k]);
    if kept == map[] {
      assert forall k | k in meta && k !in METADATA_KEYS :: k in kept;
    }
  }

  lemma OthersDropped(c: Object)
    ensures OtherConfigurable(c) == map[] <==> forall k | k in c && k !in SPECIAL && k !in RESTRICTED :: c[k] == JNull
  {
    if OtherConfigurable(c) == map[] {
      assert forall k | k in c && k !in SPECIAL && k !in RESTRICTED && c[k] != JNull :: k in OtherConfigurable(c);
    }
  }

  lemma RunIdDropped(d: Object, host: Host)
    ensures var c := Fields(Field(d, "configurable"));
            RunIdOf(d, host) == None <==> Blank(Field(d, "run_id"), host) && Blank(Field(c, "run_id"), host)
  {
  }

  /** A config dict normalises to nothing exactly when every entry is dropped by its own rule. */
  lemma VanishesExactly(d: Object, host: Host)
    requires Faithful(host)
    ensures Normal(d, host) == map[] <==> d == map[] || DropsAll(d, host)
  {
    if d != map[] {
      FromDictImage(d, host);
      ShowsNothing(FromDict(d, host), host);
      ReadsAsNothing(d, host);
    }
  }
}
