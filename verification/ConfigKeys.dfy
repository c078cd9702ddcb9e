/** The names the codecs use, and which writer of a name wins: said key by key. */
module ConfigKeys {
  import opened Json
  import opened ConfigCodec
  import opened ConfigRoundTrip
  import opened PayloadCodec

  // -------------------------------------------------------------- dict to message

  /** Which entries of a dict become extras, at the top, under metadata, and under configurable. */
  lemma KeptEntries(d: Object, k: string, host: Host)
    ensures var q, meta, c := FromDict(d, host), Fields(Field(d, "metadata")), Fields(Field(d, "configurable"));
            && (k in q.extra <==> k in d && k !in {"metadata", "run_name", "run_id", "max_concurrency", "recursion_limit", "tags",
                                                   "configurable", "callbacks"})
            && (k in q.extra ==> q.extra[k] == Doc(d[k]))
            && (k in q.metadata <==> k in meta && k !in {"run_attempt", "run_id"})
            && (k in q.metadata ==> q.metadata[k] == Doc(meta[k]))
            && (k in q.extraConfigurable ==> k in c && q.extraConfigurable[k] == Doc(c[k]))
  {
  }

  lemma KeptConfigurable(c: Object, k: string)
    ensures k in OtherConfigurable(c) <==>
            && k in c && c[k] != JNull
            && k !in {"__pregel_resuming", "__pregel_task_id", "thread_id", "checkpoint_map", "checkpoint_id", "checkpoint_ns",
                      "__pregel_durability", "__pregel_root_stream_modes", "__langsmith_project__", "__langsmith_example_id__"}
            && k !in {"__pregel_send", "__pregel_read", "__pregel_scratchpad", "__pregel_call", "__pregel_checkpointer",
                      "__pregel_stream", "__pregel_cache", "__pregel_runner_submit", "__pregel_root_stream_modes"}
  {
  }

  /** How each field is read from the top of a dict and from its metadata: other kinds of value read as absent. */
  lemma TopFieldsRead(d: Object, i: nat, host: Host)
    ensures var q, name, tags, meta := FromDict(d, host), Field(d, "run_name"), Field(d, "tags"), Fields(Field(d, "metadata"));
            && q.runName == (if name.JStr? && name.s != "" then Some(name.s) else None)
            && q.maxConcurrency == CountOf(Field(d, "max_concurrency"), host)
            && q.recursionLimit == CountOf(Field(d, "recursion_limit"), host)
            && |q.tags| == (if tags.JArr? then |tags.items| else 0)
            && (i < |q.tags| ==> q.tags[i] == host.sprint(tags.items[i]))
            && q.runAttempt == (if "run_attempt" in meta && meta["run_attempt"].JNum? then Some(host.toInt32(meta["run_attempt"].n)) else None)
            && q.serverRunId == (if "run_id" in meta then Some(host.sprint(meta["run_id"])) else None)
  {
    if Field(d, "tags").JArr? {
      PrintedAre(Field(d, "tags").items, host);
    }
  }

  /** A number other than zero. */
  function CountOf(j: Json, host: Host): Option<Int32> {
    if j.JNum? && host.toInt32(j.n) != 0 then Some(host.toInt32(j.n)) else None
  }

  lemma {:induction false} PrintedAre(js: seq<Json>, host: Host)
    ensures |PrintedItems(js, host)| == |js| && forall i | 0 <= i < |js| :: PrintedItems(js, host)[i] == host.sprint(js[i])
    decreases |js|
  {
    if js != [] {
      PrintedAre(js[1..], host);
      assert PrintedItems(js, host) == [host.sprint(js[0])] + PrintedItems(js[1..], host);
    }
  }

  /** Values under configurable are printed whatever their kind, unless null; a flag must be one, a map an object. */
  lemma ConfigurableKinds(j: Json, k: string, host: Host)
    ensures Printed(j, host) == if j == JNull then None else Some(host.sprint(j))
    ensures k in CheckpointMapOf(j, host) <==> j.JObj? && k in j.fields
    ensures k in CheckpointMapOf(j, host) ==> CheckpointMapOf(j, host)[k] == host.sprint(j.fields[k])
  {
  }

  /** The top-level run id wins over the configurable one, unless it is absent, null or prints as nothing. */
  lemma RunIdReads(d: Object, host: Host)
    ensures var top, inner := Field(d, "run_id"), Field(Fields(Field(d, "configurable")), "run_id");
            FromDict(d, host).runId ==
            if top != JNull && host.sprint(top) != "" then Some(host.sprint(top))
            else if inner != JNull && host.sprint(inner) != "" then Some(host.sprint(inner)) else None
  {
  }

  lemma DurabilityNames(s: string, n: int)
    ensures DurabilityOf(JStr(s)) == if s == "async" then Some(1) else if s == "sync" then Some(2) else if s == "exit" then Some(3) else None
    ensures DurabilityField(Some(n)) == if n == 1 then Some(JStr("async")) else if n == 2 then Some(JStr("sync"))
                                        else if n == 3 then Some(JStr("exit")) else None
  {
  }

  lemma {:induction false} IndexMissing(names: seq<string>, s: string)
    ensures IndexIn(names, s).Some? <==> s in names
    decreases |names|
  {
    if names != [] {
      IndexMissing(names[1..], s);
      assert s in names <==> s == names[0] || s in names[1..];
    }
  }

  /** The stream modes and their numbers. */
  lemma ModeTable()
    ensures MODES == ["unknown", "values", "updates", "checkpoints", "tasks", "debug", "messages", "custom", "events", "messages_tuple"]
  {
  }

  /** A mode is written by its name, and a name is read as its number; anything else is left out. */
  lemma ModesAre(n: int, s: string, host: Host)
    requires Faithful(host)
    ensures 0 <= n < 10 ==> ModeNames([n]) == [JStr(MODES[n])] && ModeNumbers([JStr(MODES[n])], host) == [n]
    ensures !(0 <= n < 10) ==> ModeNames([n]) == []
    ensures s !in MODES ==> ModeNumbers([JStr(s)], host) == []
  {
    assert |MODES| == 10;
    assert [n][1..] == [];
    assert [JStr(s)][1..] == [];
    IndexMissing(MODES, s);
    if 0 <= n < 10 {
      ModesDistinct(n);
      assert [JStr(MODES[n])][1..] == [];
    }
  }

  // -------------------------------------------------------------- message to dict

  /** Under configurable: run id and tracing fields win over extras, and extras over everything else. */
  lemma ConfigurableWinner(p: Config, k: string)
    ensures var c, late := ConfigurableOf(p), LateValue(p, k);
            && (late.Some? ==> k in c && c[k] == JStr(late.value))
            && (late.None? && k in p.extraConfigurable && p.extraConfigurable[k].Doc? ==> k in c && c[k] == p.extraConfigurable[k].j)
  {
    ConfigurableKeys(p, k);
  }

  function LateValue(p: Config, k: string): Option<string> {
    if k == "run_id" && p.runId != Some("") then p.runId
    else if k == "__langsmith_project__" && p.project != Some("") then p.project
    else if k == "__langsmith_example_id__" && p.exampleId != Some("") then p.exampleId
    else None
  }

  /** At the top, extras win over the typed fields; under metadata, the server run id and the attempt win over documents. */
  lemma TopAndMetadataWinner(p: Config, k: string)
    ensures k in p.extra && p.extra[k].Doc? ==> k in ToDict(p) && ToDict(p)[k] == p.extra[k].j
    ensures var m := MetadataOf(p);
            && (p.serverRunId.Some? ==> "run_id" in m && m["run_id"] == JStr(p.serverRunId.value))
            && (p.runAttempt.Some? ==> "run_attempt" in m && m["run_attempt"] == JNum(p.runAttempt.value as real))
            && (k in p.metadata && p.metadata[k].Doc? && !(k == "run_id" && p.serverRunId.Some?) && !(k == "run_attempt" && p.runAttempt.Some?)
                ==> k in m && m[k] == p.metadata[k].j)
  {
    assert "run_id" in METADATA_KEYS && "run_attempt" in METADATA_KEYS;
  }

  /** What a dict shows for the typed fields, zeros and empty texts included, where no extra covers them. */
  lemma TypedFieldsShow(p: Config)
    ensures var d := ToDict(p);
            && ("run_name" !in p.extra ==> Field(d, "run_name") == if p.runName.Some? then JStr(p.runName.value) else JNull)
            && ("max_concurrency" !in p.extra ==>
                 Field(d, "max_concurrency") == if p.maxConcurrency.Some? then JNum(p.maxConcurrency.value as real) else JNull)
            && ("recursion_limit" !in p.extra ==>
                 Field(d, "recursion_limit") == if p.recursionLimit.Some? then JNum(p.recursionLimit.value as real) else JNull)
            && ("run_id" !in p.extra ==> "run_id" !in d) && ("callbacks" !in p.extra ==> "callbacks" !in d)
  {
    assert "run_name" in KNOWN && "max_concurrency" in KNOWN && "recursion_limit" in KNOWN;
  }

  lemma TypedConfigurableShow(p: Config)
    ensures var c := ConfigurableOf(p);
            && ("thread_id" !in p.extraConfigurable ==> Field(c, "thread_id") == TextOrNull(p.threadId))
            && ("checkpoint_ns" !in p.extraConfigurable ==> Field(c, "checkpoint_ns") == TextOrNull(p.checkpointNs))
            && ("__pregel_task_id" !in p.extraConfigurable ==> Field(c, "__pregel_task_id") == TextOrNull(p.taskId))
            && ("checkpoint_id" !in p.extraConfigurable ==>
                 Field(c, "checkpoint_id") == if p.checkpointId == Some("") then JNull else TextOrNull(p.checkpointId))
            && ("graph_id" !in p.extraConfigurable ==> Field(c, "graph_id") == TextOrNull(p.graphId))
  {
    ConfigurableKeys(p, "thread_id");
    ConfigurableKeys(p, "checkpoint_ns");
    ConfigurableKeys(p, "__pregel_task_id");
    ConfigurableKeys(p, "checkpoint_id");
    ConfigurableKeys(p, "graph_id");
  }

  function TextOrNull(s: Option<string>): Json {
    if s.Some? then JStr(s.value) else JNull
  }

  // --------------------------------------------------------------------- payload

  /** Reading a payload: each key into its own field, null as absent, and every other key kept unless null. */
  lemma PayloadReads(d: Object, k: string, host: Host)
    ensures var p := PayloadFromDict(d, host);
            && p.assistantId == (if Field(d, "assistant_id") == JNull then "" else host.sprint(Field(d, "assistant_id")))
            && p.input == KeptDoc(Field(d, "input")) && p.context == KeptDoc(Field(d, "context")) && p.metadata == KeptDoc(Field(d, "metadata"))
            && p.webhook == (if Field(d, "webhook") == JNull then None else Some(host.sprint(Field(d, "webhook"))))
            && p.config == (if Field(d, "config").JObj? then DictToProto(Field(d, "config").fields, host) else None)
            && p.interruptBefore == None && p.interruptAfter == None && p.multitask == None
            && (k in p.extra <==> k in d && d[k] != JNull && k !in {"assistant_id", "input", "context", "metadata", "webhook", "config"})
            && (k in p.extra ==> p.extra[k] == Doc(d[k]))
  {
  }

  function KeptDoc(j: Json): Option<Raw> {
    if j == JNull then None else Some(Doc(j))
  }

  /** A static interrupt: `*` for everywhere, the list of nodes, and nothing for an empty setting. */
  ghost predicate ShowsInterrupt(i: Option<Interrupt>, d: Object, key: string) {
    match i
    case Some(All) => key in d && d[key] == JStr("*")
    case Some(Nodes(names)) =>
      key in d && d[key].JArr? && |d[key].items| == |names| && forall n | 0 <= n < |names| :: d[key].items[n] == JStr(names[n])
    case Some(NothingSet) => key !in d
    case None => key !in d
  }

  lemma {:induction false} ListIs(names: seq<string>)
    ensures |StringList(names)| == |names| && forall n | 0 <= n < |names| :: StringList(names)[n] == JStr(names[n])
    decreases |names|
  {
    if names != [] {
      ListIs(names[1..]);
      assert StringList(names) == [JStr(names[0])] + StringList(names[1..]);
    }
  }

  /** Writing a payload, the fields that only the message has: the two interrupts and the multitask strategy. */
  lemma PayloadShows(p: Payload)
    ensures "interrupt_before" !in p.extra ==> ShowsInterrupt(p.interruptBefore, PayloadToDict(p), "interrupt_before")
    ensures "interrupt_after" !in p.extra ==> ShowsInterrupt(p.interruptAfter, PayloadToDict(p), "interrupt_after")
    ensures "multitask_strategy" !in p.extra ==>
              Field(PayloadToDict(p), "multitask_strategy") ==
              if p.multitask == Some(0) then JStr("reject") else if p.multitask == Some(1) then JStr("rollback")
              else if p.multitask == Some(2) then JStr("interrupt") else if p.multitask == Some(3) then JStr("enqueue") else JNull
  {
    InterruptShown(p, "interrupt_before", p.interruptBefore);
    InterruptShown(p, "interrupt_after", p.interruptAfter);
    assert "multitask_strategy" in TYPED;
  }

  /** Writing the other fields: documents that are JSON, ids that are not empty, a config even if its dict is empty; extras over all. */
  lemma PayloadShowsRest(p: Payload, k: string)
    ensures var d := PayloadToDict(p);
            && (k in p.extra && p.extra[k].Doc? ==> k in d && d[k] == p.extra[k].j)
            && ("input" !in p.extra ==> ShowsDoc(p.input, d, "input"))
            && ("context" !in p.extra ==> ShowsDoc(p.context, d, "context"))
            && ("metadata" !in p.extra ==> ShowsDoc(p.metadata, d, "metadata"))
    ensures var d := PayloadToDict(p);
            && ("assistant_id" !in p.extra ==> Field(d, "assistant_id") == if p.assistantId == "" then JNull else JStr(p.assistantId))
            && ("webhook" !in p.extra ==> Field(d, "webhook") == TextOrNull(p.webhook))
            && ("config" !in p.extra ==> Field(d, "config") == if p.config.Some? then JObj(ToDict(p.config.value)) else JNull)
  {
    assert "input" in TYPED && "context" in TYPED && "metadata" in TYPED;
    assert "assistant_id" in TYPED && "webhook" in TYPED && "config" in TYPED;
  }

  ghost predicate ShowsDoc(r: Option<Raw>, d: Object, key: string) {
    if r.Some? && r.value.Doc? then key in d && d[key] == r.value.j else key !in d
  }

  lemma InterruptShown(p: Payload, key: string, i: Option<Interrupt>)
    requires (key == "interrupt_before" && i == p.interruptBefore) || (key == "interrupt_after" && i == p.interruptAfter)
    ensures key !in p.extra ==> ShowsInterrupt(i, PayloadToDict(p), key)
  {
    assert key in TYPED;
    assert TypedPayload(p, key) == InterruptField(i);
    if i.Some? && i.value.Nodes? {
      ListIs(i.value.names);
    }
  }

  // --------------------------------------------------------------- stored configs

  /** A stored config is taken for a legacy row exactly when it has one of these keys. */
  lemma LegacyKeys(d: Object)
    ensures IsLegacyShape(d) <==> exists k | k in d ::
              k in {"metadata_json", "extra_json", "extra_configurable_json", "runtime", "resuming", "task_id", "thread_id",
                    "checkpoint_map", "checkpoint_id", "checkpoint_ns", "durability", "resume_map", "graph_id",
                    "root_stream_modes", "run_attempt", "server_run_id", "tracing_project", "tracing_example_id"}
  {
  }

  /** Legacy rows go to the older decoder, others to the dict decoder; an empty row or an all-default message is no config. */
  lemma DecodesBy(d: Object, protojson: Object -> Option<Config>, host: Host)
    ensures DecodeConfig(d, protojson, host) ==
            if d == map[] || (IsLegacyShape(d) && protojson(d) == Some(DEFAULT)) || (!IsLegacyShape(d) && FromDict(d, host) == DEFAULT) then None
            else if IsLegacyShape(d) then protojson(d) else Some(FromDict(d, host))
  {
  }
}
