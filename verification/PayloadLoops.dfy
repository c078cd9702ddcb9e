/** The payload codec as written, each method shown to compute the function of the whole input. */
module PayloadLoops {
  import opened Json
  import opened ConfigCodec
  import opened PayloadCodec
  import ConfigLoops

  /** The extras: every key without a typed field whose value is not null, keys in any order. */
  method CollectExtras(d: Object) returns (extra: map<string, Raw>)
    ensures extra == map k | k in d && k !in SIMPLE && d[k] != JNull :: Doc(d[k])
  {
    extra := map[];
    var todo := d.Keys;
    while todo != {}
      invariant todo <= d.Keys
      invariant extra == map k | k in d && k !in todo && k !in SIMPLE && d[k] != JNull :: Doc(d[k])
      decreases |todo|
    {
      var k :| k in todo;
      if k !in SIMPLE && d[k] != JNull {
        extra := extra[k := Doc(d[k])];
      }
      todo := todo - {k};
    }
  }

  method PayloadDictToProto(d: Object, host: Host) returns (p: Payload)
    ensures p == PayloadFromDict(d, host)
  {
    var assistantId := "";
    if Field(d, "assistant_id") != JNull {
      assistantId := host.sprint(Field(d, "assistant_id"));
    }
    var config: Option<Config> := None;
    if Field(d, "config").JObj? {
      config := ConfigLoops.DictToProto(Field(d, "config").fields, host);
    }
    var extra := CollectExtras(d);
    p := Payload(assistantId, Kept(Field(d, "input")), config, Kept(Field(d, "context")), Printed(Field(d, "webhook"), host),
                 None, None, None, Kept(Field(d, "metadata")), extra);
  }

  lemma TypedPayloadValues(p: Payload)
    ensures TypedPayload(p, "assistant_id") == if p.assistantId == "" then None else Some(JStr(p.assistantId))
    ensures TypedPayload(p, "input") == DocOf(p.input) && TypedPayload(p, "context") == DocOf(p.context)
    ensures TypedPayload(p, "metadata") == DocOf(p.metadata) && TypedPayload(p, "webhook") == ConfigCodec.Str(p.webhook)
    ensures TypedPayload(p, "config") == if p.config.Some? then Some(JObj(ToDict(p.config.value))) else None
    ensures TypedPayload(p, "interrupt_before") == InterruptField(p.interruptBefore)
    ensures TypedPayload(p, "interrupt_after") == InterruptField(p.interruptAfter)
    ensures TypedPayload(p, "multitask_strategy") == if p.multitask.Some? then ConfigCodec.Str(MultitaskName(p.multitask.value)) else None
  {
  }

  lemma TypedPayloadKeys(p: Payload, k: string)
    ensures TypedPayload(p, k).Some? ==> k in TYPED
  {
  }

  /** The typed entries, in the order they are set. */
  method TypedEntries(p: Payload, config: Option<Json>, ghost at: string -> Option<Json>) returns (d: Object)
    requires forall k: string :: at(k) == TypedPayload(p, k)
    requires config == TypedPayload(p, "config")
    ensures ConfigLoops.Holds(d, TYPED, at)
  {
    TypedPayloadValues(p);
    d := ConfigLoops.SetThree(map[], "assistant_id", if p.assistantId == "" then None else Some(JStr(p.assistantId)),
                              "input", DocOf(p.input), "context", DocOf(p.context), {}, at);
    ghost var first := {} + {"assistant_id", "input", "context"};
    d := ConfigLoops.SetThree(d, "metadata", DocOf(p.metadata), "webhook", ConfigCodec.Str(p.webhook), "config", config, first, at);
    ghost var second := first + {"metadata", "webhook", "config"};
    d := ConfigLoops.SetThree(d, "interrupt_before", InterruptField(p.interruptBefore), "interrupt_after", InterruptField(p.interruptAfter),
                              "multitask_strategy", if p.multitask.Some? then ConfigCodec.Str(MultitaskName(p.multitask.value)) else None,
                              second, at);
    assert second + {"interrupt_before", "interrupt_after", "multitask_strategy"} == TYPED;
  }

  /** Message to dict: typed entries, then the extras over them. */
  method PayloadProtoToDict(p: Payload) returns (d: Object)
    ensures d == PayloadToDict(p)
  {
    var config: Option<Json> := None;
    if p.config.Some? {
      var dict := ConfigLoops.ProtoToDict(p.config);
      config := Some(JObj(dict));
    }
    TypedPayloadValues(p);
    ghost var at := (k: string) => TypedPayload(p, k);
    var typed := TypedEntries(p, config, at);
    d := ConfigLoops.Overlay(typed, p.extra);
    forall k: string ensures (k in d <==> PayloadAt(p, k).Some?) && (k in d ==> d[k] == PayloadAt(p, k).value) {
      TypedPayloadKeys(p, k);
      assert at(k) == TypedPayload(p, k);
    }
    IsPayloadDict(p, d);
  }

  lemma IsPayloadDict(p: Payload, d: Object)
    requires forall k: string :: (k in d <==> PayloadAt(p, k).Some?) && (k in d ==> d[k] == PayloadAt(p, k).value)
    ensures d == PayloadToDict(p)
  {
    forall k: string ensures k in PayloadToDict(p) <==> PayloadAt(p, k).Some? {
      TypedPayloadKeys(p, k);
    }
  }
}
