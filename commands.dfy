/** The four VISS command builders of the session hook (`buildGetCommand`,
    `buildSubscribeCommand`, `buildSetCommand`, `buildUnsubscribeCommand`)
    and a typed reading of a command object, against which each builder is
    proved. Each builder starts from an object literal and then assigns the
    optional properties one by one, as the source does. */
module Commands {
  import opened Base
  import opened Json
  import opened OrderedMap

  /** The `options` argument; a missing option is `None`. */
  datatype BuildOptions = BuildOptions(
    includeRequestId: Option<Json>,
    filter: Option<Json>,
    authorization: Option<Json>,
    dc: Option<Json>)

  /** `options = {}`. */
  const NoOptions := BuildOptions(None, None, None, None)

  /** The filter a subscribe carries when the caller gives none. */
  const DefaultSubscribeFilter: Json :=
    JObj([("variant", JStr("timebased")), ("parameter", JObj([("period", JStr("10000"))]))])

  /** `options.includeRequestId !== false`. */
  predicate WantsRequestId(options: BuildOptions)
  {
    options.includeRequestId != Some(JBool(false))
  }

  /** An option as it ends up in the command: only a truthy one is copied. */
  function IfTruthy(o: Option<Json>): Option<Json>
  {
    if o.Some? && Truthy(o.value) then o else None
  }

  /** `Array.isArray(paths) ? paths[0] : paths`; the first element of an
      empty array is `undefined`, which leaves `path` out of the command. */
  function FirstPath(paths: Json): Option<Json>
  {
    if paths.JArr? then (if paths.items != [] then Some(paths.items[0]) else None) else Some(paths)
  }

  /** `command.key = value` when the value is defined. */
  function Assign(fields: seq<(string, Json)>, key: string, value: Option<Json>): seq<(string, Json)>
  {
    if value.Some? then Set(fields, key, value.value) else fields
  }

  /** The stamp of `Date.now().toString()`, taken as an input, when wanted. */
  function Stamp(options: BuildOptions, stamp: string): Option<Json>
  {
    if WantsRequestId(options) then Some(JStr(stamp)) else None
  }

  function BuildGet(paths: Json, options: BuildOptions, stamp: string): Json
  {
    var c := Assign([("action", JStr("get"))], "path", FirstPath(paths));
    var c := Assign(c, "requestId", Stamp(options, stamp));
    var c := Assign(c, "filter", IfTruthy(options.filter));
    var c := Assign(c, "authorization", IfTruthy(options.authorization));
    var c := Assign(c, "dc", IfTruthy(options.dc));
    JObj(c)
  }

  function BuildSubscribe(paths: Json, options: BuildOptions, stamp: string): Json
  {
    var filter := if IfTruthy(options.filter).Some? then options.filter.value else DefaultSubscribeFilter;
    var c := Assign([("action", JStr("subscribe"))], "path", FirstPath(paths));
    var c := Set(c, "filter", filter);
    var c := Assign(c, "requestId", Stamp(options, stamp));
    var c := Assign(c, "authorization", IfTruthy(options.authorization));
    var c := Assign(c, "dc", IfTruthy(options.dc));
    JObj(c)
  }

  function BuildUnsubscribe(subscriptionId: Json, options: BuildOptions, stamp: string): Json
  {
    var c := [("action", JStr("unsubscribe")), ("subscriptionId", subscriptionId)];
    var c := Assign(c, "requestId", Stamp(options, stamp));
    JObj(c)
  }

  function BuildSet(path: Json, value: Json, options: BuildOptions, stamp: string): Json
  {
    var c := [("action", JStr("set")), ("path", path), ("value", value)];
    var c := Assign(c, "requestId", Stamp(options, stamp));
    var c := Assign(c, "authorization", IfTruthy(options.authorization));
    JObj(c)
  }

  /** A VISS command as the protocol reads it: the action and the fields
      that action has; `None` is an absent field. */
  datatype Command =
    | GetCmd(path: Option<Json>, filter: Option<Json>, authorization: Option<Json>,
             dc: Option<Json>, requestId: Option<Json>)
    | SubscribeCmd(path: Option<Json>, filter: Option<Json>, authorization: Option<Json>,
                   dc: Option<Json>, requestId: Option<Json>)
    | SetCmd(path: Option<Json>, value: Option<Json>, authorization: Option<Json>,
             requestId: Option<Json>)
    | UnsubscribeCmd(subscriptionId: Option<Json>, requestId: Option<Json>)

  /** Reads a command object by its `action`; `None` for anything else. */
  function Decode(j: Json): Option<Command>
  {
    var action := Prop(j, "action");
    if action == Some(JStr("get")) then
      Some(GetCmd(Prop(j, "path"), Prop(j, "filter"), Prop(j, "authorization"), Prop(j, "dc"), Prop(j, "requestId")))
    else if action == Some(JStr("subscribe")) then
      Some(SubscribeCmd(Prop(j, "path"), Prop(j, "filter"), Prop(j, "authorization"), Prop(j, "dc"), Prop(j, "requestId")))
    else if action == Some(JStr("set")) then
      Some(SetCmd(Prop(j, "path"), Prop(j, "value"), Prop(j, "authorization"), Prop(j, "requestId")))
    else if action == Some(JStr("unsubscribe")) then
      Some(UnsubscribeCmd(Prop(j, "subscriptionId"), Prop(j, "requestId")))
    else None
  }

  /** The property a conditional assignment leaves behind. */
  lemma AssignLookup(fields: seq<(string, Json)>, key: string, value: Option<Json>, k: string)
    ensures Lookup(Assign(fields, key, value), k) ==
      if k == key && value.Some? then value else Lookup(fields, k)
  {
    if value.Some? { SetLookup(fields, key, value.value, k); }
  }

  /** A command object never has a key twice, so it is a plain object. */
  lemma AssignDistinct(fields: seq<(string, Json)>, key: string, value: Option<Json>)
    requires DistinctKeys(fields)
    ensures DistinctKeys(Assign(fields, key, value))
  {
    if value.Some? { SetDistinct(fields, key, value.value); }
  }

  /** The get command is read back as a get of the first path, with the
      request id unless it was switched off, and with filter, authorization
      and dc exactly when they were given truthy; no key occurs twice. */
  lemma BuildGetReadsBack(paths: Json, options: BuildOptions, stamp: string)
    ensures Decode(BuildGet(paths, options, stamp)) ==
      Some(GetCmd(FirstPath(paths), IfTruthy(options.filter), IfTruthy(options.authorization),
                  IfTruthy(options.dc), Stamp(options, stamp)))
    ensures DistinctKeys(BuildGet(paths, options, stamp).fields)
  {
    BuildGetLookup(paths, options, stamp, "action");
    BuildGetLookup(paths, options, stamp, "path");
    BuildGetLookup(paths, options, stamp, "filter");
    BuildGetLookup(paths, options, stamp, "authorization");
    BuildGetLookup(paths, options, stamp, "dc");
    BuildGetLookup(paths, options, stamp, "requestId");
    BuildGetDistinct(paths, options, stamp);
  }

  lemma BuildGetLookup(paths: Json, options: BuildOptions, stamp: string, k: string)
    ensures Lookup(BuildGet(paths, options, stamp).fields, k) == GetField(paths, options, stamp, k)
  {
    var c0 := [("action", JStr("get"))];
    var c1 := Assign(c0, "path", FirstPath(paths));
    var c2 := Assign(c1, "requestId", Stamp(options, stamp));
    var c3 := Assign(c2, "filter", IfTruthy(options.filter));
    var c4 := Assign(c3, "authorization", IfTruthy(options.authorization));
    AssignLookup(c0, "path", FirstPath(paths), k);
    AssignLookup(c1, "requestId", Stamp(options, stamp), k);
    AssignLookup(c2, "filter", IfTruthy(options.filter), k);
    AssignLookup(c3, "authorization", IfTruthy(options.authorization), k);
    AssignLookup(c4, "dc", IfTruthy(options.dc), k);
  }

  lemma BuildGetDistinct(paths: Json, options: BuildOptions, stamp: string)
    ensures DistinctKeys(BuildGet(paths, options, stamp).fields)
  {
    var c0 := [("action", JStr("get"))];
    var c1 := Assign(c0, "path", FirstPath(paths));
    var c2 := Assign(c1, "requestId", Stamp(options, stamp));
    var c3 := Assign(c2, "filter", IfTruthy(options.filter));
    var c4 := Assign(c3, "authorization", IfTruthy(options.authorization));
    AssignDistinct(c0, "path", FirstPath(paths));
    AssignDistinct(c1, "requestId", Stamp(options, stamp));
    AssignDistinct(c2, "filter", IfTruthy(options.filter));
    AssignDistinct(c3, "authorization", IfTruthy(options.authorization));
    AssignDistinct(c4, "dc", IfTruthy(options.dc));
  }

  /** Property `k` of the get command, read key by key. */
  function GetField(paths: Json, options: BuildOptions, stamp: string, k: string): Option<Json>
  {
    if k == "dc" then IfTruthy(options.dc)
    else if k == "authorization" then IfTruthy(options.authorization)
    else if k == "filter" then IfTruthy(options.filter)
    else if k == "requestId" then Stamp(options, stamp)
    else if k == "path" then FirstPath(paths)
    else if k == "action" then Some(JStr("get"))
    else None
  }

  /** The filter a subscribe command carries. */
  function SubscribeFilter(options: BuildOptions): Json
  {
    if IfTruthy(options.filter).Some? then options.filter.value else DefaultSubscribeFilter
  }

  /** The subscribe command is read back as a subscribe of the first path
      whose filter is the one given, or the 10-second time-based default
      when none truthy was given; no key occurs twice. */
  lemma BuildSubscribeReadsBack(paths: Json, options: BuildOptions, stamp: string)
    ensures Decode(BuildSubscribe(paths, options, stamp)) ==
      Some(SubscribeCmd(FirstPath(paths), Some(SubscribeFilter(options)), IfTruthy(options.authorization),
                        IfTruthy(options.dc), Stamp(options, stamp)))
    ensures DistinctKeys(BuildSubscribe(paths, options, stamp).fields)
  {
    BuildSubscribeLookup(paths, options, stamp, "action");
    BuildSubscribeLookup(paths, options, stamp, "path");
    BuildSubscribeLookup(paths, options, stamp, "filter");
    BuildSubscribeLookup(paths, options, stamp, "authorization");
    BuildSubscribeLookup(paths, options, stamp, "dc");
    BuildSubscribeLookup(paths, options, stamp, "requestId");
    BuildSubscribeDistinct(paths, options, stamp);
  }

  lemma BuildSubscribeLookup(paths: Json, options: BuildOptions, stamp: string, k: string)
    ensures Lookup(BuildSubscribe(paths, options, stamp).fields, k) == SubscribeField(paths, options, stamp, k)
  {
    var f := SubscribeFilter(options);
    var c0 := [("action", JStr("subscribe"))];
    var c1 := Assign(c0, "path", FirstPath(paths));
    var c2 := Assign(c1, "filter", Some(f));
    var c3 := Assign(c2, "requestId", Stamp(options, stamp));
    var c4 := Assign(c3, "authorization", IfTruthy(options.authorization));
    assert BuildSubscribe(paths, options, stamp).fields == Assign(c4, "dc", IfTruthy(options.dc));
    AssignLookup(c0, "path", FirstPath(paths), k);
    AssignLookup(c1, "filter", Some(f), k);
    AssignLookup(c2, "requestId", Stamp(options, stamp), k);
    AssignLookup(c3, "authorization", IfTruthy(options.authorization), k);
    AssignLookup(c4, "dc", IfTruthy(options.dc), k);
  }

  lemma BuildSubscribeDistinct(paths: Json, options: BuildOptions, stamp: string)
    ensures DistinctKeys(BuildSubscribe(paths, options, stamp).fields)
  {
    var f := SubscribeFilter(options);
    var c0 := [("action", JStr("subscribe"))];
    var c1 := Assign(c0, "path", FirstPath(paths));
    var c2 := Assign(c1, "filter", Some(f));
    var c3 := Assign(c2, "requestId", Stamp(options, stamp));
    var c4 := Assign(c3, "authorization", IfTruthy(options.authorization));
    assert BuildSubscribe(paths, options, stamp).fields == Assign(c4, "dc", IfTruthy(options.dc));
    AssignDistinct(c0, "path", FirstPath(paths));
    AssignDistinct(c1, "filter", Some(f));
    AssignDistinct(c2, "requestId", Stamp(options, stamp));
    AssignDistinct(c3, "authorization", IfTruthy(options.authorization));
    AssignDistinct(c4, "dc", IfTruthy(options.dc));
  }

  /** Property `k` of the subscribe command, read key by key. */
  function SubscribeField(paths: Json, options: BuildOptions, stamp: string, k: string): Option<Json>
  {
    if k == "dc" then IfTruthy(options.dc)
    else if k == "authorization" then IfTruthy(options.authorization)
    else if k == "requestId" then Stamp(options, stamp)
    else if k == "filter" then Some(SubscribeFilter(options))
    else if k == "path" then FirstPath(paths)
    else if k == "action" then Some(JStr("subscribe"))
    else None
  }

  /** The set command carries the path and the value exactly as given (no
      coercion), the request id unless switched off, and a truthy
      authorization; no filter and no dc. */
  lemma BuildSetReadsBack(path: Json, value: Json, options: BuildOptions, stamp: string)
    ensures Decode(BuildSet(path, value, options, stamp)) ==
      Some(SetCmd(Some(path), Some(value), IfTruthy(options.authorization), Stamp(options, stamp)))
    ensures Prop(BuildSet(path, value, options, stamp), "filter") == None
    ensures Prop(BuildSet(path, value, options, stamp), "dc") == None
    ensures DistinctKeys(BuildSet(path, value, options, stamp).fields)
  {
    BuildSetLookup(path, value, options, stamp, "action");
    BuildSetLookup(path, value, options, stamp, "path");
    BuildSetLookup(path, value, options, stamp, "value");
    BuildSetLookup(path, value, options, stamp, "authorization");
    BuildSetLookup(path, value, options, stamp, "requestId");
    BuildSetLookup(path, value, options, stamp, "filter");
    BuildSetLookup(path, value, options, stamp, "dc");
    BuildSetDistinct(path, value, options, stamp);
  }

  lemma BuildSetLookup(path: Json, value: Json, options: BuildOptions, stamp: string, k: string)
    ensures Lookup(BuildSet(path, value, options, stamp).fields, k) == SetField(path, value, options, stamp, k)
  {
    var c0 := [("action", JStr("set")), ("path", path), ("value", value)];
    var c1 := Assign(c0, "requestId", Stamp(options, stamp));
    assert c0[1..] == [("path", path), ("value", value)];
    assert c0[1..][1..] == [("value", value)];
    assert Lookup(c0[1..][1..], k) == if k == "value" then Some(value) else None;
    assert Lookup(c0[1..], k) == if k == "path" then Some(path) else Lookup(c0[1..][1..], k);
    AssignLookup(c0, "requestId", Stamp(options, stamp), k);
    AssignLookup(c1, "authorization", IfTruthy(options.authorization), k);
  }

  lemma BuildSetDistinct(path: Json, value: Json, options: BuildOptions, stamp: string)
    ensures DistinctKeys(BuildSet(path, value, options, stamp).fields)
  {
    var c0 := [("action", JStr("set")), ("path", path), ("value", value)];
    var c1 := Assign(c0, "requestId", Stamp(options, stamp));
    assert DistinctKeys(c0);
    AssignDistinct(c0, "requestId", Stamp(options, stamp));
    AssignDistinct(c1, "authorization", IfTruthy(options.authorization));
  }

  /** Property `k` of the set command, read key by key. */
  function SetField(path: Json, value: Json, options: BuildOptions, stamp: string, k: string): Option<Json>
  {
    if k == "authorization" then IfTruthy(options.authorization)
    else if k == "requestId" then Stamp(options, stamp)
    else if k == "value" then Some(value)
    else if k == "path" then Some(path)
    else if k == "action" then Some(JStr("set"))
    else None
  }

  /** The unsubscribe command names the given subscription and nothing but
      the request id besides. */
  lemma BuildUnsubscribeReadsBack(subscriptionId: Json, options: BuildOptions, stamp: string)
    ensures Decode(BuildUnsubscribe(subscriptionId, options, stamp)) ==
      Some(UnsubscribeCmd(Some(subscriptionId), Stamp(options, stamp)))
    ensures forall k :: k !in ["action", "subscriptionId", "requestId"] ==>
      Prop(BuildUnsubscribe(subscriptionId, options, stamp), k) == None
    ensures DistinctKeys(BuildUnsubscribe(subscriptionId, options, stamp).fields)
  {
    forall k ensures Lookup(BuildUnsubscribe(subscriptionId, options, stamp).fields, k) ==
      UnsubscribeField(subscriptionId, options, stamp, k)
    {
      BuildUnsubscribeLookup(subscriptionId, options, stamp, k);
    }
    var c0 := [("action", JStr("unsubscribe")), ("subscriptionId", subscriptionId)];
    assert DistinctKeys(c0);
    AssignDistinct(c0, "requestId", Stamp(options, stamp));
  }

  lemma BuildUnsubscribeLookup(subscriptionId: Json, options: BuildOptions, stamp: string, k: string)
    ensures Lookup(BuildUnsubscribe(subscriptionId, options, stamp).fields, k) ==
      UnsubscribeField(subscriptionId, options, stamp, k)
  {
    var c0 := [("action", JStr("unsubscribe")), ("subscriptionId", subscriptionId)];
    assert c0[1..] == [("subscriptionId", subscriptionId)];
    assert Lookup(c0[1..], k) == if k == "subscriptionId" then Some(subscriptionId) else None;
    AssignLookup(c0, "requestId", Stamp(options, stamp), k);
  }

  /** Property `k` of the unsubscribe command, read key by key. */
  function UnsubscribeField(subscriptionId: Json, options: BuildOptions, stamp: string, k: string): Option<Json>
  {
    if k == "requestId" then Stamp(options, stamp)
    else if k == "subscriptionId" then Some(subscriptionId)
    else if k == "action" then Some(JStr("unsubscribe"))
    else None
  }
}
