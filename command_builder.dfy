/** The command builder hook (`useCommandBuilder`): the editor state, the
    two effects (filter management and command preview) as explicit calls,
    JSON validation of the edited text, and sending it with the next request
    id. The session's builders and registry are the ones of the `Commands`
    and `Subscriptions` modules; `onSendCommand` is the result of
    `HandleSend`. */
module CommandBuilder {
  import opened Base
  import opened Json
  import opened OrderedMap
  import opened Commands
  import opened Filters
  import opened Subscriptions

  /** `handleCommandTypeChange` takes a string or an event:
      `valueOrEvent?.target?.value ?? valueOrEvent?.value ?? ""`. */
  function Coalesce(a: Option<Json>, b: Option<Json>): Option<Json>
  {
    if a.None? || a.value == JNull then b else a
  }

  /** The command a `handleCommandTypeChange` argument selects, if any: a
      non-empty string, given directly or as the event's value. */
  function CommandChoice(valueOrEvent: Json): (r: Option<string>)
    ensures r.Some? ==> r.value != ""
    ensures valueOrEvent.JStr? ==> r == if valueOrEvent.s == "" then None else Some(valueOrEvent.s)
    ensures valueOrEvent == JNull ==> r == None
  {
    var target := Prop(valueOrEvent, "target");
    var next :=
      if valueOrEvent.JStr? then Some(valueOrEvent)
      else Coalesce(if target.Some? then Prop(target.value, "value") else None,
                    Coalesce(Prop(valueOrEvent, "value"), Some(JStr(""))));
    if next.Some? && next.value.JStr? && next.value.s != "" then Some(next.value.s) else None
  }

  /** The path argument of the preview's get or subscribe: all selected
      signals, or `["Vehicle"]` when several go out through a paths filter. */
  function CommandPath(command: string, signals: seq<string>): Json
  {
    if WantsPaths(command, signals) then StringArray(["Vehicle"]) else StringArray(signals)
  }

  /** The `path` that ends up in the preview. */
  function PreviewPath(command: string, signals: seq<string>): Json
    requires |signals| > 0
  {
    if WantsPaths(command, signals) then JStr("Vehicle") else JStr(signals[0])
  }

  /** Filters go into the preview when there are some, the command takes
      filters, and they were asked for or were added automatically. */
  predicate ShouldIncludeFilters(command: string, signals: seq<string>, includeFilter: bool, filters: seq<Filter>)
  {
    && |filters| > 0
    && (|| includeFilter
        || (command == "subscribe" && HasVariant(filters, "timebased"))
        || (|signals| > 1 && HasVariant(filters, "paths")))
    && command != "set" && command != "unsubscribe"
  }

  function FilterObjects(codec: Codec, filters: seq<Filter>): seq<Json>
  {
    seq(|filters|, i requires 0 <= i < |filters| => FilterObject(codec, filters[i]))
  }

  /** `options.filter` of the preview: one filter as a bare object, several
      as an array of filter objects in slot order; never for set or
      unsubscribe. */
  function IncludedFilter(codec: Codec, command: string, signals: seq<string>, includeFilter: bool,
                          filters: seq<Filter>): (r: Option<Json>)
    ensures r.Some? <==> ShouldIncludeFilters(command, signals, includeFilter, filters)
    ensures command == "set" || command == "unsubscribe" || filters == [] ==> r == None
    ensures r.Some? ==> Truthy(r.value)
    ensures r.Some? && |filters| == 1 ==> r.value == FilterObject(codec, filters[0])
    ensures r.Some? && |filters| > 1 ==>
      && r.value.JArr? && |r.value.items| == |filters|
      && forall i :: 0 <= i < |filters| ==> r.value.items[i] == FilterObject(codec, filters[i])
  {
    if ShouldIncludeFilters(command, signals, includeFilter, filters) then
      var objects := FilterObjects(codec, filters);
      Some(if |objects| == 1 then objects[0] else JArr(objects))
    else None
  }

  /** `{includeRequestId: false, ...options}`. */
  function PreviewOptions(filter: Option<Json>): BuildOptions
  {
    BuildOptions(Some(JBool(false)), filter, None, None)
  }

  /** `setValue || "0"`. */
  function SetText(setValue: string): string
  {
    if setValue == "" then "0" else setValue
  }

  /** The preview command before its request id is set. */
  function DraftCommand(codec: Codec, command: string, signals: seq<string>, setValue: string,
                        includeFilter: bool, filters: seq<Filter>, subs: Registry): Json
    requires command == "set" ==> |signals| > 0
  {
    var options := PreviewOptions(IncludedFilter(codec, command, signals, includeFilter, filters));
    if command == "get" then BuildGet(CommandPath(command, signals), options, "")
    else if command == "set" then BuildSet(JStr(signals[0]), JStr(SetText(setValue)), options, "")
    else if command == "subscribe" then BuildSubscribe(CommandPath(command, signals), options, "")
    else if command == "unsubscribe" then JObj([("action", JStr("unsubscribe")), ("subscriptionId", Latest(subs))])
    else JObj([])
  }

  /** `command.requestId = counter.toString()` on an object. */
  function Stamped(fields: seq<(string, Json)>, counter: nat): Json
  {
    JObj(Set(fields, "requestId", JStr(NatToString(counter))))
  }

  /** A decoded command with its request id replaced. */
  function WithRequestId(c: Option<Command>, id: Json): Option<Command>
  {
    if c.Some? then Some(c.value.(requestId := Some(id))) else None
  }

  /** Setting the request id of a command object changes only that field
      of what it reads as, and leaves its filter alone. */
  lemma StampedDecode(fields: seq<(string, Json)>, counter: nat)
    ensures Decode(Stamped(fields, counter)) == WithRequestId(Decode(JObj(fields)), JStr(NatToString(counter)))
    ensures Prop(Stamped(fields, counter), "requestId") == Some(JStr(NatToString(counter)))
    ensures Prop(Stamped(fields, counter), "filter") == Prop(JObj(fields), "filter")
  {
    var id := JStr(NatToString(counter));
    SetLookup(fields, "requestId", id, "requestId");
    SetLookup(fields, "requestId", id, "filter");
    SetRequestIdDecode(fields, id);
  }

  /** Setting the request id of an object changes that property and no
      other. */
  lemma StampedProps(fields: seq<(string, Json)>, counter: nat)
    ensures Prop(Stamped(fields, counter), "requestId") == Some(JStr(NatToString(counter)))
    ensures forall k :: k != "requestId" ==> Prop(Stamped(fields, counter), k) == Prop(JObj(fields), k)
  {
    var id := JStr(NatToString(counter));
    forall k ensures Lookup(Set(fields, "requestId", id), k) == if k == "requestId" then Some(id) else Lookup(fields, k) {
      SetLookup(fields, "requestId", id, k);
    }
  }

  /** Decoding after `requestId` is set: the same command with that id. */
  lemma SetRequestIdDecode(fields: seq<(string, Json)>, id: Json)
    ensures Decode(JObj(Set(fields, "requestId", id))) == WithRequestId(Decode(JObj(fields)), id)
  {
    var j := JObj(Set(fields, "requestId", id));
    SetLookup(fields, "requestId", id, "action");
    SetLookup(fields, "requestId", id, "path");
    SetLookup(fields, "requestId", id, "filter");
    SetLookup(fields, "requestId", id, "authorization");
    SetLookup(fields, "requestId", id, "dc");
    SetLookup(fields, "requestId", id, "value");
    SetLookup(fields, "requestId", id, "subscriptionId");
    SetLookup(fields, "requestId", id, "requestId");
  }

  /** The draft of each command reads back as that command without a
      request id, with the preview's path, filter and value. */
  lemma DraftReadsBack(codec: Codec, command: string, signals: seq<string>, setValue: string,
                       includeFilter: bool, filters: seq<Filter>, subs: Registry)
    requires |signals| > 0 || command == "unsubscribe"
    ensures var d := DraftCommand(codec, command, signals, setValue, includeFilter, filters, subs);
      var included := IncludedFilter(codec, command, signals, includeFilter, filters);
      && d.JObj?
      && (command == "get" ==>
            Decode(d) == Some(GetCmd(Some(PreviewPath(command, signals)), included, None, None, None)))
      && (command == "subscribe" ==>
            Decode(d) == Some(SubscribeCmd(Some(PreviewPath(command, signals)),
                                           Some(if included.Some? then included.value else DefaultSubscribeFilter),
                                           None, None, None)))
      && (command == "set" ==>
            Decode(d) == Some(SetCmd(Some(JStr(signals[0])), Some(JStr(SetText(setValue))), None, None))
            && Prop(d, "filter") == None)
      && (command == "unsubscribe" ==>
            Decode(d) == Some(UnsubscribeCmd(Some(Latest(subs)), None)) && Prop(d, "filter") == None)
      && (command !in ["get", "set", "subscribe", "unsubscribe"] ==> d == JObj([]))
  {
    if command == "get" {
      DraftGetReadsBack(codec, signals, setValue, includeFilter, filters, subs);
    } else if command == "set" {
      DraftSetReadsBack(codec, signals, setValue, includeFilter, filters, subs);
    } else if command == "subscribe" {
      DraftSubscribeReadsBack(codec, signals, setValue, includeFilter, filters, subs);
    } else if command == "unsubscribe" {
      DraftUnsubscribeReadsBack(codec, signals, setValue, includeFilter, filters, subs);
    }
  }

  /** The get draft: the preview's path and filter, nothing else. */
  lemma DraftGetReadsBack(codec: Codec, signals: seq<string>, setValue: string,
                          includeFilter: bool, filters: seq<Filter>, subs: Registry)
    requires |signals| > 0
    ensures var d := DraftCommand(codec, "get", signals, setValue, includeFilter, filters, subs);
      d.JObj? && Decode(d) == Some(GetCmd(Some(PreviewPath("get", signals)),
                                          IncludedFilter(codec, "get", signals, includeFilter, filters), None, None, None))
  {
    var options := PreviewOptions(IncludedFilter(codec, "get", signals, includeFilter, filters));
    BuildGetReadsBack(CommandPath("get", signals), options, "");
  }

  /** The set draft: the first signal and the value, no filter. */
  lemma DraftSetReadsBack(codec: Codec, signals: seq<string>, setValue: string,
                          includeFilter: bool, filters: seq<Filter>, subs: Registry)
    requires |signals| > 0
    ensures var d := DraftCommand(codec, "set", signals, setValue, includeFilter, filters, subs);
      && d.JObj?
      && Decode(d) == Some(SetCmd(Some(JStr(signals[0])), Some(JStr(SetText(setValue))), None, None))
      && Prop(d, "filter") == None
  {
    var options := PreviewOptions(IncludedFilter(codec, "set", signals, includeFilter, filters));
    BuildSetReadsBack(JStr(signals[0]), JStr(SetText(setValue)), options, "");
  }

  /** The subscribe draft: the preview's path and the included filter, or
      the default one. */
  lemma DraftSubscribeReadsBack(codec: Codec, signals: seq<string>, setValue: string,
                                includeFilter: bool, filters: seq<Filter>, subs: Registry)
    requires |signals| > 0
    ensures var d := DraftCommand(codec, "subscribe", signals, setValue, includeFilter, filters, subs);
      var included := IncludedFilter(codec, "subscribe", signals, includeFilter, filters);
      d.JObj? && Decode(d) == Some(SubscribeCmd(Some(PreviewPath("subscribe", signals)),
                                                Some(if included.Some? then included.value else DefaultSubscribeFilter),
                                                None, None, None))
  {
    var options := PreviewOptions(IncludedFilter(codec, "subscribe", signals, includeFilter, filters));
    BuildSubscribeReadsBack(CommandPath("subscribe", signals), options, "");
  }

  /** The unsubscribe draft: the latest subscription id, no filter. */
  lemma DraftUnsubscribeReadsBack(codec: Codec, signals: seq<string>, setValue: string,
                                  includeFilter: bool, filters: seq<Filter>, subs: Registry)
    ensures var d := DraftCommand(codec, "unsubscribe", signals, setValue, includeFilter, filters, subs);
      && d.JObj?
      && Decode(d) == Some(UnsubscribeCmd(Some(Latest(subs)), None))
      && Prop(d, "filter") == None
  {
    var d := DraftCommand(codec, "unsubscribe", signals, setValue, includeFilter, filters, subs);
    assert d == JObj([("action", JStr("unsubscribe")), ("subscriptionId", Latest(subs))]);
    forall k ensures Lookup(d.fields, k) ==
      if k == "action" then Some(JStr("unsubscribe")) else if k == "subscriptionId" then Some(Latest(subs)) else None
    {
      PairLookup("action", JStr("unsubscribe"), "subscriptionId", Latest(subs), k);
    }
  }

  /** The command-generation effect: no preview without signals (except for
      unsubscribe); otherwise a command object whose request id is the
      counter, whose action is the selected command and whose fields are
      those the selected command takes. */
  function PreviewCommand(codec: Codec, command: string, signals: seq<string>, setValue: string, counter: nat,
                          includeFilter: bool, filters: seq<Filter>, subs: Registry): (r: Option<Json>)
    ensures r.None? <==> |signals| == 0 && command != "unsubscribe"
    ensures r.Some? ==> r.value.JObj? && Prop(r.value, "requestId") == Some(JStr(NatToString(counter)))
    ensures r.Some? && command == "get" ==>
      Decode(r.value) == Some(GetCmd(Some(PreviewPath(command, signals)),
                                     IncludedFilter(codec, command, signals, includeFilter, filters),
                                     None, None, Some(JStr(NatToString(counter)))))
    ensures r.Some? && command == "subscribe" ==>
      var included := IncludedFilter(codec, command, signals, includeFilter, filters);
      Decode(r.value) == Some(SubscribeCmd(Some(PreviewPath(command, signals)),
                                           Some(if included.Some? then included.value else DefaultSubscribeFilter),
                                           None, None, Some(JStr(NatToString(counter)))))
    ensures r.Some? && command == "set" ==>
      && Decode(r.value) == Some(SetCmd(Some(JStr(signals[0])), Some(JStr(SetText(setValue))), None,
                                        Some(JStr(NatToString(counter)))))
      && Prop(r.value, "filter") == None
    ensures r.Some? && command == "unsubscribe" ==>
      && Decode(r.value) == Some(UnsubscribeCmd(Some(Latest(subs)), Some(JStr(NatToString(counter)))))
      && Prop(r.value, "filter") == None
    ensures r.Some? && command !in ["get", "set", "subscribe", "unsubscribe"] ==>
      r.value == JObj([("requestId", JStr(NatToString(counter)))])
  {
    if |signals| == 0 && command != "unsubscribe" then None
    else
      var included := IncludedFilter(codec, command, signals, includeFilter, filters);
      var options := PreviewOptions(included);
      var draft := DraftCommand(codec, command, signals, setValue, includeFilter, filters, subs);
      var r := Stamped(draft.fields, counter);
      StampedDecode(draft.fields, counter);
      if command == "get" then
        DraftGetReadsBack(codec, signals, setValue, includeFilter, filters, subs); Some(r)
      else if command == "set" then
        DraftSetReadsBack(codec, signals, setValue, includeFilter, filters, subs); Some(r)
      else if command == "subscribe" then
        DraftSubscribeReadsBack(codec, signals, setValue, includeFilter, filters, subs); Some(r)
      else if command == "unsubscribe" then
        DraftUnsubscribeReadsBack(codec, signals, setValue, includeFilter, filters, subs); Some(r)
      else Some(r)
  }

  /** `validateJson(text)` accepts blank text and text that parses. */
  predicate JsonAccepted(codec: Codec, text: string)
  {
    IsBlank(text) || ParseJson(codec, text).Ok?
  }

  /** The `jsonError` `validateJson(text)` leaves: empty exactly when the
      text is accepted. */
  function ValidationError(codec: Codec, text: string): (r: string)
    ensures r == "" <==> JsonAccepted(codec, text)
  {
    if IsBlank(text) then ""
    else match ParseJson(codec, text)
      case Ok(_) => ""
      case Err(e) => "Invalid JSON: " + e
  }

  /** What `handleSend` hands to `onSendCommand`: the parsed text with its
      request id set to the counter. Blank text passes validation but does
      not parse; a primitive or null cannot take a property in strict mode;
      an array takes it as a property that JSON leaves out, so it goes as
      it is. In these cases nothing is sent, except for the array. */
  function CommandToSend(codec: Codec, text: string, counter: nat): (r: Option<Json>)
    ensures r.Some? ==> JsonAccepted(codec, text) && !IsBlank(text)
    ensures r.Some? <==> ParseJson(codec, text).Ok? && IsObjectValue(ParseJson(codec, text).value)
    ensures r.Some? && ParseJson(codec, text).value.JObj? ==>
      var parsed := ParseJson(codec, text).value;
      && r.value.JObj?
      && Prop(r.value, "requestId") == Some(JStr(NatToString(counter)))
      && forall k :: k != "requestId" ==> Prop(r.value, k) == Prop(parsed, k)
    ensures r.Some? && ParseJson(codec, text).value.JArr? ==> r == Some(ParseJson(codec, text).value)
  {
    if !JsonAccepted(codec, text) then None
    else match ParseJson(codec, text)
      case Err(_) => None
      case Ok(cmd) =>
        if cmd.JObj? then
          StampedProps(cmd.fields, counter);
          Some(Stamped(cmd.fields, counter))
        else if cmd.JArr? then Some(cmd)
        else None
  }

  /** Sending the unedited preview sends exactly the previewed command,
      provided the codec reads its own indented output back. */
  lemma PreviewIsSent(codec: Codec, command: string, signals: seq<string>, setValue: string, counter: nat,
                      includeFilter: bool, filters: seq<Filter>, subs: Registry)
    requires PreviewCommand(codec, command, signals, setValue, counter, includeFilter, filters, subs).Some?
    requires var c := PreviewCommand(codec, command, signals, setValue, counter, includeFilter, filters, subs).value;
      !IsBlank(codec.stringifyIndented(c)) && codec.parse(codec.stringifyIndented(c)) == Ok(c)
    ensures var c := PreviewCommand(codec, command, signals, setValue, counter, includeFilter, filters, subs).value;
      CommandToSend(codec, codec.stringifyIndented(c), counter) == Some(c)
  {
    var c := PreviewCommand(codec, command, signals, setValue, counter, includeFilter, filters, subs).value;
    SetSame(c.fields, "requestId", JStr(NatToString(counter)));
  }

  /** The hook's state. */
  class BuilderState {
    const codec: Codec
    var selectedSignals: seq<string>
    var selectedCommand: string
    var setValue: string
    var generatedCommand: string
    var jsonError: string
    var requestIdCounter: nat
    var filters: seq<Filter>
    var includeFilter: bool
    var showCommandEditor: bool

    constructor (codec: Codec, defaultSelectedSignals: seq<string>)
      ensures this.codec == codec && selectedSignals == defaultSelectedSignals
      ensures selectedCommand == "get" && setValue == "" && generatedCommand == "" && jsonError == ""
      ensures requestIdCounter == 1 && filters == [] && !includeFilter && !showCommandEditor
    {
      this.codec := codec;
      selectedSignals := defaultSelectedSignals;
      selectedCommand := "get";
      setValue := "";
      generatedCommand := "";
      jsonError := "";
      requestIdCounter := 1;
      filters := [];
      includeFilter := false;
      showCommandEditor := false;
    }

    /** `addFilter()`. */
    method AddFilter()
      modifies this`filters
      ensures filters == old(filters) + [NewFilter]
    {
      filters := filters + [NewFilter];
    }

    /** `updateFilter(index, field, value)`: only that field of that slot
        changes; an index outside the list changes nothing. */
    method UpdateFilter(index: int, field: FilterField, value: string)
      modifies this`filters
      ensures |filters| == |old(filters)|
      ensures forall i :: 0 <= i < |filters| ==>
        filters[i] == if i == index then WithField(old(filters)[i], field, value) else old(filters)[i]
    {
      filters := seq(|filters|, i requires 0 <= i < |filters| reads this =>
        if i == index then WithField(filters[i], field, value) else filters[i]);
    }

    /** `removeFilter(index)`: that slot goes, the others keep their order. */
    method RemoveFilter(index: int)
      modifies this`filters
      ensures filters == if 0 <= index < |old(filters)| then old(filters)[..index] + old(filters)[index + 1..] else old(filters)
    {
      if 0 <= index < |filters| {
        filters := filters[..index] + filters[index + 1..];
      }
    }

    /** `handleCommandTypeChange(valueOrEvent)`: a chosen command is selected
        and switches the filter option off; anything else changes nothing. */
    method HandleCommandTypeChange(valueOrEvent: Json)
      modifies this`selectedCommand, this`includeFilter
      ensures CommandChoice(valueOrEvent).Some? ==>
        selectedCommand == CommandChoice(valueOrEvent).value && !includeFilter
      ensures CommandChoice(valueOrEvent).None? ==>
        selectedCommand == old(selectedCommand) && includeFilter == old(includeFilter)
    {
      var next := CommandChoice(valueOrEvent);
      if next.Some? {
        selectedCommand := next.value;
        includeFilter := false;
      }
    }

    /** The effect on `isExpanded`: collapsing switches both toggles off. */
    method ResetToggles(isExpanded: bool)
      modifies this`includeFilter, this`showCommandEditor
      ensures !isExpanded ==> !includeFilter && !showCommandEditor
      ensures isExpanded ==> includeFilter == old(includeFilter) && showCommandEditor == old(showCommandEditor)
    {
      if !isExpanded {
        includeFilter := false;
        showCommandEditor := false;
      }
    }

    /** The auto-manage effect, editing a copy of the list in place. */
    method AutoManageFilters()
      modifies this`filters
      ensures filters == ManagedFilters(old(filters), selectedCommand, selectedSignals, codec)
    {
      var newFilters := filters;
      if selectedCommand == "subscribe" {
        if !HasVariant(newFilters, "timebased") {
          newFilters := [DefaultTimebased] + newFilters;
        }
      } else {
        newFilters := DropAutoTimebased(newFilters);
      }
      assert newFilters == TimebasedStage(old(filters), selectedCommand);
      if (selectedCommand == "get" || selectedCommand == "subscribe") && |selectedSignals| > 1 {
        var parameter := PathsParameter(codec, selectedSignals);
        if !HasVariant(newFilters, "paths") {
          IndexOfVariantIsFirst(newFilters, "paths", |newFilters|);
          newFilters := newFilters + [Filter("paths", parameter)];
        } else {
          var i := FindVariant(newFilters, "paths");
          IndexOfVariantIsFirst(newFilters, "paths", i);
          newFilters := newFilters[i := newFilters[i].(parameter := parameter)];
        }
      } else if |selectedSignals| <= 1 {
        newFilters := DropPaths(newFilters);
      }
      filters := newFilters;
    }

    /** The command-generation effect: the indented JSON of the preview, or
        empty text when there is none. */
    method GenerateCommand(subscriptions: Registry)
      modifies this`generatedCommand
      ensures var preview := PreviewCommand(codec, selectedCommand, selectedSignals, setValue, requestIdCounter,
                                            includeFilter, filters, subscriptions);
        generatedCommand == if preview.Some? then codec.stringifyIndented(preview.value) else ""
    {
      var preview := PreviewCommand(codec, selectedCommand, selectedSignals, setValue, requestIdCounter,
                                    includeFilter, filters, subscriptions);
      if preview.None? {
        generatedCommand := "";
        return;
      }
      generatedCommand := codec.stringifyIndented(preview.value);
    }

    /** `validateJson(text)`. */
    method ValidateJson(text: string) returns (ok: bool)
      modifies this`jsonError
      ensures ok == JsonAccepted(codec, text) && jsonError == ValidationError(codec, text)
    {
      if IsBlank(text) {
        jsonError := "";
        return true;
      }
      match ParseJson(codec, text)
      case Ok(_) =>
        jsonError := "";
        ok := true;
      case Err(e) =>
        jsonError := "Invalid JSON: " + e;
        ok := false;
    }

    /** `handleJsonChange`: the edited text replaces the preview and is validated. */
    method HandleJsonChange(newValue: string)
      modifies this`generatedCommand, this`jsonError
      ensures generatedCommand == newValue && jsonError == ValidationError(codec, newValue)
    {
      generatedCommand := newValue;
      var _ := ValidateJson(newValue);
    }

    /** `handleSend()`: the command handed to `onSendCommand`, if any; the
        counter advances by one exactly when one was handed over. */
    method HandleSend() returns (sent: Option<Json>)
      modifies this`jsonError, this`requestIdCounter
      ensures jsonError == ValidationError(codec, generatedCommand)
      ensures sent == CommandToSend(codec, generatedCommand, old(requestIdCounter))
      ensures requestIdCounter == if sent.Some? then old(requestIdCounter) + 1 else old(requestIdCounter)
    {
      sent := None;
      var valid := ValidateJson(generatedCommand);
      if valid {
        var parsed := ParseJson(codec, generatedCommand);
        if parsed.Ok? {
          var cmd := parsed.value;
          if cmd.JObj? {
            sent := Some(Stamped(cmd.fields, requestIdCounter));
            requestIdCounter := requestIdCounter + 1;
          } else if cmd.JArr? {
            sent := Some(cmd);
            requestIdCounter := requestIdCounter + 1;
          }
        }
      }
    }
  }
}
