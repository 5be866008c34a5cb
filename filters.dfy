/** The filter list of the command builder: the variants still free for a
    slot, the parsing of a slot's parameter text, the JSON object a slot
    becomes in a command, and the automatic management of the time-based
    and paths filters when the command type or the selected signals change. */
module Filters {
  import opened Base
  import opened Json
  import OrderedMap

  /** A slot as the editor holds it: both fields are the text typed in. */
  datatype Filter = Filter(variant: string, parameter: string)

  /** The field `updateFilter` writes. */
  datatype FilterField = VariantField | ParameterField

  /** The VISS filter variants, in the order the editor offers them. */
  const AllVariants: seq<string> := ["paths", "timebased", "range", "change", "curvelog", "history", "metadata"]

  /** The slot `addFilter` appends. */
  const NewFilter: Filter := Filter("timebased", "")

  /** The parameter of the time-based filter added for subscriptions. */
  const DefaultPeriod: string := "{\"period\":\"1000\"}"
  const DefaultTimebased: Filter := Filter("timebased", DefaultPeriod)

  /** `{ ...filter, [field]: value }`. */
  function WithField(f: Filter, field: FilterField, value: string): Filter
  {
    match field
    case VariantField => f.(variant := value)
    case ParameterField => f.(parameter := value)
  }

  // ---------------------------------------------------------------------
  // Available variants
  // ---------------------------------------------------------------------

  /** Some slot other than `current` has variant `v`. */
  predicate UsedElsewhere(filters: seq<Filter>, current: int, v: string)
  {
    exists j :: 0 <= j < |filters| && j != current && filters[j].variant == v
  }

  lemma UsedElsewhereSnoc(filters: seq<Filter>, current: int, v: string)
    requires filters != []
    ensures var last := |filters| - 1;
      UsedElsewhere(filters, current, v) <==>
        UsedElsewhere(filters[..last], current, v) || (last != current && filters[last].variant == v)
  {
    var last := |filters| - 1;
    if UsedElsewhere(filters, current, v) {
      var j :| 0 <= j < |filters| && j != current && filters[j].variant == v;
      if j < last { assert filters[..last][j] == filters[j]; }
    }
    if UsedElsewhere(filters[..last], current, v) {
      var j :| 0 <= j < last && j != current && filters[..last][j].variant == v;
      assert filters[j] == filters[..last][j];
    }
  }

  /** The non-empty variants of the slots other than `current`. */
  function UsedVariants(filters: seq<Filter>, current: int): (r: seq<string>)
    ensures forall v :: v in r <==> v != "" && UsedElsewhere(filters, current, v)
    decreases |filters|
  {
    if filters == [] then []
    else
      var last := |filters| - 1;
      var r := UsedVariants(filters[..last], current)
        + (if last != current && filters[last].variant != "" then [filters[last].variant] else []);
      forall v ensures v in r <==> v != "" && UsedElsewhere(filters, current, v) {
        UsedElsewhereSnoc(filters, current, v);
      }
      r
  }

  /** The elements of `vs` not in `used`, in their order. */
  function Unused(vs: seq<string>, used: seq<string>): (r: seq<string>)
    ensures forall v :: v in r <==> v in vs && v !in used
  {
    if vs == [] then []
    else
      assert vs == [vs[0]] + vs[1..];
      (if vs[0] in used then [] else [vs[0]]) + Unused(vs[1..], used)
  }

  /** `a` is `b` with some elements left out. */
  predicate Subsequence<T(==)>(a: seq<T>, b: seq<T>)
    decreases |b|
  {
    a == [] || (b != [] && ((a[0] == b[0] && Subsequence(a[1..], b[1..])) || Subsequence(a, b[1..])))
  }

  lemma {:induction false} UnusedSubsequence(vs: seq<string>, used: seq<string>)
    ensures Subsequence(Unused(vs, used), vs)
  {
    if vs != [] {
      UnusedSubsequence(vs[1..], used);
      var r := Unused(vs, used);
      if vs[0] !in used {
        assert r[0] == vs[0] && r[1..] == Unused(vs[1..], used);
        assert Subsequence(r[1..], vs[1..]);
      } else {
        assert r == Unused(vs[1..], used);
        assert Subsequence(r, vs[1..]);
      }
    }
  }

  /** `getAvailableVariants(current)`: the seven variants, in order, except
      those some other slot already uses. */
  function AvailableVariants(filters: seq<Filter>, current: int): (r: seq<string>)
    ensures forall v :: v in r <==> v in AllVariants && !UsedElsewhere(filters, current, v)
    ensures Subsequence(r, AllVariants)
  {
    UnusedSubsequence(AllVariants, UsedVariants(filters, current));
    Unused(AllVariants, UsedVariants(filters, current))
  }

  /** A slot is offered its own variant exactly while no other slot holds
      the same variant. */
  lemma OwnVariantAvailable(filters: seq<Filter>, i: nat)
    requires i < |filters| && filters[i].variant in AllVariants
    ensures filters[i].variant in AvailableVariants(filters, i) <==>
      forall j :: 0 <= j < |filters| && j != i ==> filters[j].variant != filters[i].variant
  {
  }

  /** `addFilter` twice gives two time-based slots, and each hides the
      time-based variant from the other. */
  lemma DuplicateSlotsHideVariant()
    ensures "timebased" !in AvailableVariants([NewFilter, NewFilter], 0)
    ensures "timebased" !in AvailableVariants([NewFilter, NewFilter], 1)
  {
    assert UsedElsewhere([NewFilter, NewFilter], 0, "timebased") by {
      assert [NewFilter, NewFilter][1].variant == "timebased";
    }
    assert UsedElsewhere([NewFilter, NewFilter], 1, "timebased") by {
      assert [NewFilter, NewFilter][0].variant == "timebased";
    }
  }

  /** With index -1 no slot is exempt, so once all seven variants are in
      use nothing is offered. */
  lemma AllUsedNoneAvailable(filters: seq<Filter>)
    requires forall v :: v in AllVariants ==> exists j :: 0 <= j < |filters| && filters[j].variant == v
    ensures AvailableVariants(filters, -1) == []
  {
    var used := UsedVariants(filters, -1);
    forall v | v in AllVariants ensures v in used {
      var j :| 0 <= j < |filters| && filters[j].variant == v;
      assert UsedElsewhere(filters, -1, v);
    }
    UnusedAllUsed(AllVariants, used);
  }

  lemma {:induction false} UnusedAllUsed(vs: seq<string>, used: seq<string>)
    requires forall v :: v in vs ==> v in used
    ensures Unused(vs, used) == []
  {
    if vs != [] {
      assert vs[0] in vs;
      UnusedAllUsed(vs[1..], used);
    }
  }

  // ---------------------------------------------------------------------
  // Parameters
  // ---------------------------------------------------------------------

  /** `.filter(Boolean)` on strings. */
  function DropEmpty(pieces: seq<string>): (r: seq<string>)
    ensures forall p :: p in r <==> p in pieces && p != []
  {
    if pieces == [] then []
    else
      assert pieces == [pieces[0]] + pieces[1..];
      (if pieces[0] == [] then [] else [pieces[0]]) + DropEmpty(pieces[1..])
  }

  /** `t.split(",").map(s => s.trim()).filter(Boolean)`: every piece is
      non-empty, trimmed and free of commas, and every non-blank piece of
      the text is one of them. */
  function CsvPieces(t: string): (r: seq<string>)
    ensures forall p :: p in r ==> p != [] && ',' !in p && Trim(p) == p
    ensures forall i :: 0 <= i < |Split(t, ',')| && Trim(Split(t, ',')[i]) != [] ==> Trim(Split(t, ',')[i]) in r
  {
    var parts := Split(t, ',');
    var trimmed := TrimAll(parts);
    TrimmedPiecesClean(parts);
    DropEmpty(trimmed)
  }

  /** `.filter(Boolean)` keeps the non-empty pieces in their order, each as
      often as it occurs. */
  lemma {:induction false} DropEmptyKeepsOrder(pieces: seq<string>)
    ensures Subsequence(DropEmpty(pieces), pieces)
    ensures forall p :: multiset(DropEmpty(pieces))[p] == if p == [] then 0 else multiset(pieces)[p]
  {
    if pieces != [] {
      DropEmptyKeepsOrder(pieces[1..]);
      var r := DropEmpty(pieces);
      var rest := DropEmpty(pieces[1..]);
      assert pieces == [pieces[0]] + pieces[1..];
      if pieces[0] == [] {
        assert r == rest;
      } else {
        assert r == [pieces[0]] + rest;
        assert r[0] == pieces[0] && r[1..] == rest;
      }
    }
  }

  /** The pieces are the trimmed comma-separated parts of the text, in their
      order, with the empty ones left out. */
  lemma CsvPiecesInOrder(t: string)
    ensures var trimmed := TrimAll(Split(t, ','));
      && Subsequence(CsvPieces(t), trimmed)
      && forall p :: multiset(CsvPieces(t))[p] == if p == [] then 0 else multiset(trimmed)[p]
  {
    DropEmptyKeepsOrder(TrimAll(Split(t, ',')));
  }

  /** `.map(s => s.trim())`. */
  function TrimAll(parts: seq<string>): (r: seq<string>)
    ensures |r| == |parts| && forall i :: 0 <= i < |parts| ==> r[i] == Trim(parts[i])
  {
    seq(|parts|, i requires 0 <= i < |parts| => Trim(parts[i]))
  }

  lemma TrimmedPiecesClean(parts: seq<string>)
    requires forall i :: 0 <= i < |parts| ==> ',' !in parts[i]
    ensures forall p :: p in TrimAll(parts) ==> ',' !in p && Trim(p) == p
    ensures forall i :: 0 <= i < |parts| ==> Trim(parts[i]) in TrimAll(parts)
  {
    var trimmed := TrimAll(parts);
    forall i | 0 <= i < |parts| ensures ',' !in trimmed[i] && Trim(trimmed[i]) == trimmed[i] {
      TrimIdempotent(parts[i]);
      TrimKeepsOut(parts[i], ',');
    }
    assert forall i :: 0 <= i < |parts| ==> trimmed[i] in trimmed;
  }

  /** A JSON array of strings. */
  function StringArray(ss: seq<string>): (r: Json)
    ensures r.JArr? && |r.items| == |ss| && StringLeaves(r)
    ensures forall i :: 0 <= i < |ss| ==> r.items[i] == JStr(ss[i])
  {
    JArr(seq(|ss|, i requires 0 <= i < |ss| => JStr(ss[i])))
  }

  /** `parseFilterParameter(input, variant)`: nothing for blank text; the
      parsed JSON with every leaf made a string; for `paths`, comma-separated
      text as an array of its pieces; otherwise the trimmed text. Whatever
      it gives has only strings at its leaves. */
  function ParseFilterParameter(codec: Codec, input: string, variant: string): (r: Option<Json>)
    ensures r.None? <==> IsBlank(input)
    ensures r.Some? ==> StringLeaves(r.value)
    ensures !IsBlank(input) && ParseJson(codec, Trim(input)).Ok? ==>
      r == Some(ToStringValues(ParseJson(codec, Trim(input)).value))
    ensures !IsBlank(input) && ParseJson(codec, Trim(input)).Err? ==>
      r == Some(if variant == "paths" && ',' in Trim(input) then StringArray(CsvPieces(Trim(input))) else JStr(Trim(input)))
  {
    var trimmed := Trim(input);
    if trimmed == [] then None
    else match ParseJson(codec, trimmed)
      case Ok(parsed) => Some(ToStringValues(parsed))
      case Err(_) =>
        if variant == "paths" && ',' in trimmed then Some(StringArray(CsvPieces(trimmed)))
        else Some(JStr(trimmed))
  }

  /** `{variant, ...(parameter ? {parameter: parse(parameter)} : {})}` as
      serialized: an undefined parameter is left out. */
  function FilterObject(codec: Codec, f: Filter): (r: Json)
    ensures r.JObj? && OrderedMap.DistinctKeys(r.fields)
    ensures Prop(r, "variant") == Some(JStr(f.variant))
    ensures Prop(r, "parameter") == if f.parameter == "" then None else ParseFilterParameter(codec, f.parameter, f.variant)
    ensures forall k :: k != "variant" && k != "parameter" ==> Prop(r, k) == None
  {
    VariantObject(f.variant, if f.parameter == "" then None else ParseFilterParameter(codec, f.parameter, f.variant))
  }

  /** The object `{variant, parameter}`, with `parameter` left out when it
      is undefined. */
  function VariantObject(variant: string, parameter: Option<Json>): (r: Json)
    ensures r.JObj? && OrderedMap.DistinctKeys(r.fields)
    ensures Prop(r, "variant") == Some(JStr(variant))
    ensures Prop(r, "parameter") == parameter
    ensures forall k :: k != "variant" && k != "parameter" ==> Prop(r, k) == None
  {
    if parameter.Some? then
      forall k ensures OrderedMap.Lookup([("variant", JStr(variant)), ("parameter", parameter.value)], k) ==
        if k == "variant" then Some(JStr(variant)) else if k == "parameter" then parameter else None
      {
        OrderedMap.PairLookup("variant", JStr(variant), "parameter", parameter.value, k);
      }
      JObj([("variant", JStr(variant)), ("parameter", parameter.value)])
    else
      forall k ensures OrderedMap.Lookup([("variant", JStr(variant))], k) ==
        if k == "variant" then Some(JStr(variant)) else None
      {
        OrderedMap.SingleLookup("variant", JStr(variant), k);
      }
      JObj([("variant", JStr(variant))])
  }

  // ---------------------------------------------------------------------
  // Automatic filter management
  // ---------------------------------------------------------------------

  /** `fs.some(f => f.variant === v)`. */
  predicate HasVariant(fs: seq<Filter>, v: string)
  {
    exists i :: 0 <= i < |fs| && fs[i].variant == v
  }

  /** The time-based filter the subscribe mode adds, recognised by its
      exact parameter text. */
  predicate IsAutoTimebased(f: Filter)
  {
    f.variant == "timebased" && f.parameter == DefaultPeriod
  }

  function DropAutoTimebased(fs: seq<Filter>): seq<Filter>
  {
    if fs == [] then []
    else
      assert fs == [fs[0]] + fs[1..];
      (if IsAutoTimebased(fs[0]) then [] else [fs[0]]) + DropAutoTimebased(fs[1..])
  }

  /** The filtering keeps exactly the filters that are not the default
      time-based one. */
  lemma {:induction false} DropAutoTimebasedMembers(fs: seq<Filter>)
    ensures forall f :: f in DropAutoTimebased(fs) <==> f in fs && !IsAutoTimebased(f)
  {
    if fs != [] {
      DropAutoTimebasedMembers(fs[1..]);
      assert fs == [fs[0]] + fs[1..];
    }
  }

  /** The filtering keeps the other filters in their order, each as often
      as it occurs. */
  lemma {:induction false} DropAutoTimebasedKeepsOrder(fs: seq<Filter>)
    ensures Subsequence(DropAutoTimebased(fs), fs)
    ensures forall f :: multiset(DropAutoTimebased(fs))[f] == if IsAutoTimebased(f) then 0 else multiset(fs)[f]
  {
    if fs != [] {
      DropAutoTimebasedKeepsOrder(fs[1..]);
      var r := DropAutoTimebased(fs);
      var rest := DropAutoTimebased(fs[1..]);
      assert fs == [fs[0]] + fs[1..];
      if IsAutoTimebased(fs[0]) {
        assert r == rest;
      } else {
        assert r == [fs[0]] + rest;
        assert r[0] == fs[0] && r[1..] == rest;
      }
    }
  }

  function DropPaths(fs: seq<Filter>): seq<Filter>
  {
    if fs == [] then []
    else
      assert fs == [fs[0]] + fs[1..];
      (if fs[0].variant == "paths" then [] else [fs[0]]) + DropPaths(fs[1..])
  }

  /** The filtering keeps exactly the filters that are not paths filters. */
  lemma {:induction false} DropPathsMembers(fs: seq<Filter>)
    ensures forall f :: f in DropPaths(fs) <==> f in fs && f.variant != "paths"
  {
    if fs != [] {
      DropPathsMembers(fs[1..]);
      assert fs == [fs[0]] + fs[1..];
    }
  }

  /** The filtering keeps the other filters in their order, each as often
      as it occurs. */
  lemma {:induction false} DropPathsKeepsOrder(fs: seq<Filter>)
    ensures Subsequence(DropPaths(fs), fs)
    ensures forall f :: multiset(DropPaths(fs))[f] == if f.variant == "paths" then 0 else multiset(fs)[f]
  {
    if fs != [] {
      DropPathsKeepsOrder(fs[1..]);
      var r := DropPaths(fs);
      var rest := DropPaths(fs[1..]);
      assert fs == [fs[0]] + fs[1..];
      if fs[0].variant == "paths" {
        assert r == rest;
      } else {
        assert r == [fs[0]] + rest;
        assert r[0] == fs[0] && r[1..] == rest;
      }
    }
  }

  /** `fs.findIndex(f => f.variant === v)`, with `|fs|` for "none". */
  function IndexOfVariant(fs: seq<Filter>, v: string): (r: nat)
    ensures r <= |fs|
    ensures r < |fs| ==> fs[r].variant == v
    ensures forall j :: 0 <= j < r ==> fs[j].variant != v
  {
    if fs == [] then 0
    else if fs[0].variant == v then 0
    else 1 + IndexOfVariant(fs[1..], v)
  }

  /** The first slot with a variant is the one `IndexOfVariant` finds. */
  lemma {:induction false} IndexOfVariantIsFirst(fs: seq<Filter>, v: string, i: nat)
    requires i <= |fs| && (i < |fs| ==> fs[i].variant == v)
    requires forall j :: 0 <= j < i ==> fs[j].variant != v
    ensures IndexOfVariant(fs, v) == i
  {
    if fs != [] && i > 0 {
      IndexOfVariantIsFirst(fs[1..], v, i - 1);
    }
  }

  /** `findIndex` as a loop: the first slot with variant `v`, or -1. */
  method FindVariant(fs: seq<Filter>, v: string) returns (i: int)
    ensures -1 <= i < |fs|
    ensures i >= 0 ==> fs[i].variant == v && forall j :: 0 <= j < i ==> fs[j].variant != v
    ensures i == -1 ==> forall j :: 0 <= j < |fs| ==> fs[j].variant != v
  {
    var k := 0;
    while k < |fs|
      invariant 0 <= k <= |fs|
      invariant forall j :: 0 <= j < k ==> fs[j].variant != v
    {
      if fs[k].variant == v {
        return k;
      }
      k := k + 1;
    }
    return -1;
  }

  /** The selected signals without a leading "Vehicle.", as a JSON array. */
  function PathsArray(signals: seq<string>): Json
  {
    StringArray(seq(|signals|, i requires 0 <= i < |signals| => StripVehiclePrefix(signals[i])))
  }

  /** The parameter text of the automatic paths filter. */
  function PathsParameter(codec: Codec, signals: seq<string>): string
  {
    codec.stringify(PathsArray(signals))
  }

  /** Several signals under get or subscribe go out as one paths filter. */
  predicate WantsPaths(command: string, signals: seq<string>)
  {
    (command == "get" || command == "subscribe") && |signals| > 1
  }

  /** The first half of the effect: a subscription gets the default
      time-based filter in front when it has none; every other command
      loses the default one. */
  function TimebasedStage(fs: seq<Filter>, command: string): seq<Filter>
  {
    if command == "subscribe" then
      (if HasVariant(fs, "timebased") then fs else [DefaultTimebased] + fs)
    else DropAutoTimebased(fs)
  }

  /** The second half: the first paths filter is set to (or a new one is
      appended with) the selected paths; with at most one signal the paths
      filters go. */
  function PathsStage(fs: seq<Filter>, command: string, signals: seq<string>, codec: Codec): seq<Filter>
  {
    if WantsPaths(command, signals) then
      var p := PathsParameter(codec, signals);
      var i := IndexOfVariant(fs, "paths");
      if i == |fs| then fs + [Filter("paths", p)] else fs[i := fs[i].(parameter := p)]
    else if |signals| <= 1 then DropPaths(fs)
    else fs
  }

  /** What the auto-manage effect leaves in the filter list. */
  function ManagedFilters(fs: seq<Filter>, command: string, signals: seq<string>, codec: Codec): seq<Filter>
  {
    PathsStage(TimebasedStage(fs, command), command, signals, codec)
  }

  /** The paths stage touches only paths filters. */
  lemma PathsStageKeepsOthers(fs: seq<Filter>, command: string, signals: seq<string>, codec: Codec, f: Filter)
    requires f.variant != "paths"
    ensures f in PathsStage(fs, command, signals, codec) <==> f in fs
  {
    var r := PathsStage(fs, command, signals, codec);
    DropPathsMembers(fs);
    if WantsPaths(command, signals) {
      var i := IndexOfVariant(fs, "paths");
      if i < |fs| {
        if f in r {
          var j :| 0 <= j < |r| && r[j] == f;
          assert j != i;
          assert fs[j] == f;
        }
        if f in fs {
          var j :| 0 <= j < |fs| && fs[j] == f;
          assert j != i;
          assert r[j] == f;
        }
      }
    }
  }

  lemma {:induction false} DropPathsAppend(a: seq<Filter>, b: seq<Filter>)
    ensures DropPaths(a + b) == DropPaths(a) + DropPaths(b)
  {
    if a == [] {
      assert a + b == b;
    } else {
      var h := a[0];
      var c := a[1..] + b;
      var head := if h.variant == "paths" then [] else [h];
      calc {
        DropPaths(a + b);
      == { assert a + b == [h] + c; }
        DropPaths([h] + c);
      == { assert ([h] + c)[1..] == c; }
        head + DropPaths(c);
      == { DropPathsAppend(a[1..], b); }
        head + (DropPaths(a[1..]) + DropPaths(b));
      ==
        DropPaths(a) + DropPaths(b);
      }
    }
  }

  /** Changing a paths filter into another paths filter is invisible once
      the paths filters are dropped. */
  lemma {:induction false} DropPathsUpdate(m: seq<Filter>, i: nat, f: Filter)
    requires i < |m| && m[i].variant == "paths" && f.variant == "paths"
    ensures DropPaths(m[i := f]) == DropPaths(m)
  {
    if i > 0 {
      DropPathsUpdate(m[1..], i - 1, f);
      assert m[i := f][1..] == m[1..][i - 1 := f];
    } else {
      assert m[i := f][1..] == m[1..];
    }
  }

  lemma DropPathsTwice(m: seq<Filter>)
    ensures DropPaths(DropPaths(m)) == DropPaths(m)
  {
    var d := DropPaths(m);
    DropPathsMembers(m);
    assert !HasVariant(d, "paths") by {
      forall i | 0 <= i < |d| ensures d[i].variant != "paths" {
        assert d[i] in d;
      }
    }
    DropPathsNone(d);
  }

  /** Apart from the paths filters, the paths stage changes nothing. */
  lemma PathsStageOthers(m: seq<Filter>, command: string, signals: seq<string>, codec: Codec)
    ensures DropPaths(PathsStage(m, command, signals, codec)) == DropPaths(m)
  {
    if WantsPaths(command, signals) {
      var p := PathsParameter(codec, signals);
      var i := IndexOfVariant(m, "paths");
      if i == |m| {
        DropPathsAppend(m, [Filter("paths", p)]);
        assert DropPaths([Filter("paths", p)]) == [];
      } else {
        DropPathsUpdate(m, i, m[i].(parameter := p));
      }
    } else if |signals| <= 1 {
      DropPathsTwice(m);
    }
  }

  lemma DropPathsCons(h: Filter, t: seq<Filter>)
    ensures h.variant == "paths" ==> DropPaths([h] + t) == DropPaths(t)
    ensures h.variant != "paths" ==> DropPaths([h] + t) == [h] + DropPaths(t)
  {
    assert ([h] + t)[1..] == t;
  }

  lemma DropAutoTimebasedCons(h: Filter, t: seq<Filter>)
    ensures IsAutoTimebased(h) ==> DropAutoTimebased([h] + t) == DropAutoTimebased(t)
    ensures !IsAutoTimebased(h) ==> DropAutoTimebased([h] + t) == [h] + DropAutoTimebased(t)
  {
    assert ([h] + t)[1..] == t;
  }

  /** Dropping the default time-based filters and dropping the paths
      filters can be done in either order. */
  lemma {:induction false} DropsCommute(fs: seq<Filter>)
    ensures DropPaths(DropAutoTimebased(fs)) == DropAutoTimebased(DropPaths(fs))
  {
    if fs != [] {
      var h := fs[0];
      var t := fs[1..];
      assert fs == [h] + t;
      if IsAutoTimebased(h) {
        calc {
          DropPaths(DropAutoTimebased(fs));
        == { DropAutoTimebasedCons(h, t); }
          DropPaths(DropAutoTimebased(t));
        == { DropsCommute(t); }
          DropAutoTimebased(DropPaths(t));
        == { DropAutoTimebasedCons(h, DropPaths(t)); }
          DropAutoTimebased([h] + DropPaths(t));
        == { DropPathsCons(h, t); }
          DropAutoTimebased(DropPaths(fs));
        }
      } else if h.variant == "paths" {
        calc {
          DropPaths(DropAutoTimebased(fs));
        == { DropAutoTimebasedCons(h, t); }
          DropPaths([h] + DropAutoTimebased(t));
        == { DropPathsCons(h, DropAutoTimebased(t)); }
          DropPaths(DropAutoTimebased(t));
        == { DropsCommute(t); }
          DropAutoTimebased(DropPaths(t));
        == { DropPathsCons(h, t); }
          DropAutoTimebased(DropPaths(fs));
        }
      } else {
        calc {
          DropPaths(DropAutoTimebased(fs));
        == { DropAutoTimebasedCons(h, t); }
          DropPaths([h] + DropAutoTimebased(t));
        == { DropPathsCons(h, DropAutoTimebased(t)); }
          [h] + DropPaths(DropAutoTimebased(t));
        == { DropsCommute(t); }
          [h] + DropAutoTimebased(DropPaths(t));
        == { DropAutoTimebasedCons(h, DropPaths(t)); }
          DropAutoTimebased([h] + DropPaths(t));
        == { DropPathsCons(h, t); }
          DropAutoTimebased(DropPaths(fs));
        }
      }
    }
  }

  /** The whole effect touches only paths filters and default time-based
      filters: the others keep their order and multiplicity. */
  lemma ManagedKeepsOthers(fs: seq<Filter>, command: string, signals: seq<string>, codec: Codec)
    ensures DropPaths(ManagedFilters(fs, command, signals, codec)) == DropPaths(TimebasedStage(fs, command))
  {
    PathsStageOthers(TimebasedStage(fs, command), command, signals, codec);
  }

  /** The time-based stage keeps every paths filter, so a paths filter
      present before it is present after it. */
  lemma TimebasedStageKeepsPaths(fs: seq<Filter>, command: string)
    requires HasVariant(fs, "paths")
    ensures HasVariant(TimebasedStage(fs, command), "paths")
  {
    DropAutoTimebasedMembers(fs);
    var m := TimebasedStage(fs, command);
    var j :| 0 <= j < |fs| && fs[j].variant == "paths";
    if command == "subscribe" {
      if !HasVariant(fs, "timebased") { assert m[j + 1] == fs[j]; }
    } else {
      assert fs[j] in fs;
      assert fs[j] in m;
      var k :| 0 <= k < |m| && m[k] == fs[j];
    }
  }

  /** The time-based stage brings in no paths filter. */
  lemma TimebasedStageNoPaths(fs: seq<Filter>, command: string)
    requires !HasVariant(fs, "paths")
    ensures !HasVariant(TimebasedStage(fs, command), "paths")
  {
    DropAutoTimebasedMembers(fs);
    var m := TimebasedStage(fs, command);
    forall i | 0 <= i < |m| ensures m[i].variant != "paths" {
      if command == "subscribe" && !HasVariant(fs, "timebased") {
        if i > 0 { assert m[i] == fs[i - 1]; }
      } else if command != "subscribe" {
        assert m[i] in m;
        var j :| 0 <= j < |fs| && fs[j] == m[i];
      }
    }
  }

  /** Under subscribe a time-based filter is always there afterwards; if
      there was none, the default one is the first slot. */
  lemma ManagedSubscribe(fs: seq<Filter>, signals: seq<string>, codec: Codec)
    ensures var r := ManagedFilters(fs, "subscribe", signals, codec);
      && HasVariant(r, "timebased")
      && (!HasVariant(fs, "timebased") ==> r[0] == DefaultTimebased)
  {
    var m := TimebasedStage(fs, "subscribe");
    var r := ManagedFilters(fs, "subscribe", signals, codec);
    var k :| 0 <= k < |m| && m[k].variant == "timebased";
    PathsStageKeepsOthers(m, "subscribe", signals, codec, m[k]);
    assert m[k] in r;
    var j :| 0 <= j < |r| && r[j] == m[k];
    if !HasVariant(fs, "timebased") {
      assert m[0] == DefaultTimebased;
      if WantsPaths("subscribe", signals) {
        var i := IndexOfVariant(m, "paths");
        if i < |m| { assert i != 0; }
      } else {
        assert r == DropPaths(m);
        assert m == [m[0]] + m[1..];
      }
    }
  }

  /** Under any other command no default time-based filter remains, and
      every filter that is neither that default nor a paths filter stays. */
  lemma ManagedOtherCommand(fs: seq<Filter>, command: string, signals: seq<string>, codec: Codec)
    requires command != "subscribe"
    ensures var r := ManagedFilters(fs, command, signals, codec);
      && (forall i :: 0 <= i < |r| ==> !IsAutoTimebased(r[i]))
      && (forall f :: f in fs && !IsAutoTimebased(f) && f.variant != "paths" ==> f in r)
      && DropPaths(r) == DropAutoTimebased(DropPaths(fs))
  {
    DropAutoTimebasedMembers(fs);
    ManagedKeepsOthers(fs, command, signals, codec);
    DropsCommute(fs);
    ManagedNoDefault(fs, command, signals, codec);
    var m := TimebasedStage(fs, command);
    var r := ManagedFilters(fs, command, signals, codec);
    forall f | f in fs && !IsAutoTimebased(f) && f.variant != "paths" ensures f in r {
      PathsStageKeepsOthers(m, command, signals, codec, f);
    }
  }

  /** Under any command but subscribe no default time-based filter remains. */
  lemma ManagedNoDefault(fs: seq<Filter>, command: string, signals: seq<string>, codec: Codec)
    requires command != "subscribe"
    ensures var r := ManagedFilters(fs, command, signals, codec);
      forall i :: 0 <= i < |r| ==> !IsAutoTimebased(r[i])
  {
    DropAutoTimebasedMembers(fs);
    var m := TimebasedStage(fs, command);
    var r := ManagedFilters(fs, command, signals, codec);
    forall i | 0 <= i < |r| ensures !IsAutoTimebased(r[i]) {
      if r[i].variant != "paths" {
        PathsStageKeepsOthers(m, command, signals, codec, r[i]);
      }
    }
  }

  /** Several signals under get or subscribe: the first paths filter holds
      the selected paths. */
  lemma ManagedPathsFirst(fs: seq<Filter>, command: string, signals: seq<string>, codec: Codec)
    requires WantsPaths(command, signals)
    ensures var r := ManagedFilters(fs, command, signals, codec);
      var i := IndexOfVariant(r, "paths");
      i < |r| && r[i].parameter == PathsParameter(codec, signals)
  {
    var m := TimebasedStage(fs, command);
    var r := ManagedFilters(fs, command, signals, codec);
    var p := PathsParameter(codec, signals);
    var i := IndexOfVariant(m, "paths");
    if i == |m| {
      assert r == m + [Filter("paths", p)];
      IndexOfVariantIsFirst(r, "paths", |m|);
    } else {
      assert r == m[i := m[i].(parameter := p)];
      IndexOfVariantIsFirst(r, "paths", i);
    }
  }

  /** Several signals under get or subscribe: the first paths filter holds
      the selected paths and is updated in place, every other slot staying
      as the time-based stage left it; if there was no paths filter,
      exactly one is added, as the last slot. */
  lemma ManagedPaths(fs: seq<Filter>, command: string, signals: seq<string>, codec: Codec)
    requires WantsPaths(command, signals)
    ensures var r := ManagedFilters(fs, command, signals, codec);
      var i := IndexOfVariant(r, "paths");
      && i < |r| && r[i].parameter == PathsParameter(codec, signals)
      && (!HasVariant(fs, "paths") ==>
            && r == TimebasedStage(fs, command) + [Filter("paths", PathsParameter(codec, signals))]
            && forall j :: 0 <= j < |r| - 1 ==> r[j].variant != "paths")
      && (HasVariant(fs, "paths") ==>
            var m := TimebasedStage(fs, command);
            && i < |m| && i == IndexOfVariant(m, "paths") && |r| == |m|
            && r[i] == m[i].(parameter := PathsParameter(codec, signals))
            && forall j :: 0 <= j < |m| && j != i ==> r[j] == m[j])
  {
    var m := TimebasedStage(fs, command);
    var r := ManagedFilters(fs, command, signals, codec);
    var p := PathsParameter(codec, signals);
    var i := IndexOfVariant(m, "paths");
    if i == |m| {
      assert r == m + [Filter("paths", p)];
      IndexOfVariantIsFirst(r, "paths", |m|);
    } else {
      assert r == m[i := m[i].(parameter := p)];
      IndexOfVariantIsFirst(r, "paths", i);
    }
    if !HasVariant(fs, "paths") {
      TimebasedStageNoPaths(fs, command);
      assert i == |m|;
    } else {
      TimebasedStageKeepsPaths(fs, command);
      var k :| 0 <= k < |m| && m[k].variant == "paths";
      assert i < |m|;
    }
  }

  /** With at most one signal no paths filter remains. */
  lemma ManagedFewSignals(fs: seq<Filter>, command: string, signals: seq<string>, codec: Codec)
    requires |signals| <= 1
    ensures !HasVariant(ManagedFilters(fs, command, signals, codec), "paths")
  {
    var r := ManagedFilters(fs, command, signals, codec);
    DropPathsMembers(TimebasedStage(fs, command));
    forall i | 0 <= i < |r| ensures r[i].variant != "paths" {
      assert r[i] in r;
    }
  }

  lemma {:induction false} DropAutoTimebasedNone(fs: seq<Filter>)
    requires forall i :: 0 <= i < |fs| ==> !IsAutoTimebased(fs[i])
    ensures DropAutoTimebased(fs) == fs
  {
    if fs != [] {
      DropAutoTimebasedNone(fs[1..]);
      assert fs == [fs[0]] + fs[1..];
    }
  }

  lemma {:induction false} DropPathsNone(fs: seq<Filter>)
    requires !HasVariant(fs, "paths")
    ensures DropPaths(fs) == fs
  {
    if fs != [] {
      assert !HasVariant(fs[1..], "paths") by {
        forall i | 0 <= i < |fs| - 1 ensures fs[1..][i].variant != "paths" {
          assert fs[1..][i] == fs[i + 1];
        }
      }
      DropPathsNone(fs[1..]);
      assert fs == [fs[0]] + fs[1..];
    }
  }

  /** Running the effect a second time on its own result changes nothing,
      so it may re-run for the same command and signals without effect. */
  lemma ManagedIdempotent(fs: seq<Filter>, command: string, signals: seq<string>, codec: Codec)
    ensures var r := ManagedFilters(fs, command, signals, codec);
      ManagedFilters(r, command, signals, codec) == r
  {
    var r := ManagedFilters(fs, command, signals, codec);
    if command == "subscribe" {
      ManagedSubscribe(fs, signals, codec);
      assert TimebasedStage(r, command) == r;
    } else {
      ManagedNoDefault(fs, command, signals, codec);
      DropAutoTimebasedNone(r);
      assert TimebasedStage(r, command) == r;
    }
    if WantsPaths(command, signals) {
      ManagedPathsFirst(fs, command, signals, codec);
      var i := IndexOfVariant(r, "paths");
      assert r[i := r[i].(parameter := PathsParameter(codec, signals))] == r;
    } else if |signals| <= 1 {
      ManagedFewSignals(fs, command, signals, codec);
      DropPathsNone(r);
    }
  }
}
