/** The session's rolling message log: `addMessage` appends an entry and
    keeps only the 20 most recent (`[...prev, m].slice(-20)`). */
module MessageLog {

  datatype MessageType = Sent | Received | System | Error

  /** A log entry; `timestamp` is the text `toLocaleTimeString()` gave,
      which the model takes as an opaque input. */
  datatype Message = Message(kind: MessageType, content: string, timestamp: string)

  const Capacity: nat := 20

  /** The last `n` elements of `s`, or all of `s` when it is shorter:
      `s.slice(-n)`. */
  function Newest<T>(s: seq<T>, n: nat): (r: seq<T>)
    ensures |r| == if |s| < n then |s| else n
  {
    if |s| <= n then s else s[|s| - n..]
  }

  /** One `addMessage`: the log never holds more than 20 entries and the
      new entry is the last one. */
  function Append(log: seq<Message>, m: Message): (r: seq<Message>)
    ensures |r| <= Capacity
    ensures |r| == if |log| < Capacity then |log| + 1 else Capacity
    ensures r[|r| - 1] == m
  {
    Newest(log + [m], Capacity)
  }

  /** What stays of the old log is its newest part, in its order: the oldest
      entry is dropped only once the log is full. */
  lemma AppendKeepsNewest(log: seq<Message>, m: Message)
    ensures var r := Append(log, m);
      r[..|r| - 1] == log[|log| - (|r| - 1)..]
  {
    var all := log + [m];
    var r := Append(log, m);
    assert r[..|r| - 1] == all[|all| - |r|..|all| - 1];
  }

  /** `addMessage` called once per entry of `ms`, in order. */
  function AppendAll(log: seq<Message>, ms: seq<Message>): seq<Message>
    decreases |ms|
  {
    if ms == [] then log else AppendAll(Append(log, ms[0]), ms[1..])
  }

  /** However many entries arrive, the log is the newest 20 of everything
      logged, in arrival order. */
  lemma {:induction false} AppendAllIsNewest(log: seq<Message>, ms: seq<Message>)
    requires |log| <= Capacity
    ensures AppendAll(log, ms) == Newest(log + ms, Capacity)
    decreases |ms|
  {
    if ms == [] {
      assert log + ms == log;
    } else {
      AppendAllIsNewest(Append(log, ms[0]), ms[1..]);
      AppendThenRest(log, ms);
    }
  }

  lemma AppendThenRest(log: seq<Message>, ms: seq<Message>)
    requires ms != []
    ensures Newest(Append(log, ms[0]) + ms[1..], Capacity) == Newest(log + ms, Capacity)
  {
    var first := log + [ms[0]];
    assert Append(log, ms[0]) == Newest(first, Capacity);
    NewestOfNewest(first, ms[1..]);
    assert first + ms[1..] == log + ms;
  }

  /** Trimming early loses nothing that the final trim would keep. */
  lemma NewestOfNewest<T>(s: seq<T>, t: seq<T>)
    ensures Newest(Newest(s, Capacity) + t, Capacity) == Newest(s + t, Capacity)
  {
    var a := Newest(s, Capacity) + t;
    var b := s + t;
    var ra := Newest(a, Capacity);
    var rb := Newest(b, Capacity);
    assert |ra| == |rb|;
    forall i | 0 <= i < |ra| ensures ra[i] == rb[i] {
      var ia := |a| - |ra| + i;
      var ib := |b| - |rb| + i;
      assert ra[i] == a[ia] && rb[i] == b[ib];
    }
  }

  /** From an empty log, a run of messages leaves the newest twenty of
      them, so twenty-five appends leave exactly the last twenty. */
  lemma {:induction false} RunFromEmpty(ms: seq<Message>)
    ensures AppendAll([], ms) == Newest(ms, Capacity)
  {
    var empty: seq<Message> := [];
    AppendAllIsNewest(empty, ms);
    assert empty + ms == ms;
  }
}
