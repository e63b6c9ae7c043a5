/** One websocket client shared by many streams: threads add streams, remove them,
    and run the subscription loop, in any interleaving of their atomic steps. */
module Subscriptions {

  datatype Stream = Stream(id: nat, symbol: string)

  /** A thread inside run(): the streams it saw, and the symbols it has still to
      subscribe. */
  datatype Thread = Thread(seen: set<Stream>, todo: set<string>)

  /** The shared list, the client, and the threads inside run(). `settled` records
      the streams added to a running client, or seen by a run() that has finished
      its loop, and not removed since. The client keeps its subscriptions when it
      is stopped. */
  datatype State = State(
    streams: seq<Stream>, running: bool, subscribed: set<string>,
    threads: map<nat, Thread>, settled: set<Stream>)

  const INITIAL := State([], false, {}, map[], {})

  datatype Event =
    | Add(stream: Stream)
    | Remove(stream: Stream)
    | RunStart(t: nat)
    | Subscribe(t: nat, symbol: string)
    | RunEnd(t: nat)  // the loop is done; the client is started unless it runs

  function AsSet(streams: seq<Stream>): set<Stream> {
    set s | s in streams
  }

  function Symbols(streams: seq<Stream>): set<string> {
    set s | s in streams :: s.symbol
  }

  predicate SymbolUsed(streams: seq<Stream>, symbol: string) {
    exists s :: s in streams && s.symbol == symbol
  }

  /** Python's remove: one entry goes, the others stay as often as they are there. */
  function RemoveFirst(streams: seq<Stream>, x: Stream): (r: seq<Stream>)
    ensures forall s :: s in r ==> s in streams
    ensures forall s :: s in streams && s != x ==> s in r
    ensures multiset(r) == multiset(streams) - multiset{x}
  {
    if streams == [] then []
    else
      assert streams == [streams[0]] + streams[1..];
      if streams[0] == x then streams[1..] else [streams[0]] + RemoveFirst(streams[1..], x)
  }

  // ---------- The atomic steps ----------

  predicate Enabled(s: State, e: Event) {
    match e
    case RunStart(t) => t !in s.threads
    case Subscribe(t, symbol) => t in s.threads && symbol in s.threads[t].todo
    case RunEnd(t) => t in s.threads && s.threads[t].todo == {}
    case _ => true
  }

  function AddStream(s: State, obj: Stream): State {
    var added := s.(streams := s.streams + [obj]);
    if s.running then added.(subscribed := s.subscribed + {obj.symbol}, settled := s.settled + {obj})
    else added
  }

  function RemoveStream(s: State, obj: Stream): State {
    if obj !in s.streams then s
    else
      var left := RemoveFirst(s.streams, obj);
      var gone := if obj in left then {} else {obj};
      s.(streams := left,
         running := s.running && left != [],
         subscribed := if left == [] || SymbolUsed(left, obj.symbol) then s.subscribed else s.subscribed - {obj.symbol},
         threads := map t | t in s.threads :: s.threads[t].(seen := s.threads[t].seen - gone),
         settled := s.settled - gone)
  }

  function Apply(s: State, e: Event): State
    requires Enabled(s, e)
  {
    match e
    case Add(obj) => AddStream(s, obj)
    case Remove(obj) => RemoveStream(s, obj)
    case RunStart(t) =>
      if s.streams == [] then s
      else s.(threads := s.threads[t := Thread(AsSet(s.streams), Symbols(s.streams))])
    case Subscribe(t, symbol) =>
      s.(subscribed := s.subscribed + {symbol},
         threads := s.threads[t := s.threads[t].(todo := s.threads[t].todo - {symbol})])
    case RunEnd(t) =>
      s.(running := true, settled := s.settled + s.threads[t].seen, threads := s.threads - {t})
  }

  ghost predicate Legal(s: State, es: seq<Event>)
    decreases |es|
  {
    es != [] ==> Enabled(s, es[0]) && Legal(Apply(s, es[0]), es[1..])
  }

  ghost function Reached(s: State, es: seq<Event>): State
    requires Legal(s, es)
    decreases |es|
  {
    if es == [] then s else Reached(Apply(s, es[0]), es[1..])
  }

  // ---------- Safety ----------

  ghost predicate Inv(s: State) {
    && (forall x :: x in s.settled ==> x in s.streams && x.symbol in s.subscribed)
    && (forall t :: t in s.threads ==> ThreadInv(s, s.threads[t]))
  }

  ghost predicate ThreadInv(s: State, thread: Thread) {
    forall x :: x in thread.seen ==> x in s.streams && x.symbol in s.subscribed + thread.todo
  }

  lemma RemoveKeepsInv(s: State, obj: Stream)
    requires Inv(s)
    ensures Inv(RemoveStream(s, obj))
  {
    var r := RemoveStream(s, obj);
    forall t | t in r.threads
      ensures ThreadInv(r, r.threads[t])
    {
      assert ThreadInv(s, s.threads[t]);
    }
  }

  lemma StepKeepsInv(s: State, e: Event)
    requires Enabled(s, e) && Inv(s)
    ensures Inv(Apply(s, e))
  {
    if e.Remove? {
      RemoveKeepsInv(s, e.stream);
    } else {
      var r := Apply(s, e);
      if e.RunEnd? {
        assert ThreadInv(s, s.threads[e.t]);
      }
      forall t | t in r.threads
        ensures ThreadInv(r, r.threads[t])
      {
        assert t in s.threads ==> ThreadInv(s, s.threads[t]);
      }
    }
  }

  lemma {:induction false} RunKeepsInv(s: State, es: seq<Event>)
    requires Legal(s, es) && Inv(s)
    ensures Inv(Reached(s, es))
    decreases |es|
  {
    if es == [] {
    } else {
      StepKeepsInv(s, es[0]);
      RunKeepsInv(Apply(s, es[0]), es[1..]);
    }
  }

  lemma {:induction false} SettledUntilRemoved(s: State, es: seq<Event>, obj: Stream)
    requires Legal(s, es) && obj in s.settled && Remove(obj) !in es
    ensures obj in Reached(s, es).settled
    decreases |es|
  {
    if es == [] {
    } else {
      SettledUntilRemoved(Apply(s, es[0]), es[1..], obj);
    }
  }

  /** In every interleaving: a stream added while the client runs has its symbol
      subscribed from then on, for as long as it is not removed. */
  lemma AddedWhileRunning(before: seq<Event>, obj: Stream, after: seq<Event>)
    requires Legal(INITIAL, before) && Reached(INITIAL, before).running
    requires Legal(AddStream(Reached(INITIAL, before), obj), after) && Remove(obj) !in after
    ensures var s := Reached(AddStream(Reached(INITIAL, before), obj), after);
            obj in s.streams && obj.symbol in s.subscribed
  {
    RunKeepsInv(INITIAL, before);
    var s := Reached(INITIAL, before);
    StepKeepsInv(s, Add(obj));
    RunKeepsInv(AddStream(s, obj), after);
    SettledUntilRemoved(AddStream(s, obj), after, obj);
  }

  /** In every interleaving: once a run() has finished its loop, every stream it
      saw and that has not been removed since is subscribed, and stays so until it
      is removed. */
  lemma SeenByFinishedRun(before: seq<Event>, t: nat, obj: Stream, after: seq<Event>)
    requires Legal(INITIAL, before) && Enabled(Reached(INITIAL, before), RunEnd(t))
    requires obj in Reached(INITIAL, before).threads[t].seen
    requires Legal(Apply(Reached(INITIAL, before), RunEnd(t)), after) && Remove(obj) !in after
    ensures var s := Reached(Apply(Reached(INITIAL, before), RunEnd(t)), after);
            obj in s.streams && obj.symbol in s.subscribed
  {
    RunKeepsInv(INITIAL, before);
    var s := Reached(INITIAL, before);
    StepKeepsInv(s, RunEnd(t));
    RunKeepsInv(Apply(s, RunEnd(t)), after);
    SettledUntilRemoved(Apply(s, RunEnd(t)), after, obj);
  }

  lemma {:induction false} SeenUntilDone(s: State, t: nat, es: seq<Event>, obj: Stream)
    requires Legal(s, es) && t in s.threads && obj in s.threads[t].seen
    requires Remove(obj) !in es && RunEnd(t) !in es
    ensures t in Reached(s, es).threads && obj in Reached(s, es).threads[t].seen
    decreases |es|
  {
    if es == [] {
    } else {
      SeenUntilDone(Apply(s, es[0]), t, es[1..], obj);
    }
  }

  /** So every stream there when a thread enters run() is subscribed when the thread is
      done, whatever the others do in between, unless it has been removed. */
  lemma RunSubscribes(before: seq<Event>, t: nat, during: seq<Event>, obj: Stream)
    requires Legal(INITIAL, before) && Enabled(Reached(INITIAL, before), RunStart(t))
    requires obj in Reached(INITIAL, before).streams
    requires Legal(Apply(Reached(INITIAL, before), RunStart(t)), during)
    requires Remove(obj) !in during && RunEnd(t) !in during
    requires Enabled(Reached(Apply(Reached(INITIAL, before), RunStart(t)), during), RunEnd(t))
    ensures var s := Apply(Reached(Apply(Reached(INITIAL, before), RunStart(t)), during), RunEnd(t));
            s.running && obj in s.streams && obj.symbol in s.subscribed
  {
    var s := Reached(INITIAL, before);
    var begun := Apply(s, RunStart(t));
    RunKeepsInv(INITIAL, before);
    StepKeepsInv(s, RunStart(t));
    SeenUntilDone(begun, t, during, obj);
    RunKeepsInv(begun, during);
    StepKeepsInv(Reached(begun, during), RunEnd(t));
  }

  lemma LastOneLeft(streams: seq<Stream>, x: Stream)
    ensures x in streams && RemoveFirst(streams, x) == [] <==> streams == [x]
  {
    if x in streams && RemoveFirst(streams, x) == [] {
      assert streams[0] == x && streams[1..] == [];
    }
  }

  /** A symbol is unsubscribed exactly by removing the last stream that uses it while
      others are left; with none left the client is stopped instead. */
  lemma UnsubscribedOnlyWhenUnused(s: State, e: Event, symbol: string)
    requires Enabled(s, e)
    ensures symbol in s.subscribed ==>
              (symbol !in Apply(s, e).subscribed
               <==> && e.Remove? && e.stream.symbol == symbol && e.stream in s.streams
                    && Apply(s, e).streams != [] && forall x :: x in Apply(s, e).streams ==> x.symbol != symbol)
    ensures s.running ==> (!Apply(s, e).running <==> e.Remove? && s.streams == [e.stream])
  {
    if e.Remove? { LastOneLeft(s.streams, e.stream); }
  }

  // ---------- Which additions are safe ----------

  /** Whatever happens after `obj` is added, until it is removed: while the client
      runs, the stream gets its data. */
  ghost predicate SubscribedOnceAdded(s: State, obj: Stream) {
    forall es :: Legal(AddStream(s, obj), es) && Remove(obj) !in es && Reached(AddStream(s, obj), es).running ==>
      obj.symbol in Reached(AddStream(s, obj), es).subscribed
  }

  /** The client runs, or the symbol is subscribed, or every thread inside run() is
      still going to subscribe it. */
  predicate InTime(s: State, obj: Stream) {
    s.running || forall t <- s.threads :: obj.symbol in s.subscribed + s.threads[t].todo
  }

  ghost predicate Awaited(s: State, obj: Stream) {
    && obj in s.streams
    && (obj.symbol in s.subscribed || (!s.running && forall t <- s.threads :: obj.symbol in s.threads[t].todo))
  }

  lemma StepAwaits(s: State, e: Event, obj: Stream)
    requires Enabled(s, e) && Awaited(s, obj) && e != Remove(obj)
    ensures Awaited(Apply(s, e), obj)
  {
  }

  lemma {:induction false} RunAwaits(s: State, es: seq<Event>, obj: Stream)
    requires Legal(s, es) && Awaited(s, obj) && Remove(obj) !in es
    ensures Awaited(Reached(s, es), obj)
    decreases |es|
  {
    if es == [] {
    } else {
      StepAwaits(s, es[0], obj);
      RunAwaits(Apply(s, es[0]), es[1..], obj);
    }
  }

  /** A thread that will not subscribe a symbol can finish its loop without it. */
  lemma {:induction false} FinishWithout(s: State, t: nat, symbol: string) returns (es: seq<Event>)
    requires t in s.threads && symbol !in s.subscribed + s.threads[t].todo
    ensures Legal(s, es) && (forall e <- es :: !e.Remove?)
    ensures Reached(s, es).running && symbol !in Reached(s, es).subscribed
    decreases s.threads[t].todo
  {
    if s.threads[t].todo == {} {
      LegalLast(s, RunEnd(t));
      es := [RunEnd(t)];
    } else {
      var next :| next in s.threads[t].todo;
      var rest := FinishWithout(Apply(s, Subscribe(t, next)), t, symbol);
      es := [Subscribe(t, next)] + rest;
      assert es[1..] == rest;
    }
  }

  /** Exactly when an added stream is never left without data by a running client. */
  lemma SubscribedIffInTime(s: State, obj: Stream)
    ensures SubscribedOnceAdded(s, obj) <==> InTime(s, obj)
  {
    var added := AddStream(s, obj);
    if InTime(s, obj) {
      assert Awaited(added, obj);
      forall es | Legal(added, es) && Remove(obj) !in es && Reached(added, es).running
        ensures obj.symbol in Reached(added, es).subscribed
      {
        RunAwaits(added, es, obj);
      }
    } else {
      var t :| t in s.threads && obj.symbol !in s.subscribed + s.threads[t].todo;
      var es := FinishWithout(added, t, obj.symbol);
      assert Remove(obj) !in es;
    }
  }

  /** It happens: the second of two streams with different symbols, added between
      the look and the loop of a thread that starts the client. */
  lemma LateStreamIsMissed(a: Stream, b: Stream)
    requires a.symbol != b.symbol
    ensures Legal(INITIAL, [Add(a), RunStart(0)])
    ensures !SubscribedOnceAdded(Reached(INITIAL, [Add(a), RunStart(0)]), b)
  {
    var s1 := Apply(INITIAL, Add(a));
    var s2 := Apply(s1, RunStart(0));
    assert s2.threads[0].todo == {a.symbol};
    LegalLast(s1, RunStart(0));
    assert [Add(a), RunStart(0)][1..] == [RunStart(0)];
    SubscribedIffInTime(s2, b);
  }

  lemma LegalLast(s: State, e: Event)
    requires Enabled(s, e)
    ensures Legal(s, [e]) && Reached(s, [e]) == Apply(s, e)
  {
    assert [e][1..] == [];
  }

  // ---------- The object ----------

  class WSStreams {
    var streams: seq<Stream>
    var running: bool
    var subscribed: set<string>

    constructor ()
      ensures streams == [] && !running && subscribed == {}
    {
      streams, running, subscribed := [], false, {};
    }

    /** The shared variables are those of a state of the protocol. */
    ghost predicate Shows(s: State)
      reads this
    {
      streams == s.streams && running == s.running && subscribed == s.subscribed
    }

    method SymbolExists(symbol: string) returns (found: bool)
      ensures found == SymbolUsed(streams, symbol)
    {
      for i := 0 to |streams|
        invariant forall j :: 0 <= j < i ==> streams[j].symbol != symbol
      {
        if streams[i].symbol == symbol {
          return true;
        }
      }
      return false;
    }

    method AddStream(obj: Stream, ghost s: State)
      requires Shows(s)
      modifies this
      ensures Shows(Apply(s, Add(obj)))
    {
      streams := streams + [obj];
      if running {
        subscribed := subscribed + {obj.symbol};
      }
    }

    method RemoveStream(obj: Stream, ghost s: State)
      requires Shows(s)
      modifies this
      ensures Shows(Apply(s, Remove(obj)))
    {
      if obj !in streams {
        return;
      }
      streams := RemoveFirst(streams, obj);
      if |streams| == 0 {
        running := false;
        return;
      }
      var used := SymbolExists(obj.symbol);
      if !used {
        subscribed := subscribed - {obj.symbol};
      }
    }

    /** run() without interference: its steps are those of the protocol. */
    method Run(t: nat, ghost s: State) returns (ghost es: seq<Event>)
      requires Shows(s) && t !in s.threads
      modifies this
      ensures Legal(s, es) && Shows(Reached(s, es))
      ensures subscribed == old(subscribed) + Symbols(streams)
      ensures running == (old(running) || streams != [])
    {
      if |streams| == 0 {
        es := [];
        return;
      }
      var unique := {};
      for i := 0 to |streams|
        invariant unique == Symbols(streams[..i])
      {
        unique := unique + {streams[i].symbol};
      }
      assert streams[..|streams|] == streams;
      var todo := unique;
      es := [RunStart(t)];
      ghost var now := Apply(s, RunStart(t));
      LegalLast(s, RunStart(t));
      while todo != {}
        invariant todo <= unique
        invariant Legal(s, es) && Reached(s, es) == now
        invariant t in now.threads && now.threads[t].todo == todo
        invariant streams == now.streams && running == now.running && subscribed == now.subscribed
        invariant subscribed == old(subscribed) + (unique - todo)
        invariant streams == old(streams) && running == old(running)
        decreases todo
      {
        var symbol :| symbol in todo;
        Extend(s, es, Subscribe(t, symbol));
        es, now := es + [Subscribe(t, symbol)], Apply(now, Subscribe(t, symbol));
        subscribed := subscribed + {symbol};
        todo := todo - {symbol};
      }
      Extend(s, es, RunEnd(t));
      es := es + [RunEnd(t)];
      if !running {
        running := true;
      }
    }
  }

  lemma {:induction false} Extend(s: State, es: seq<Event>, e: Event)
    requires Legal(s, es) && Enabled(Reached(s, es), e)
    ensures Legal(s, es + [e]) && Reached(s, es + [e]) == Apply(Reached(s, es), e)
    decreases |es|
  {
    if es == [] {
      assert es + [e] == [e];
      LegalLast(s, e);
    } else {
      Extend(Apply(s, es[0]), es[1..], e);
      assert (es + [e])[1..] == es[1..] + [e];
    }
  }
}
