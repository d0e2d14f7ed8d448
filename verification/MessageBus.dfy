/**
 The message bus of `live_message.go` (lines 45-249): a list of subscribers that `append` grows and
 `unsubscribe` shifts in place, and a dispatch over a copy of it during which handlers and other
 goroutines may subscribe and unsubscribe.
 */
module MessageBus {

  /** A legacy subscriber takes raw messages; the others take those whose method is in `methods`, or all. */
  datatype Subscriber = Subscriber(id: string, legacy: bool, methods: set<string>) {
    predicate Accepts(name: string) {
      methods == {} || name in methods
    }
  }

  // ----- the list

  predicate Has(subs: seq<Subscriber>, id: string) {
    id != "" && exists i :: 0 <= i < |subs| && subs[i].id == id
  }

  /** The list without the first subscriber of this id. */
  function Without(subs: seq<Subscriber>, id: string): seq<Subscriber> {
    if subs == [] then []
    else if subs[0].id == id then subs[1..]
    else [subs[0]] + Without(subs[1..], id)
  }

  datatype Op = Add(subscriber: Subscriber) | Remove(id: string)

  function Applied(subs: seq<Subscriber>, op: Op): seq<Subscriber> {
    match op
    case Add(s) => subs + [s]
    case Remove(id) => if id == "" then subs else Without(subs, id)
  }

  function AllApplied(subs: seq<Subscriber>, ops: seq<Op>): seq<Subscriber> {
    if ops == [] then subs else Applied(AllApplied(subs, ops[..|ops| - 1]), ops[|ops| - 1])
  }

  // ----- a dispatch

  /** Everything the bus does not decide. At each turn of the dispatch other goroutines first apply
      `others`, and a handler that is called applies `handler`. `stop` is asked at tick 2t, before turn t,
      and the handler of turn t begins at tick 2t + 1. */
  datatype World = World(others: nat -> seq<Op>, handler: nat -> seq<Op>, stop: nat -> bool)

  /** Turns 0 to n - 1 are for legacy subscribers, turns n to 2n - 1 for the others. */
  function Turned(snapshot: seq<Subscriber>, t: nat): Subscriber
    requires t < 2 * |snapshot|
  {
    if t < |snapshot| then snapshot[t] else snapshot[t - |snapshot|]
  }

  predicate Qualifies(snapshot: seq<Subscriber>, name: string, t: nat)
    requires t < 2 * |snapshot|
  {
    var s := Turned(snapshot, t);
    if t < |snapshot| then s.legacy else !s.legacy && s.Accepts(name)
  }

  /** From turn `t` on: the list at the end and the turns in which a handler is called. */
  function Dispatched(snapshot: seq<Subscriber>, name: string, w: World, subs: seq<Subscriber>, t: nat)
    : (r: (seq<Subscriber>, seq<nat>))
    requires t <= 2 * |snapshot|
    decreases 2 * |snapshot| - t
  {
    if t == 2 * |snapshot| then (subs, [])
    else
      var seen := AllApplied(subs, w.others(t));
      if w.stop(2 * t) then (seen, [])
      else if Has(seen, Turned(snapshot, t).id) && Qualifies(snapshot, name, t) then
        var (last, turns) := Dispatched(snapshot, name, w, AllApplied(seen, w.handler(t)), t + 1);
        (last, [t] + turns)
      else Dispatched(snapshot, name, w, seen, t + 1)
  }

  /** The subscribers called, in order. */
  function Called(snapshot: seq<Subscriber>, turns: seq<nat>): seq<Subscriber>
    requires forall i :: 0 <= i < |turns| ==> turns[i] < 2 * |snapshot|
  {
    if turns == [] then [] else [Turned(snapshot, turns[0])] + Called(snapshot, turns[1..])
  }

  class Bus {
    /** A Go slice: the first `len` elements of a buffer. */
    var buffer: array<Subscriber>
    var len: nat

    predicate Valid()
      reads this
    {
      len <= buffer.Length
    }

    function Contents(): seq<Subscriber>
      reads this, buffer
      requires Valid()
    {
      buffer[..len]
    }

    constructor ()
      ensures Valid() && Contents() == [] && fresh(buffer)
    {
      buffer := new Subscriber[0];
      len := 0;
    }

    /** `append`: into the buffer while it has room, else into a new and larger one. */
    method Append(s: Subscriber)
      requires Valid()
      modifies this, buffer
      ensures Valid() && Contents() == old(Contents()) + [s]
      ensures buffer == old(buffer) || fresh(buffer)
    {
      if len == buffer.Length {
        var grown := new Subscriber[2 * len + 1](_ => s);
        var i := 0;
        while i < len
          invariant 0 <= i <= len == old(len) && buffer == old(buffer)
          invariant grown[..i] == buffer[..i] && buffer[..] == old(buffer[..])
        {
          grown[i] := buffer[i];
          i := i + 1;
        }
        buffer := grown;
      }
      buffer[len] := s;
      len := len + 1;
    }

    /** `subscribe`: the id of the new subscription, or "" for a missing handler or a list of methods that
        names none. `methods` are the variadic arguments if there are any. */
    method Subscribe(handler: bool, given: bool, methods: seq<string>, id: string) returns (r: string)
      requires Valid()
      modifies this, buffer
      ensures Valid() && (buffer == old(buffer) || fresh(buffer))
      ensures var names := set m | m in methods && m != "";
              if !handler || (given && names == {}) then r == "" && Contents() == old(Contents())
              else r == id && Contents() == old(Contents()) + [Subscriber(id, false, if given then names else {})]
    {
      if !handler { return ""; }
      var names := {};
      if given {
        var i := 0;
        while i < |methods|
          invariant 0 <= i <= |methods| && names == set m | m in methods[..i] && m != ""
        {
          assert methods[..i + 1] == methods[..i] + [methods[i]];
          if methods[i] != "" { names := names + {methods[i]}; }
          i := i + 1;
        }
        assert methods[..i] == methods;
        if names == {} { return ""; }
      }
      Append(Subscriber(id, false, names));
      return id;
    }

    method SubscribeLegacy(handler: bool, id: string) returns (r: string)
      requires Valid()
      modifies this, buffer
      ensures Valid() && (buffer == old(buffer) || fresh(buffer))
      ensures Contents() == if handler then old(Contents()) + [Subscriber(id, true, {})] else old(Contents())
      ensures r == if handler then id else ""
    {
      if !handler { return ""; }
      Append(Subscriber(id, true, {}));
      return id;
    }

    /** The elements behind the subscriber move down one place in the same buffer. */
    method Unsubscribe(id: string)
      requires Valid()
      modifies this, buffer
      ensures Valid() && buffer == old(buffer)
      ensures Contents() == Applied(old(Contents()), Remove(id))
    {
      if id == "" { return; }
      var i := 0;
      while i < len && buffer[i].id != id
        invariant 0 <= i <= len
        invariant forall j :: 0 <= j < i ==> buffer[j].id != id
      {
        i := i + 1;
      }
      WithoutAt(Contents(), id, i);
      if i < len {
        ShiftOver(i);
      }
    }

    /** `append(s[:i], s[i+1:]...)`. */
    method ShiftOver(i: nat)
      requires Valid() && i < len
      modifies this, buffer
      ensures Valid() && buffer == old(buffer)
      ensures Contents() == old(Contents())[..i] + old(Contents())[i + 1..]
    {
      ghost var was := Contents();
      var k := i;
      while k + 1 < len
        invariant i <= k < len == old(len) && buffer == old(buffer)
        invariant forall j :: 0 <= j < i ==> buffer[j] == was[j]
        invariant forall j :: i <= j < k ==> buffer[j] == was[j + 1]
        invariant forall j :: k < j < len ==> buffer[j] == was[j]
      {
        buffer[k] := buffer[k + 1];
        k := k + 1;
      }
      len := len - 1;
    }

    method HasSubscriber(id: string) returns (found: bool)
      requires Valid()
      ensures found <==> Has(Contents(), id)
    {
      if id == "" { return false; }
      var i := 0;
      while i < len
        invariant 0 <= i <= len
        invariant forall j :: 0 <= j < i ==> buffer[j].id != id
      {
        if buffer[i].id == id {
          assert Contents()[i].id == id;
          return true;
        }
        i := i + 1;
      }
      return false;
    }

    method Perform(ops: seq<Op>)
      requires Valid()
      modifies this, buffer
      ensures Valid() && Contents() == AllApplied(old(Contents()), ops)
      ensures buffer == old(buffer) || fresh(buffer)
    {
      var i := 0;
      while i < |ops|
        invariant 0 <= i <= |ops| && Valid() && (buffer == old(buffer) || fresh(buffer))
        invariant Contents() == AllApplied(old(Contents()), ops[..i])
      {
        match ops[i] {
          case Add(s) => Append(s);
          case Remove(id) => Unsubscribe(id);
        }
        assert ops[..i + 1][..i] == ops[..i];
        i := i + 1;
      }
      assert ops[..i] == ops;
    }

    /** One round of the inner loop of publishWithLoggerUntil. */
    method TakeTurn(s: Subscriber, legacy: bool, name: string, w: World, t: nat) returns (stopped: bool, called: bool)
      requires Valid()
      modifies this, buffer
      ensures Valid() && (buffer == old(buffer) || fresh(buffer))
      ensures var seen := AllApplied(old(Contents()), w.others(t));
              && stopped == w.stop(2 * t)
              && called == (!stopped && Has(seen, s.id) && s.legacy == legacy && (legacy || s.Accepts(name)))
              && Contents() == if called then AllApplied(seen, w.handler(t)) else seen
    {
      hide AllApplied, Has;
      Perform(w.others(t));
      if w.stop(2 * t) { return true, false; }
      var present := HasSubscriber(s.id);
      if !present || s.legacy != legacy { return false, false; }
      if !legacy && !s.Accepts(name) { return false, false; }
      Perform(w.handler(t));
      return false, true;
    }

    /** publishWithLoggerUntil: the turns in which a handler was called. */
    method Publish(name: string, w: World) returns (turns: seq<nat>)
      requires Valid()
      modifies this, buffer
      ensures Valid() && (buffer == old(buffer) || fresh(buffer))
      ensures (Contents(), turns) == Dispatched(old(Contents()), name, w, old(Contents()), 0)
    {
      hide AllApplied, Dispatched, Rest, Has, Qualifies, Turned;
      var n := len;
      var snapshot := new Subscriber[n](i requires 0 <= i < n && Valid() && n == len reads this, buffer => buffer[i]);
      ghost var before := Contents();
      assert snapshot[..] == before;
      turns := [];
      RestFromStart(before, name, w);
      var pass, base := 0, 0;
      while pass < 2
        invariant 0 <= pass <= 2 && base == (if pass == 0 then 0 else if pass == 1 then n else n + n) && Valid()
          && (buffer == old(buffer) || fresh(buffer)) && buffer != snapshot
        invariant snapshot[..] == before
        invariant Rest(before, name, w, Contents(), base, turns) == Dispatched(before, name, w, before, 0)
      {
        var i := 0;
        while i < n
          invariant 0 <= i <= n && Valid() && (buffer == old(buffer) || fresh(buffer)) && buffer != snapshot
          invariant snapshot[..] == before
          invariant Rest(before, name, w, Contents(), base + i, turns) == Dispatched(before, name, w, before, 0)
        {
          var t := base + i;
          RestUnfolds(before, name, w, Contents(), t, turns);
          QualifiesInPass(before, name, pass == 0, i);
          assert snapshot[i] == snapshot[..][i];
          var stopped, called := TakeTurn(snapshot[i], pass == 0, name, w, t);
          if stopped { return; }
          if called {
            turns := turns + [t];
          }
          i := i + 1;
        }
        pass, base := pass + 1, base + n;
      }
      RestAtEnd(before, name, w, Contents(), turns);
    }
  }

  /** The result of a dispatch that has reached turn `t` with these turns behind it. */
  ghost function Rest(snapshot: seq<Subscriber>, name: string, w: World, subs: seq<Subscriber>, t: nat, turns: seq<nat>)
    : (seq<Subscriber>, seq<nat>)
    requires t <= 2 * |snapshot|
  {
    var (last, rest) := Dispatched(snapshot, name, w, subs, t);
    (last, turns + rest)
  }

  lemma QualifiesInPass(snapshot: seq<Subscriber>, name: string, legacy: bool, i: nat)
    requires i < |snapshot|
    ensures var t := if legacy then i else |snapshot| + i;
            && Turned(snapshot, t) == snapshot[i]
            && (Qualifies(snapshot, name, t) <==> snapshot[i].legacy == legacy && (legacy || snapshot[i].Accepts(name)))
  {
  }

  lemma RestFromStart(snapshot: seq<Subscriber>, name: string, w: World)
    ensures Rest(snapshot, name, w, snapshot, 0, []) == Dispatched(snapshot, name, w, snapshot, 0)
  {
    var r := Dispatched(snapshot, name, w, snapshot, 0);
    assert [] + r.1 == r.1;
  }

  lemma RestAtEnd(snapshot: seq<Subscriber>, name: string, w: World, subs: seq<Subscriber>, turns: seq<nat>)
    ensures Rest(snapshot, name, w, subs, 2 * |snapshot|, turns) == (subs, turns)
  {
    assert turns + [] == turns;
  }

  lemma RestUnfolds(snapshot: seq<Subscriber>, name: string, w: World, subs: seq<Subscriber>, t: nat, turns: seq<nat>)
    requires t < 2 * |snapshot|
    ensures var seen := AllApplied(subs, w.others(t));
            Rest(snapshot, name, w, subs, t, turns) ==
              if w.stop(2 * t) then (seen, turns)
              else if Has(seen, Turned(snapshot, t).id) && Qualifies(snapshot, name, t)
              then Rest(snapshot, name, w, AllApplied(seen, w.handler(t)), t + 1, turns + [t])
              else Rest(snapshot, name, w, seen, t + 1, turns)
  {
    hide AllApplied;
    var seen := AllApplied(subs, w.others(t));
    assert turns + [] == turns;
    var (_, rest) := Dispatched(snapshot, name, w, AllApplied(seen, w.handler(t)), t + 1);
    assert turns + ([t] + rest) == (turns + [t]) + rest;
  }

  lemma {:induction false} WithoutAt(subs: seq<Subscriber>, id: string, i: nat)
    requires i <= |subs| && (forall j :: 0 <= j < i ==> subs[j].id != id) && (i < |subs| ==> subs[i].id == id)
    ensures Without(subs, id) == if i == |subs| then subs else subs[..i] + subs[i + 1..]
  {
    if i == 0 {
      assert subs != [] ==> subs[..0] + subs[1..] == subs[1..];
    } else {
      forall j | 0 <= j < i - 1 ensures subs[1..][j].id != id {
        assert subs[1..][j] == subs[j + 1];
      }
      WithoutAt(subs[1..], id, i - 1);
      assert subs[0].id != id;
      PutBack(subs, i);
    }
  }

  lemma PutBack(subs: seq<Subscriber>, i: nat)
    requires 0 < i <= |subs|
    ensures [subs[0]] + subs[1..] == subs
    ensures i < |subs| ==> [subs[0]] + (subs[1..][..i - 1] + subs[1..][i..]) == subs[..i] + subs[i + 1..]
  {
  }

  // ----- who is called, and in which order

  function Legacy(subs: seq<Subscriber>): seq<Subscriber> {
    if subs == [] then [] else (if subs[0].legacy then [subs[0]] else []) + Legacy(subs[1..])
  }

  function Accepting(subs: seq<Subscriber>, name: string): seq<Subscriber> {
    if subs == [] then []
    else (if !subs[0].legacy && subs[0].Accepts(name) then [subs[0]] else []) + Accepting(subs[1..], name)
  }

  /** The legacy subscribers in their order, then the others that accept the method in theirs. */
  function Candidates(snapshot: seq<Subscriber>, name: string): seq<Subscriber> {
    Legacy(snapshot) + Accepting(snapshot, name)
  }

  ghost predicate IsSubsequence<T>(a: seq<T>, b: seq<T>) {
    a == [] || (b != [] && ((a[0] == b[0] && IsSubsequence(a[1..], b[1..])) || IsSubsequence(a, b[1..])))
  }

  /** Every turn from `t` on whose subscriber qualifies. */
  function Qualifying(snapshot: seq<Subscriber>, name: string, t: nat): (r: seq<nat>)
    requires t <= 2 * |snapshot|
    ensures forall i :: 0 <= i < |r| ==> t <= r[i] < 2 * |snapshot|
    decreases 2 * |snapshot| - t
  {
    if t == 2 * |snapshot| then []
    else (if Qualifies(snapshot, name, t) then [t] else []) + Qualifying(snapshot, name, t + 1)
  }

  lemma CalledPrepend(snapshot: seq<Subscriber>, t: nat, turns: seq<nat>)
    requires t < 2 * |snapshot| && forall i :: 0 <= i < |turns| ==> turns[i] < 2 * |snapshot|
    ensures Called(snapshot, [t] + turns) == [Turned(snapshot, t)] + Called(snapshot, turns)
  {
    assert ([t] + turns)[1..] == turns;
  }

  lemma QualifyingCalls(snapshot: seq<Subscriber>, name: string, t: nat)
    requires t < 2 * |snapshot|
    ensures Called(snapshot, Qualifying(snapshot, name, t)) ==
            (if Qualifies(snapshot, name, t) then [Turned(snapshot, t)] else [])
            + Called(snapshot, Qualifying(snapshot, name, t + 1))
  {
    hide Qualifies, Turned, Called;
    var rest := Qualifying(snapshot, name, t + 1);
    CalledPrepend(snapshot, t, rest);
    assert [] + rest == rest && [] + Called(snapshot, rest) == Called(snapshot, rest);
  }

  lemma {:induction false} AcceptingTurns(snapshot: seq<Subscriber>, name: string, i: nat)
    requires i <= |snapshot|
    ensures Called(snapshot, Qualifying(snapshot, name, |snapshot| + i)) == Accepting(snapshot[i..], name)
    decreases |snapshot| - i
  {
    if i < |snapshot| {
      AcceptingTurns(snapshot, name, i + 1);
      QualifyingCalls(snapshot, name, |snapshot| + i);
      hide Called, Qualifying;
      assert snapshot[i..][1..] == snapshot[i + 1..];
    }
  }

  lemma {:induction false} LegacyTurns(snapshot: seq<Subscriber>, name: string, i: nat)
    requires i <= |snapshot|
    ensures Called(snapshot, Qualifying(snapshot, name, i)) == Legacy(snapshot[i..]) + Accepting(snapshot, name)
    decreases |snapshot| - i
  {
    hide Called, Qualifying, Accepting;
    if i < |snapshot| {
      LegacyTurns(snapshot, name, i + 1);
      QualifyingCalls(snapshot, name, i);
      assert snapshot[i..][1..] == snapshot[i + 1..];
      LegacyUnfolds(snapshot[i..], Accepting(snapshot, name));
    } else {
      AcceptingTurns(snapshot, name, 0);
      assert snapshot[0..] == snapshot;
      assert [] + Accepting(snapshot, name) == Accepting(snapshot, name);
    }
  }

  lemma LegacyUnfolds(subs: seq<Subscriber>, rest: seq<Subscriber>)
    requires subs != []
    ensures Legacy(subs) + rest == (if subs[0].legacy then [subs[0]] else []) + (Legacy(subs[1..]) + rest)
  {
  }

  /** One turn of a dispatch: the turns are those of the rest, after this one if its handler is called. */
  lemma DispatchedUnfolds(snapshot: seq<Subscriber>, name: string, w: World, subs: seq<Subscriber>, t: nat)
    requires t < 2 * |snapshot|
    ensures var seen := AllApplied(subs, w.others(t));
            Dispatched(snapshot, name, w, subs, t).1 ==
              if w.stop(2 * t) then []
              else if Has(seen, Turned(snapshot, t).id) && Qualifies(snapshot, name, t)
              then [t] + Dispatched(snapshot, name, w, AllApplied(seen, w.handler(t)), t + 1).1
              else Dispatched(snapshot, name, w, seen, t + 1).1
  {
  }

  /** Turns of a dispatch from `t` on: in order, each of a subscriber that qualifies, and none stopped. */
  predicate InTurn(snapshot: seq<Subscriber>, name: string, w: World, t: nat, turns: seq<nat>) {
    && (forall i :: 0 <= i < |turns| ==> t <= turns[i] < 2 * |snapshot|)
    && (forall i :: 0 <= i < |turns| ==> Qualifies(snapshot, name, turns[i]) && !w.stop(2 * turns[i]))
    && (forall i, j :: 0 <= i < j < |turns| ==> turns[i] < turns[j])
  }

  lemma PrependInTurn(snapshot: seq<Subscriber>, name: string, w: World, t: nat, turns: seq<nat>)
    requires t < 2 * |snapshot| && Qualifies(snapshot, name, t) && !w.stop(2 * t)
      && InTurn(snapshot, name, w, t + 1, turns)
    ensures InTurn(snapshot, name, w, t, [t] + turns)
  {
    hide Qualifies;
    var all := [t] + turns;
    forall i | 0 < i < |all| ensures all[i] == turns[i - 1] {
    }
  }

  lemma {:induction false} TurnsQualify(snapshot: seq<Subscriber>, name: string, w: World, subs: seq<Subscriber>,
                                        t: nat)
    requires t <= 2 * |snapshot|
    ensures InTurn(snapshot, name, w, t, Dispatched(snapshot, name, w, subs, t).1)
    decreases 2 * |snapshot| - t
  {
    hide AllApplied, Has, Qualifies;
    if t < 2 * |snapshot| {
      var seen := AllApplied(subs, w.others(t));
      DispatchedUnfolds(snapshot, name, w, subs, t);
      if Has(seen, Turned(snapshot, t).id) && Qualifies(snapshot, name, t) {
        var next := AllApplied(seen, w.handler(t));
        TurnsQualify(snapshot, name, w, next, t + 1);
        if !w.stop(2 * t) {
          PrependInTurn(snapshot, name, w, t, Dispatched(snapshot, name, w, next, t + 1).1);
        }
      } else {
        TurnsQualify(snapshot, name, w, seen, t + 1);
      }
    }
  }

  lemma {:induction false} CalledSubsequence(snapshot: seq<Subscriber>, name: string, w: World, subs: seq<Subscriber>,
                                             t: nat)
    requires t <= 2 * |snapshot|
    requires forall i :: 0 <= i < |Dispatched(snapshot, name, w, subs, t).1| ==>
      Dispatched(snapshot, name, w, subs, t).1[i] < 2 * |snapshot|
    ensures IsSubsequence(Called(snapshot, Dispatched(snapshot, name, w, subs, t).1),
                          Called(snapshot, Qualifying(snapshot, name, t)))
    decreases 2 * |snapshot| - t
  {
    hide AllApplied, Has, Qualifies, Turned, Dispatched, Called, Qualifying, IsSubsequence;
    if t < 2 * |snapshot| {
      var seen := AllApplied(subs, w.others(t));
      DispatchedUnfolds(snapshot, name, w, subs, t);
      var next := if Has(seen, Turned(snapshot, t).id) && Qualifies(snapshot, name, t)
        then AllApplied(seen, w.handler(t)) else seen;
      TurnsQualify(snapshot, name, w, next, t + 1);
      CalledSubsequence(snapshot, name, w, next, t + 1);
      QualifyingCalls(snapshot, name, t);
      var turns, all := Dispatched(snapshot, name, w, next, t + 1).1,
        Called(snapshot, Qualifying(snapshot, name, t + 1));
      CalledPrepend(snapshot, t, turns);
      assert [] + all == all;
      Prepending(Turned(snapshot, t), Called(snapshot, turns), all);
    } else {
      TurnsEnd(snapshot, name, w, subs);
    }
    CalledNone(snapshot);
    EmptyIsSubsequence(Called(snapshot, Qualifying(snapshot, name, t)));
  }

  lemma CalledNone(snapshot: seq<Subscriber>)
    ensures Called(snapshot, []) == []
  {
  }

  lemma TurnsEnd(snapshot: seq<Subscriber>, name: string, w: World, subs: seq<Subscriber>)
    ensures Dispatched(snapshot, name, w, subs, 2 * |snapshot|).1 == []
  {
  }

  lemma EmptyIsSubsequence<T>(b: seq<T>)
    ensures IsSubsequence([], b)
  {
  }

  lemma Prepending<T>(x: T, a: seq<T>, b: seq<T>)
    requires IsSubsequence(a, b)
    ensures IsSubsequence([x] + a, [x] + b) && IsSubsequence(a, [x] + b)
  {
    assert ([x] + a)[1..] == a && ([x] + b)[1..] == b;
  }

  /** Whatever handlers and other goroutines do: the calls of a dispatch are an in-order subsequence of the
      snapshot's legacy subscribers followed by its accepting ones, each place of the snapshot at most once. */
  lemma CallsAreOrderedCandidates(snapshot: seq<Subscriber>, name: string, w: World)
    ensures var turns := Dispatched(snapshot, name, w, snapshot, 0).1;
            && (forall i :: 0 <= i < |turns| ==> turns[i] < 2 * |snapshot|)
            && IsSubsequence(Called(snapshot, turns), Candidates(snapshot, name))
            && (forall i, j :: 0 <= i < j < |turns| ==> turns[i] < turns[j] && turns[i] + |snapshot| != turns[j])
  {
    hide Dispatched, Has, AllApplied;
    TurnsQualify(snapshot, name, w, snapshot, 0);
    CalledSubsequence(snapshot, name, w, snapshot, 0);
    LegacyTurns(snapshot, name, 0);
    assert snapshot[0..] == snapshot;
  }

  // ----- removal and stopping

  predicate NeverAdds(w: World, id: string, ops: seq<Op>) {
    forall i :: 0 <= i < |ops| && ops[i].Add? ==> ops[i].subscriber.id != id
  }

  /** Ids are unique: no subscription made during the dispatch gets this one again. */
  ghost predicate NotReused(w: World, id: string) {
    forall t: nat :: NeverAdds(w, id, w.others(t)) && NeverAdds(w, id, w.handler(t))
  }

  lemma {:induction false} WithoutHas(subs: seq<Subscriber>, id: string, k: string)
    requires Has(Without(subs, id), k)
    ensures Has(subs, k)
  {
    if subs != [] && subs[0].id != id {
      var i :| 0 <= i < |Without(subs, id)| && Without(subs, id)[i].id == k;
      if i == 0 {
        assert subs[0].id == k;
      } else {
        assert Without(subs[1..], id)[i - 1].id == k;
        WithoutHas(subs[1..], id, k);
        var j :| 0 <= j < |subs[1..]| && subs[1..][j].id == k;
        assert subs[j + 1].id == k;
      }
    } else if subs != [] {
      var i :| 0 <= i < |Without(subs, id)| && Without(subs, id)[i].id == k;
      assert subs[i + 1].id == k;
    }
  }

  lemma {:induction false} GoneStaysGone(subs: seq<Subscriber>, w: World, id: string, ops: seq<Op>)
    requires !Has(subs, id) && NeverAdds(w, id, ops)
    ensures !Has(AllApplied(subs, ops), id)
  {
    if ops != [] {
      var front, op := ops[..|ops| - 1], ops[|ops| - 1];
      GoneStaysGone(subs, w, id, front);
      var before := AllApplied(subs, front);
      if op.Remove? && Has(Without(before, op.id), id) {
        WithoutHas(before, op.id, id);
      }
    }
  }

  predicate Skips(snapshot: seq<Subscriber>, turns: seq<nat>, from: nat, id: string) {
    forall i :: 0 <= i < |turns| && turns[i] >= from ==>
      turns[i] < 2 * |snapshot| && Turned(snapshot, turns[i]).id != id
  }

  /** A subscriber missing from the list when turn `t` begins is not called at that turn or later. */
  lemma {:induction false} MissingIsNotCalled(snapshot: seq<Subscriber>, name: string, w: World, subs: seq<Subscriber>,
                                              t: nat, id: string)
    requires t <= 2 * |snapshot| && !Has(subs, id) && NotReused(w, id)
    ensures Skips(snapshot, Dispatched(snapshot, name, w, subs, t).1, 0, id)
    decreases 2 * |snapshot| - t
  {
    hide AllApplied, Has, Qualifies, NeverAdds, Dispatched;
    if t < 2 * |snapshot| {
      var seen := AllApplied(subs, w.others(t));
      GoneStaysGone(subs, w, id, w.others(t));
      GoneStaysGone(seen, w, id, w.handler(t));
      DispatchedUnfolds(snapshot, name, w, subs, t);
      MissingIsNotCalled(snapshot, name, w, seen, t + 1, id);
      MissingIsNotCalled(snapshot, name, w, AllApplied(seen, w.handler(t)), t + 1, id);
    } else {
      TurnsEnd(snapshot, name, w, subs);
    }
  }

  /** The list with which a dispatch reaches turn `u`, unless it is stopped before, and its turns so far. */
  function Reached(snapshot: seq<Subscriber>, name: string, w: World, u: nat): (seq<Subscriber>, seq<nat>, bool)
    requires u <= 2 * |snapshot|
  {
    if u == 0 then (snapshot, [], true)
    else
      var (subs, turns, going) := Reached(snapshot, name, w, u - 1);
      var seen := AllApplied(subs, w.others(u - 1));
      if !going || w.stop(2 * (u - 1)) then (if going then seen else subs, turns, false)
      else if Has(seen, Turned(snapshot, u - 1).id) && Qualifies(snapshot, name, u - 1)
      then (AllApplied(seen, w.handler(u - 1)), turns + [u - 1], true)
      else (seen, turns, true)
  }

  lemma {:induction false} ReachedContinues(snapshot: seq<Subscriber>, name: string, w: World, u: nat)
    requires u <= 2 * |snapshot|
    ensures var (subs, turns, going) := Reached(snapshot, name, w, u);
            && (forall i :: 0 <= i < |turns| ==> turns[i] < u)
            && Dispatched(snapshot, name, w, snapshot, 0) == if going then Rest(snapshot, name, w, subs, u, turns)
              else (subs, turns)
  {
    hide AllApplied, Has, Qualifies, Dispatched, Rest;
    if u == 0 {
      RestFromStart(snapshot, name, w);
    } else {
      ReachedContinues(snapshot, name, w, u - 1);
      var (subs, turns, going) := Reached(snapshot, name, w, u - 1);
      RestUnfolds(snapshot, name, w, subs, u - 1, turns);
    }
  }

  /** A subscriber removed before its turn, by a handler or by another goroutine, is never called. */
  lemma RemovedBeforeItsTurnIsNotCalled(snapshot: seq<Subscriber>, name: string, w: World, u: nat, id: string)
    requires u <= 2 * |snapshot| && !Has(Reached(snapshot, name, w, u).0, id) && NotReused(w, id)
    ensures Skips(snapshot, Dispatched(snapshot, name, w, snapshot, 0).1, u, id)
  {
    hide Has, Reached, NotReused;
    ReachedContinues(snapshot, name, w, u);
    var (subs, before, going) := Reached(snapshot, name, w, u);
    MissingIsNotCalled(snapshot, name, w, subs, u, id);
    SkipsAfter(snapshot, before, Dispatched(snapshot, name, w, subs, u).1, u, id);
    assert before + [] == before;
  }

  lemma SkipsAfter(snapshot: seq<Subscriber>, before: seq<nat>, rest: seq<nat>, u: nat, id: string)
    requires (forall i :: 0 <= i < |before| ==> before[i] < u) && Skips(snapshot, rest, 0, id)
    ensures Skips(snapshot, before + rest, u, id) && Skips(snapshot, before, u, id)
  {
  }

  /** Once `stop` answers true for good, from any tick on, at most one more handler begins. */
  lemma StopLeavesAtMostOne(snapshot: seq<Subscriber>, name: string, w: World, tick: nat)
    requires forall k: nat :: k >= tick ==> w.stop(k)
    ensures var turns := Dispatched(snapshot, name, w, snapshot, 0).1;
            forall i, j ::
              0 <= i < |turns| && 0 <= j < |turns| && 2 * turns[i] + 1 >= tick && 2 * turns[j] + 1 >= tick ==> i == j
  {
    hide Dispatched;
    TurnsQualify(snapshot, name, w, snapshot, 0);
    var turns := Dispatched(snapshot, name, w, snapshot, 0).1;
    forall i, j | 0 <= i < |turns| && 0 <= j < |turns| && 2 * turns[i] + 1 >= tick && 2 * turns[j] + 1 >= tick
      ensures i == j
    {
      assert Qualifies(snapshot, name, turns[i]) && Qualifies(snapshot, name, turns[j]);
      assert !w.stop(2 * turns[i]) && !w.stop(2 * turns[j]);
    }
  }

  // ----- nobody is left out

  predicate Spares(snapshot: seq<Subscriber>, ops: seq<Op>) {
    forall i :: 0 <= i < |ops| && ops[i].Remove? ==> forall j :: 0 <= j < |snapshot| ==> snapshot[j].id != ops[i].id
  }

  /** Nothing in the snapshot is unsubscribed during the dispatch, and it is never stopped. */
  ghost predicate Undisturbed(snapshot: seq<Subscriber>, w: World) {
    forall t: nat :: !w.stop(2 * t) && Spares(snapshot, w.others(t)) && Spares(snapshot, w.handler(t))
  }

  predicate Includes(subs: seq<Subscriber>, snapshot: seq<Subscriber>) {
    forall j :: 0 <= j < |snapshot| ==> Has(subs, snapshot[j].id)
  }

  lemma {:induction false} WithoutKeeps(subs: seq<Subscriber>, id: string, k: string)
    requires Has(subs, k) && k != id
    ensures Has(Without(subs, id), k)
  {
    var i :| 0 <= i < |subs| && subs[i].id == k;
    if subs[0].id == id {
      assert subs[1..][i - 1].id == k;
    } else if i == 0 {
      assert Without(subs, id)[0].id == k;
    } else {
      assert subs[1..][i - 1].id == k;
      WithoutKeeps(subs[1..], id, k);
      var j :| 0 <= j < |Without(subs[1..], id)| && Without(subs[1..], id)[j].id == k;
      assert Without(subs, id)[j + 1].id == k;
    }
  }

  lemma {:induction false} SparingKeeps(subs: seq<Subscriber>, snapshot: seq<Subscriber>, ops: seq<Op>)
    requires Includes(subs, snapshot) && Spares(snapshot, ops)
    ensures Includes(AllApplied(subs, ops), snapshot)
  {
    if ops != [] {
      var front, op := ops[..|ops| - 1], ops[|ops| - 1];
      SparingKeeps(subs, snapshot, front);
      var before := AllApplied(subs, front);
      forall j | 0 <= j < |snapshot|
        ensures Has(Applied(before, op), snapshot[j].id)
      {
        assert Has(before, snapshot[j].id);
        match op {
          case Add(s) =>
            var i :| 0 <= i < |before| && before[i].id == snapshot[j].id;
            assert (before + [s])[i].id == snapshot[j].id;
          case Remove(id) =>
            if id != "" {
              WithoutKeeps(before, id, snapshot[j].id);
            }
        }
      }
    }
  }

  lemma {:induction false} UndisturbedTurns(snapshot: seq<Subscriber>, name: string, w: World, subs: seq<Subscriber>,
                                            t: nat)
    requires t <= 2 * |snapshot| && Undisturbed(snapshot, w) && Includes(subs, snapshot)
    ensures Dispatched(snapshot, name, w, subs, t).1 == Qualifying(snapshot, name, t)
    decreases 2 * |snapshot| - t
  {
    hide AllApplied, Has, Qualifies, Spares;
    if t < 2 * |snapshot| {
      var seen := AllApplied(subs, w.others(t));
      assert !w.stop(2 * t) && Spares(snapshot, w.others(t)) && Spares(snapshot, w.handler(t));
      SparingKeeps(subs, snapshot, w.others(t));
      SparingKeeps(seen, snapshot, w.handler(t));
      var next := if Qualifies(snapshot, name, t) then AllApplied(seen, w.handler(t)) else seen;
      UndisturbedTurns(snapshot, name, w, next, t + 1);
      assert Has(seen, Turned(snapshot, t).id);
    }
  }

  /** A dispatch that is neither stopped nor robbed of subscribers calls exactly the candidates, in order,
      no matter what is subscribed meanwhile. */
  lemma UndisturbedCallsAll(snapshot: seq<Subscriber>, name: string, w: World)
    requires Undisturbed(snapshot, w) && forall i :: 0 <= i < |snapshot| ==> snapshot[i].id != ""
    ensures var turns := Dispatched(snapshot, name, w, snapshot, 0).1;
            && (forall i :: 0 <= i < |turns| ==> turns[i] < 2 * |snapshot|)
            && Called(snapshot, turns) == Candidates(snapshot, name)
  {
    hide Dispatched, Undisturbed;
    UndisturbedTurns(snapshot, name, w, snapshot, 0);
    LegacyTurns(snapshot, name, 0);
    assert snapshot[0..] == snapshot;
  }
}