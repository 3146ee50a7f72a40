/** trading/notifications/dedup.py: the evicting alert deduplicator against an unbounded history. */
module Dedup {
  import opened Prelude

  datatype Key = Key(eventType: string, component: string, symbol: Option<string>)

  datatype Call = Call(key: Key, now: int)

  /** An empty symbol counts as none. */
  function KeyFor(eventType: string, component: string, symbol: Option<string>): Key {
    Key(eventType, component, if symbol == Some("") then None else symbol)
  }

  /** Alerts are one exactly if type, component and symbol are, where an empty symbol is the same as none. */
  lemma SameKeyIff(eventType: string, component: string, symbol: Option<string>,
                   eventType': string, component': string, symbol': Option<string>)
    ensures KeyFor(eventType, component, symbol) == KeyFor(eventType', component', symbol')
       <==> eventType == eventType' && component == component'
            && (symbol == symbol' || (symbol in {None, Some("")} && symbol' in {None, Some("")}))
  {}

  // ----- the specification: no memory is ever dropped -----

  /** Call j's window was over by the time of call m. */
  predicate Outlived(window: int, calls: seq<Call>, j: nat, m: nat)
    requires j < |calls| && m < |calls|
  {
    calls[j].now + window <= calls[m].now
  }

  /** Call n is answered True: every earlier True for its key has been outlived by some call since. */
  ghost predicate Notified(window: int, calls: seq<Call>, n: nat)
    requires n < |calls|
    decreases n
  {
    forall j :: 0 <= j < n && calls[j].key == calls[n].key && Notified(window, calls, j)
                ==> exists m :: j < m <= n && Outlived(window, calls, j, m)
  }

  /** Call j was answered True and nothing has outlived it since. */
  ghost predicate Live(window: int, calls: seq<Call>, j: nat)
    requires j < |calls|
  {
    Notified(window, calls, j) && forall m :: j < m < |calls| ==> !Outlived(window, calls, j, m)
  }

  lemma {:induction false} NotifiedPrefix(window: int, calls: seq<Call>, c: Call, n: nat)
    requires n < |calls|
    ensures Notified(window, calls + [c], n) == Notified(window, calls, n)
    decreases n
  {
    var more := calls + [c];
    forall j | 0 <= j < n ensures Notified(window, more, j) == Notified(window, calls, j) {
      NotifiedPrefix(window, calls, c, j);
    }
    assert forall j, m :: 0 <= j < n && j < m <= n
                          ==> (Outlived(window, more, j, m) <==> Outlived(window, calls, j, m));
  }

  /** A live call stays live under one more call unless that call outlives it. */
  lemma LiveSnoc(window: int, calls: seq<Call>, c: Call, j: nat)
    requires j < |calls|
    ensures Live(window, calls + [c], j) <==> Live(window, calls, j) && calls[j].now + window > c.now
  {
    var more := calls + [c];
    NotifiedPrefix(window, calls, c, j);
    forall m | j < m < |calls| ensures Outlived(window, more, j, m) <==> Outlived(window, calls, j, m) {}
    assert Outlived(window, more, j, |calls|) <==> calls[j].now + window <= c.now;
  }

  /** The answer to the newest call, from the live calls before it. */
  lemma NewestAnswer(window: int, calls: seq<Call>, c: Call)
    ensures Notified(window, calls + [c], |calls|)
            <==> forall j :: 0 <= j < |calls| && calls[j].key == c.key ==> !Live(window, calls + [c], j)
  {
    var more := calls + [c];
    forall j | 0 <= j < |calls| && calls[j].key == c.key
      ensures Live(window, more, j)
              <==> !(Notified(window, more, j) ==> exists m :: j < m <= |calls| && Outlived(window, more, j, m))
    {}
  }

  // ----- the map -----

  /** The map has one entry for each live call among the first n, with that call's expiry, and no other. */
  ghost predicate RepresentsFirst(entries: map<Key, int>, window: int, calls: seq<Call>, n: nat)
    requires n <= |calls|
  {
    && (forall j :: 0 <= j < n && Live(window, calls, j)
                    ==> calls[j].key in entries && entries[calls[j].key] == calls[j].now + window)
    && forall k :: k in entries ==> HasLive(window, calls, n, k)
  }

  ghost predicate HasLive(window: int, calls: seq<Call>, n: nat, k: Key)
    requires n <= |calls|
  {
    exists j :: 0 <= j < n && calls[j].key == k && Live(window, calls, j)
  }

  ghost predicate Represents(entries: map<Key, int>, window: int, calls: seq<Call>) {
    RepresentsFirst(entries, window, calls, |calls|)
  }

  function Unexpired(entries: map<Key, int>, now: int): map<Key, int> {
    map k | k in entries && entries[k] > now :: entries[k]
  }

  /** After eviction the map represents the earlier calls that are still live at this call. */
  lemma EvictionExact(entries: map<Key, int>, window: int, calls: seq<Call>, c: Call)
    requires Represents(entries, window, calls)
    ensures RepresentsFirst(Unexpired(entries, c.now), window, calls + [c], |calls|)
  {
    var more, kept := calls + [c], Unexpired(entries, c.now);
    forall j | 0 <= j < |calls|
      ensures Live(window, more, j) <==> Live(window, calls, j) && calls[j].now + window > c.now
    {
      LiveSnoc(window, calls, c, j);
    }
    forall k | k in kept ensures HasLive(window, more, |calls|, k) {
      assert HasLive(window, calls, |calls|, k);
      var j :| 0 <= j < |calls| && calls[j].key == k && Live(window, calls, j);
      assert more[j].key == k && Live(window, more, j);
    }
  }

  /** A call is answered True exactly when its key is not among the earlier live ones. */
  lemma AnswerFromMap(kept: map<Key, int>, window: int, calls: seq<Call>, c: Call)
    requires RepresentsFirst(kept, window, calls + [c], |calls|)
    ensures Notified(window, calls + [c], |calls|) <==> c.key !in kept
  {
    var more := calls + [c];
    NewestAnswer(window, calls, c);
    if c.key in kept { assert HasLive(window, more, |calls|, c.key); }
  }

  lemma KeyStays(kept: map<Key, int>, window: int, more: seq<Call>, n: nat)
    requires |more| == n + 1 && RepresentsFirst(kept, window, more, n) && more[n].key in kept
    requires !Notified(window, more, n)
    ensures Represents(kept, window, more)
  {
    forall k | k in kept ensures HasLive(window, more, n + 1, k) { assert HasLive(window, more, n, k); }
  }

  lemma KeyAdded(kept: map<Key, int>, window: int, more: seq<Call>, n: nat)
    requires |more| == n + 1 && RepresentsFirst(kept, window, more, n) && more[n].key !in kept
    requires Notified(window, more, n)
    ensures Represents(kept[more[n].key := more[n].now + window], window, more)
  {
    var after := kept[more[n].key := more[n].now + window];
    forall j | 0 <= j < n && Live(window, more, j)
      ensures more[j].key in after && after[more[j].key] == more[j].now + window
    {
      assert more[j].key in kept;
    }
    NewestLives(window, more, n);
    forall k | k in after ensures HasLive(window, more, n + 1, k) {
      if k in kept { OlderLives(window, more, n, k); }
    }
  }

  lemma NewestLives(window: int, more: seq<Call>, n: nat)
    requires |more| == n + 1 && Notified(window, more, n)
    ensures HasLive(window, more, n + 1, more[n].key)
  {
    assert Live(window, more, n);
  }

  lemma OlderLives(window: int, more: seq<Call>, n: nat, k: Key)
    requires |more| == n + 1 && HasLive(window, more, n, k)
    ensures HasLive(window, more, n + 1, k)
  {}

  lemma AddNewest(kept: map<Key, int>, window: int, more: seq<Call>, n: nat)
    requires |more| == n + 1 && RepresentsFirst(kept, window, more, n)
    requires Notified(window, more, n) <==> more[n].key !in kept
    ensures Represents(if more[n].key in kept then kept else kept[more[n].key := more[n].now + window], window, more)
  {
    if more[n].key in kept { KeyStays(kept, window, more, n); } else { KeyAdded(kept, window, more, n); }
  }

  lemma CallRepresents(entries: map<Key, int>, window: int, calls: seq<Call>, c: Call)
    requires Represents(entries, window, calls)
    ensures var kept, more := Unexpired(entries, c.now), calls + [c];
            && (Notified(window, more, |calls|) <==> c.key !in kept)
            && Represents(if c.key in kept then kept else kept[c.key := c.now + window], window, more)
  {
    EvictionExact(entries, window, calls, c);
    AnswerFromMap(Unexpired(entries, c.now), window, calls, c);
    AddNewest(Unexpired(entries, c.now), window, calls + [c], |calls|);
  }

  class AlertDeduplicator {
    const window: int
    var entries: map<Key, int>
    ghost var calls: seq<Call>

    constructor (windowSeconds: int)
      ensures window == windowSeconds && calls == [] && Valid()
    {
      window, entries, calls := windowSeconds, map[], [];
    }

    ghost predicate Valid()
      reads this
    {
      Represents(entries, window, calls)
    }

    method Evict(now: int)
      modifies this`entries
      ensures entries == Unexpired(old(entries), now)
    {
      ghost var kept := Unexpired(entries, now);
      var expired := set k | k in entries && entries[k] <= now;
      while expired != {}
        invariant forall k :: k in expired ==> k in entries && entries[k] <= now
        invariant Unexpired(entries, now) == kept
        invariant forall k :: k in entries && entries[k] <= now ==> k in expired
        decreases |expired|
      {
        var k :| k in expired;
        entries := entries - {k};
        expired := expired - {k};
      }
      assert entries == kept;
    }

    /** Evicting expired entries never changes an answer, whatever the clock does. */
    method ShouldNotify(eventType: string, component: string, symbol: Option<string>, now: int) returns (notify: bool)
      requires Valid()
      modifies this
      ensures Valid() && calls == old(calls) + [Call(KeyFor(eventType, component, symbol), now)]
      ensures notify == Notified(window, calls, |old(calls)|)
      ensures entries == var kept, key := Unexpired(old(entries), now), KeyFor(eventType, component, symbol);
                         if notify then kept[key := now + window] else kept
    {
      var key := KeyFor(eventType, component, symbol);
      CallRepresents(entries, window, calls, Call(key, now));
      calls := calls + [Call(key, now)];
      Evict(now);
      if key in entries { return false; }
      entries := entries[key := now + window];
      return true;
    }
  }

  // ----- with a clock that never goes back -----

  ghost predicate ClockForward(calls: seq<Call>) {
    forall i, j :: 0 <= i <= j < |calls| ==> calls[i].now <= calls[j].now
  }

  /** True exactly when no True was returned for this key within the last window. */
  lemma NotifiedForward(window: int, calls: seq<Call>, n: nat)
    requires ClockForward(calls) && n < |calls|
    ensures Notified(window, calls, n)
            <==> !exists j :: 0 <= j < n && calls[j].key == calls[n].key && Notified(window, calls, j)
                              && calls[j].now + window > calls[n].now
  {
    forall j | 0 <= j < n
      ensures (exists m :: j < m <= n && Outlived(window, calls, j, m)) <==> calls[j].now + window <= calls[n].now
    {
      if calls[j].now + window <= calls[n].now { assert Outlived(window, calls, j, n); }
    }
  }

  /** The map then holds exactly the keys whose window was not over at the last call, plus that call's own. */
  lemma MapHoldsUnexpired(entries: map<Key, int>, window: int, calls: seq<Call>, k: Key)
    requires ClockForward(calls) && Represents(entries, window, calls) && |calls| != 0
    ensures k in entries
            <==> exists j :: 0 <= j < |calls| && calls[j].key == k && Notified(window, calls, j)
                             && (calls[j].now + window > calls[|calls| - 1].now || j == |calls| - 1)
  {
    var last := |calls| - 1;
    assert k in entries <==> HasLive(window, calls, |calls|, k);
    forall j | 0 <= j < |calls|
      ensures Live(window, calls, j)
              <==> Notified(window, calls, j) && (calls[j].now + window > calls[last].now || j == last)
    {
      if j != last {
        assert Outlived(window, calls, j, last) <==> calls[j].now + window <= calls[last].now;
      }
    }
  }

  // ----- exactly which clocks keep notifications apart -----

  function TimesOf(calls: seq<Call>): seq<int> { seq(|calls|, n requires 0 <= n < |calls| => calls[n].now) }

  predicate DetourAt(times: seq<int>, window: int, i: nat, m: nat, n: nat) {
    i < m < n < |times| && times[i] + window <= times[m] && times[n] < times[i] + window
  }

  /** The clock leaves the window of some call and is back inside it later. */
  ghost predicate Detour(times: seq<int>, window: int) {
    exists i: nat, m: nat, n: nat :: DetourAt(times, window, i, m, n)
  }

  /** Calls i and n send the same alert twice inside one window. */
  ghost predicate RepeatAt(window: int, calls: seq<Call>, i: nat, n: nat) {
    && i < n < |calls| && calls[i].key == calls[n].key && calls[n].now < calls[i].now + window
    && Notified(window, calls, i) && Notified(window, calls, n)
  }

  ghost predicate Repeats(window: int, calls: seq<Call>) { exists i: nat, n: nat :: RepeatAt(window, calls, i, n) }

  lemma RepeatNeedsDetour(window: int, calls: seq<Call>, i: nat, n: nat)
    requires RepeatAt(window, calls, i, n)
    ensures Detour(TimesOf(calls), window)
  {
    var m :| i < m <= n && Outlived(window, calls, i, m);
    assert DetourAt(TimesOf(calls), window, i, m, n);
  }

  /** Two notifications for one key are at least a window apart, unless the clock takes a detour. */
  lemma NotificationsSpaced(window: int, calls: seq<Call>, i: nat, j: nat)
    requires !Detour(TimesOf(calls), window) && i < j < |calls| && calls[i].key == calls[j].key
    requires Notified(window, calls, i) && Notified(window, calls, j)
    ensures calls[j].now >= calls[i].now + window
  {
    if calls[j].now < calls[i].now + window { RepeatNeedsDetour(window, calls, i, j); }
  }

  /** A clock that never goes back takes none. */
  lemma ForwardTakesNoDetour(window: int, calls: seq<Call>)
    requires ClockForward(calls)
    ensures !Detour(TimesOf(calls), window)
  {
    var times := TimesOf(calls);
    forall i: nat, m: nat, n: nat ensures !DetourAt(times, window, i, m, n) {
      if i < m < n < |times| { assert calls[m].now <= calls[n].now; }
    }
  }

  const ALERT := Key("heartbeat_lost", "supervisor", None)
  const OTHER := Key("heartbeat_recovered", "supervisor", None)

  /** One key at calls i and n, another one everywhere else. */
  function TwoAlerts(times: seq<int>, i: nat, n: nat): seq<Call> {
    seq(|times|, k requires 0 <= k < |times| => Call(if k == i || k == n then ALERT else OTHER, times[k]))
  }

  lemma DetourRepeats(times: seq<int>, window: int, i: nat, m: nat, n: nat)
    requires DetourAt(times, window, i, m, n)
    ensures TimesOf(TwoAlerts(times, i, n)) == times && RepeatAt(window, TwoAlerts(times, i, n), i, n)
  {
    var calls := TwoAlerts(times, i, n);
    assert Outlived(window, calls, i, m);
    assert Notified(window, calls, i);
    assert Notified(window, calls, n);
  }

  /** For any times of the calls, in any order, some keys make an alert repeat inside its window if and only if
      the clock takes a detour. */
  lemma RepeatsIff(times: seq<int>, window: int)
    ensures (exists calls :: TimesOf(calls) == times && Repeats(window, calls)) <==> Detour(times, window)
  {
    if Detour(times, window) {
      var i: nat, m: nat, n: nat :| DetourAt(times, window, i, m, n);
      DetourRepeats(times, window, i, m, n);
      assert Repeats(window, TwoAlerts(times, i, n));
    }
    forall calls | TimesOf(calls) == times && Repeats(window, calls) ensures Detour(times, window) {
      var i: nat, n: nat :| RepeatAt(window, calls, i, n);
      RepeatNeedsDetour(window, calls, i, n);
    }
  }

  /** If the clock steps back, a repeat inside the window can be sent: another key's call has evicted the
      entry. */
  lemma ClockBackRepeats()
    ensures var calls := [Call(ALERT, 100), Call(OTHER, 500), Call(ALERT, 150)];
            Notified(300, calls, 0) && Notified(300, calls, 2)
  {
    var calls := [Call(ALERT, 100), Call(OTHER, 500), Call(ALERT, 150)];
    assert Outlived(300, calls, 0, 1);
  }
}
