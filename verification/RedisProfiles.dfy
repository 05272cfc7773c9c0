/** Optimistic locking of one profile key: any number of callers of compare-and-put, with puts, deletes, reads that
    renew the time to live and expiries between any two of their commands. */
module RedisProfiles {
  import opened Options

  datatype Profile = Profile(version: int, payload: string)

  type ClientId = nat

  // How often a call tries; at least once.
  type Retries = n: int | n >= 1 witness 1

  datatype Outcome =
    | Success
    | Mismatch(seen: Option<Profile>, stamp: nat)   // answered False, having read this
    | Conflict                                      // gave up after the last attempt

  // Where a call stands; `stamp` is that of the value it read.
  datatype Phase =
    | Start
    | Watched
    | Fetched(seen: Option<Profile>, stamp: nat)
    | Done(outcome: Outcome)

  datatype Call = Call(
    profile: Profile, expected: Option<int>, attempts: nat, phase: Phase,
    dirty: bool,        // the watched key was touched since the watch
    watchedAt: nat,     // the count of touches then
    startedAt: nat,     // the count of touches when the call was made
    since: nat)         // the stamp of the value then

  // A successful call: whose, what it wrote, what it expected, and the stamp of the value it had read.
  datatype Win = Win(client: ClientId, stamp: nat, profile: Profile, expected: Option<int>)

  datatype State = State(
    value: Option<Profile>,
    stamp: nat,                 // numbers the values of the key, absence included
    past: seq<Option<Profile>>, // all its values, by their stamps
    touches: nat,               // how often the key was written, deleted, expired or renewed
    calls: map<ClientId, Call>,
    wins: seq<Win>)

  predicate Matches(expected: Option<int>, current: Option<Profile>) {
    match current
    case None => expected.None?
    case Some(profile) => expected.Some? && profile.version == expected.value
  }

  datatype Event =
    | Invoke(client: ClientId, profile: Profile, expected: Option<int>)
    | Watch(client: ClientId)
    | Read(client: ClientId)
    | Unwatch(client: ClientId)
    | Exec(client: ClientId)
    | Put(profile: Profile)
    | Delete
    | Renew              // a read that extends the time to live
    | Expire

  predicate At(s: State, c: ClientId, phase: Phase) {
    c in s.calls && s.calls[c].phase == phase
  }

  predicate HasFetched(s: State, c: ClientId) {
    c in s.calls && s.calls[c].phase.Fetched?
  }

  // What a caller does next, and what others may do at any time.
  predicate Enabled(s: State, e: Event) {
    match e
    case Invoke(c, _, _) => c !in s.calls
    case Watch(c) => At(s, c, Start)
    case Read(c) => At(s, c, Watched)
    case Unwatch(c) => HasFetched(s, c) && !Matches(s.calls[c].expected, s.calls[c].phase.seen)
    case Exec(c) => HasFetched(s, c) && Matches(s.calls[c].expected, s.calls[c].phase.seen)
    case Put(_) => true
    case Delete => s.value.Some?
    case Renew => s.value.Some?
    case Expire => s.value.Some?
  }

  /** A caller has one command to send at a time: it watches, reads, and then puts if the version is the expected one,
      or the key is absent and none is expected, and else gives up the watch; what is done sends nothing. Others may put
      at any time, and delete, renew or lose what is there. */
  lemma WhatIsNext(s: State, c: ClientId)
    requires c in s.calls
    ensures Enabled(s, Watch(c)) <==> s.calls[c].phase == Start
    ensures Enabled(s, Read(c)) <==> s.calls[c].phase == Watched
    ensures s.calls[c].phase.Fetched? ==>
              var seen, expected := s.calls[c].phase.seen, s.calls[c].expected;
              var asExpected := if seen.Some? then expected == Some(seen.value.version) else expected == None;
              (Enabled(s, Exec(c)) <==> asExpected) && (Enabled(s, Unwatch(c)) <==> !asExpected)
    ensures !s.calls[c].phase.Fetched? ==> !Enabled(s, Exec(c)) && !Enabled(s, Unwatch(c))
    ensures forall profile, expected :: !Enabled(s, Invoke(c, profile, expected))
    ensures forall profile :: Enabled(s, Put(profile))
    ensures Enabled(s, Delete) <==> s.value != None
    ensures Enabled(s, Renew) <==> s.value != None
    ensures Enabled(s, Expire) <==> s.value != None
  {
  }

  // A touched key spoils the transactions of all who watch it.
  function Spoiled(calls: map<ClientId, Call>): map<ClientId, Call> {
    map c | c in calls ::
      if calls[c].phase.Watched? || calls[c].phase.Fetched? then calls[c].(dirty := true) else calls[c]
  }

  function Written(s: State, value: Option<Profile>): State {
    s.(value := value, stamp := s.stamp + 1, past := s.past + [value], touches := s.touches + 1,
       calls := Spoiled(s.calls))
  }

  function WithPhase(s: State, c: ClientId, phase: Phase): State
    requires c in s.calls
  {
    s.(calls := s.calls[c := s.calls[c].(phase := phase)])
  }

  function AfterExec(s: State, c: ClientId, maxRetries: Retries): State
    requires HasFetched(s, c)
  {
    var call := s.calls[c];
    if !call.dirty then
      var done := WithPhase(s, c, Done(Success));
      Written(done, Some(call.profile)).(wins := s.wins + [Win(c, call.phase.stamp, call.profile, call.expected)])
    else
      var tried := call.attempts + 1;
      var next := if tried < maxRetries then Start else Done(Conflict);
      s.(calls := s.calls[c := call.(attempts := tried, dirty := false, phase := next)])
  }

  function Step(s: State, e: Event, maxRetries: Retries): State
    requires Enabled(s, e)
  {
    match e
    case Invoke(c, profile, expected) =>
      s.(calls := s.calls[c := Call(profile, expected, 0, Start, false, s.touches, s.touches, s.stamp)])
    case Watch(c) => s.(calls := s.calls[c := s.calls[c].(phase := Watched, dirty := false, watchedAt := s.touches)])
    case Read(c) => WithPhase(s, c, Fetched(s.value, s.stamp))
    case Unwatch(c) =>
      var call := s.calls[c];
      s.(calls := s.calls[c := call.(phase := Done(Mismatch(call.phase.seen, call.phase.stamp)), dirty := false)])
    case Exec(c) => AfterExec(s, c, maxRetries)
    case Put(profile) => Written(s, Some(profile))
    case Delete => Written(s, None)
    case Expire => Written(s, None)
    case Renew => s.(touches := s.touches + 1, calls := Spoiled(s.calls))
  }

  /* What every interleaving keeps */

  // The value with this stamp was stored at some moment since the call was made.
  predicate StoredSince(s: State, call: Call, value: Option<Profile>, stamp: nat) {
    call.since <= stamp < |s.past| && s.past[stamp] == value
  }

  // What a call has read was the value then and still is, unless its transaction is spoiled, which it is exactly if the
  // key was touched since the watch; it was spoiled once per attempt lost, and there are no more attempts than allowed.
  ghost predicate CallOk(s: State, call: Call, maxRetries: Retries) {
    && call.since <= s.stamp
    && (call.phase.Fetched? ==> StoredSince(s, call, call.phase.seen, call.phase.stamp))
    && (call.phase.Done? && call.phase.outcome.Mismatch? ==>
          StoredSince(s, call, call.phase.outcome.seen, call.phase.outcome.stamp))
    && (call.phase.Fetched? && !call.dirty ==> call.phase.seen == s.value && call.phase.stamp == s.stamp)
    && (call.phase.Start? || call.phase.Done? ==> !call.dirty)
    && (call.phase.Watched? || call.phase.Fetched? ==>
          call.watchedAt <= s.touches && (call.dirty <==> s.touches != call.watchedAt))
    && call.startedAt + call.attempts + (if call.dirty then 1 else 0) <= s.touches
    && (call.phase.Done? && call.phase.outcome.Mismatch? ==> !Matches(call.expected, call.phase.outcome.seen))
    && call.attempts <= maxRetries && (call.attempts == maxRetries <==> call.phase == Done(Conflict))
  }

  // What a success wrote came directly after what its caller had read, and that was what the caller expected.
  predicate WinOk(past: seq<Option<Profile>>, w: Win) {
    w.stamp + 1 < |past| && Matches(w.expected, past[w.stamp]) && past[w.stamp + 1] == Some(w.profile)
  }

  ghost predicate WinsOk(s: State) {
    && (forall i | 0 <= i < |s.wins| :: WinOk(s.past, s.wins[i]))
    && (forall i, j | 0 <= i < j < |s.wins| :: s.wins[i].stamp < s.wins[j].stamp)
  }

  // A call is done with success exactly if it is among the wins, once.
  ghost predicate WinnersOk(s: State) {
    && (forall i | 0 <= i < |s.wins| :: At(s, s.wins[i].client, Done(Success)))
    && (forall i, j | 0 <= i < j < |s.wins| :: s.wins[i].client != s.wins[j].client)
    && (forall c | At(s, c, Done(Success)) :: exists i :: 0 <= i < |s.wins| && s.wins[i].client == c)
  }

  ghost predicate Inv(s: State, maxRetries: Retries) {
    && |s.past| == s.stamp + 1 && s.past[s.stamp] == s.value
    && (forall c | c in s.calls :: CallOk(s, s.calls[c], maxRetries))
    && WinsOk(s)
    && WinnersOk(s)
  }

  lemma SpoiledOk(s: State, t: State, maxRetries: Retries)
    requires forall c | c in s.calls :: CallOk(s, s.calls[c], maxRetries)
    requires t.calls == Spoiled(s.calls) && t.touches == s.touches + 1 && s.past <= t.past && t.stamp >= s.stamp
    ensures forall c | c in t.calls :: CallOk(t, t.calls[c], maxRetries)
  {
    forall c | c in t.calls
      ensures CallOk(t, t.calls[c], maxRetries)
    {
      assert CallOk(s, s.calls[c], maxRetries);
    }
  }

  lemma WrittenOk(s: State, value: Option<Profile>, maxRetries: Retries)
    requires Inv(s, maxRetries)
    ensures Inv(Written(s, value), maxRetries)
  {
    SpoiledOk(s, Written(s, value), maxRetries);
    assert forall i | 0 <= i < |s.wins| :: WinOk(s.past, s.wins[i]) ==> WinOk(s.past + [value], s.wins[i]);
    SpoiledKeepsWinners(s, Written(s, value));
  }

  lemma SpoiledKeepsWinners(s: State, t: State)
    requires WinnersOk(s) && t.calls == Spoiled(s.calls) && t.wins == s.wins
    ensures WinnersOk(t)
  {
    forall c | At(t, c, Done(Success))
      ensures exists i :: 0 <= i < |t.wins| && t.wins[i].client == c
    {
      assert At(s, c, Done(Success));
    }
  }

  // A step of one call that neither succeeds nor touches the key.
  lemma CallStepOk(s: State, c: ClientId, call: Call, maxRetries: Retries)
    requires Inv(s, maxRetries) && CallOk(s, call, maxRetries) && call.phase != Done(Success)
    requires c in s.calls ==> s.calls[c].phase != Done(Success)
    ensures Inv(s.(calls := s.calls[c := call]), maxRetries)
  {
    var t := s.(calls := s.calls[c := call]);
    forall d | d in t.calls
      ensures CallOk(t, t.calls[d], maxRetries)
    {
      if d != c {
        assert CallOk(s, s.calls[d], maxRetries);
      }
    }
    forall d | At(t, d, Done(Success))
      ensures exists i :: 0 <= i < |t.wins| && t.wins[i].client == d
    {
      assert At(s, d, Done(Success));
    }
    forall i | 0 <= i < |t.wins|
      ensures At(t, t.wins[i].client, Done(Success))
    {
      assert At(s, s.wins[i].client, Done(Success));
    }
  }

  lemma SuccessOk(s: State, c: ClientId, maxRetries: Retries)
    requires Inv(s, maxRetries) && Enabled(s, Exec(c)) && !s.calls[c].dirty
    ensures Inv(AfterExec(s, c, maxRetries), maxRetries)
  {
    var t := AfterExec(s, c, maxRetries);
    var won := s.calls[c].(phase := Done(Success));
    assert CallOk(s, s.calls[c], maxRetries);
    forall d | d in t.calls
      ensures CallOk(t, t.calls[d], maxRetries)
    {
      assert CallOk(s, s.calls[d], maxRetries);
    }
    WinsMore(s, t, c);
    WinnersMore(s, t, c);
  }

  // The value read is still the last one, so what is written comes directly after it.
  lemma WinsMore(s: State, t: State, c: ClientId)
    requires WinsOk(s) && HasFetched(s, c) && Matches(s.calls[c].expected, s.value)
    requires |s.past| == s.stamp + 1 && s.past[s.stamp] == s.value && s.calls[c].phase.stamp == s.stamp
    requires t.past == s.past + [Some(s.calls[c].profile)]
    requires t.wins == s.wins + [Win(c, s.calls[c].phase.stamp, s.calls[c].profile, s.calls[c].expected)]
    ensures WinsOk(t)
  {
    forall i | 0 <= i < |t.wins|
      ensures WinOk(t.past, t.wins[i]) && (i < |s.wins| ==> t.wins[i].stamp < s.stamp)
    {
      assert i < |s.wins| ==> t.wins[i] == s.wins[i] && WinOk(s.past, s.wins[i]);
    }
  }

  lemma WinnersMore(s: State, t: State, c: ClientId)
    requires WinnersOk(s) && c in s.calls && s.calls[c].phase.Fetched?
    requires t.calls == Spoiled(s.calls[c := s.calls[c].(phase := Done(Success))])
    requires |t.wins| == |s.wins| + 1 && t.wins[..|s.wins|] == s.wins && t.wins[|s.wins|].client == c
    ensures WinnersOk(t)
  {
    forall i | 0 <= i < |t.wins|
      ensures At(t, t.wins[i].client, Done(Success)) && (i < |s.wins| ==> t.wins[i].client != c)
    {
      if i < |s.wins| {
        assert t.wins[i] == s.wins[i] && At(s, s.wins[i].client, Done(Success));
      }
    }
    assert forall i | 0 <= i < |s.wins| :: t.wins[i] == s.wins[i];
    forall d | At(t, d, Done(Success))
      ensures exists i :: 0 <= i < |t.wins| && t.wins[i].client == d
    {
      if d == c {
        assert t.wins[|s.wins|].client == c;
      } else {
        assert At(s, d, Done(Success));
        var i :| 0 <= i < |s.wins| && s.wins[i].client == d;
        assert t.wins[i].client == d;
      }
    }
  }

  /** Every step of every caller and every foreign change keeps the invariant. */
  lemma StepKeeps(s: State, e: Event, maxRetries: Retries)
    requires Inv(s, maxRetries) && Enabled(s, e)
    ensures Inv(Step(s, e, maxRetries), maxRetries)
  {
    hide WinsOk, WinnersOk;
    match e {
      case Invoke(c, profile, expected) =>
        CallStepOk(s, c, Call(profile, expected, 0, Start, false, s.touches, s.touches, s.stamp), maxRetries);
      case Watch(c) =>
        assert CallOk(s, s.calls[c], maxRetries);
        CallStepOk(s, c, s.calls[c].(phase := Watched, dirty := false, watchedAt := s.touches), maxRetries);
      case Read(c) =>
        assert CallOk(s, s.calls[c], maxRetries);
        CallStepOk(s, c, s.calls[c].(phase := Fetched(s.value, s.stamp)), maxRetries);
      case Unwatch(c) =>
        assert CallOk(s, s.calls[c], maxRetries);
        CallStepOk(s, c, Step(s, e, maxRetries).calls[c], maxRetries);
      case Exec(c) =>
        assert CallOk(s, s.calls[c], maxRetries);
        if s.calls[c].dirty {
          CallStepOk(s, c, AfterExec(s, c, maxRetries).calls[c], maxRetries);
        } else {
          SuccessOk(s, c, maxRetries);
        }
      case Put(profile) => WrittenOk(s, Some(profile), maxRetries);
      case Delete => WrittenOk(s, None, maxRetries);
      case Expire => WrittenOk(s, None, maxRetries);
      case Renew => RenewOk(s, maxRetries);
    }
  }

  lemma RenewOk(s: State, maxRetries: Retries)
    requires Inv(s, maxRetries)
    ensures Inv(s.(touches := s.touches + 1, calls := Spoiled(s.calls)), maxRetries)
  {
    var t := s.(touches := s.touches + 1, calls := Spoiled(s.calls));
    SpoiledOk(s, t, maxRetries);
    SpoiledKeepsWinners(s, t);
  }

  /** What a step does to the key and to the calls: it is written by puts, deletes, expiries and transactions that go
      through, and touched by these and by reads that renew it; a call keeps what it wants to put and what it expects.
      */
  lemma StepReads(s: State, e: Event, maxRetries: Retries)
    requires Inv(s, maxRetries) && Enabled(s, e)
    ensures var t := Step(s, e, maxRetries);
            var goesThrough := e.Exec? && s.touches == s.calls[e.client].watchedAt;
            && (e.Put? ==> t.value == Some(e.profile))
            && (e.Delete? || e.Expire? ==> s.value.Some? && t.value == None)
            && (goesThrough ==> t.value == Some(s.calls[e.client].profile))
            && (if e.Put? || e.Delete? || e.Expire? || goesThrough then t.past == s.past + [t.value]
                else t.past == s.past && t.value == s.value)
            && t.touches == s.touches + (if e.Put? || e.Delete? || e.Expire? || goesThrough || e.Renew? then 1 else 0)
            && (goesThrough <==> t.wins != s.wins)
            && (e.Invoke? ==>
                  && t.calls.Keys == s.calls.Keys + {e.client} && e.client !in s.calls
                  && t.calls[e.client].profile == e.profile && t.calls[e.client].expected == e.expected
                  && t.calls[e.client].startedAt == s.touches && t.calls[e.client].since == s.stamp)
            && (!e.Invoke? ==> t.calls.Keys == s.calls.Keys)
            && (e.Read? ==> t.calls[e.client].phase == Fetched(s.value, s.stamp))
            && (e.Unwatch? ==> t.calls[e.client].phase.Done? && t.calls[e.client].phase.outcome.Mismatch?)
            && (forall c | c in s.calls ::
                  && t.calls[c].profile == s.calls[c].profile && t.calls[c].expected == s.calls[c].expected
                  && (t.calls[c].phase == s.calls[c].phase
                      || ((e.Watch? || e.Read? || e.Unwatch? || e.Exec?) && e.client == c)))
  {
    hide WinsOk, WinnersOk;
    assert e.Exec? ==> CallOk(s, s.calls[e.client], maxRetries);
  }

  /* Runs */

  predicate Possible(s: State, events: seq<Event>, maxRetries: Retries)
    decreases |events|
  {
    events == [] || (Enabled(s, events[0]) && Possible(Step(s, events[0], maxRetries), events[1..], maxRetries))
  }

  function Run(s: State, events: seq<Event>, maxRetries: Retries): State
    requires Possible(s, events, maxRetries)
    decreases |events|
  {
    if events == [] then s else Run(Step(s, events[0], maxRetries), events[1..], maxRetries)
  }

  // A key in any state, nobody at work on it.
  predicate Quiet(s: State) {
    s.calls == map[] && s.wins == [] && s.stamp == 0 && s.past == [s.value]
  }

  lemma {:induction false} RunKeeps(s: State, events: seq<Event>, maxRetries: Retries)
    requires Inv(s, maxRetries) && Possible(s, events, maxRetries)
    ensures Inv(Run(s, events, maxRetries), maxRetries)
    decreases |events|
  {
    hide Inv, Step, Enabled;
    if events != [] {
      StepKeeps(s, events[0], maxRetries);
      RunKeeps(Step(s, events[0], maxRetries), events[1..], maxRetries);
    }
  }

  /** After any interleaving: what a success wrote came directly after the value its caller had read, no two had read
      the same one, and it had the version the caller expected, or was absent if none was expected; a call answered
      False only if at some moment of that call a value of another version was stored, or a value where none was
      expected, or none where one was; and one gave up after exactly as many attempts as it has, during which the key
      was touched at least as often. */
  lemma {:induction false} AnyInterleaving(s: State, events: seq<Event>, maxRetries: Retries)
    requires Quiet(s) && Possible(s, events, maxRetries)
    ensures var t := Run(s, events, maxRetries);
            && (forall i, j | 0 <= i < j < |t.wins| ::
                  t.wins[i].stamp < t.wins[j].stamp && t.wins[i].client != t.wins[j].client)
            && (forall w | w in t.wins ::
                  && w.stamp + 1 < |t.past| && t.past[w.stamp + 1] == Some(w.profile)
                  && (|| (w.expected == None && t.past[w.stamp] == None)
                      || (t.past[w.stamp].Some? && w.expected == Some(t.past[w.stamp].value.version))))
            && |t.past| == t.stamp + 1 && t.past[t.stamp] == t.value
            && (forall c | c in t.calls && t.calls[c].phase.Done? ::
                  match t.calls[c].phase.outcome
                  case Success => exists i :: 0 <= i < |t.wins| && t.wins[i].client == c
                  case Mismatch(seen, stamp) =>
                    && t.calls[c].since <= stamp < |t.past| && t.past[stamp] == seen
                    && (seen == None ==> t.calls[c].expected.Some?)
                    && (seen.Some? ==> t.calls[c].expected != Some(seen.value.version))
                  case Conflict => t.calls[c].attempts == maxRetries <= t.touches - t.calls[c].startedAt)
  {
    assert Inv(s, maxRetries);
    RunKeeps(s, events, maxRetries);
    var t := Run(s, events, maxRetries);
    forall c | c in t.calls && t.calls[c].phase.Done?
      ensures CallOk(t, t.calls[c], maxRetries)
      ensures t.calls[c].phase.outcome.Success? ==> exists i :: 0 <= i < |t.wins| && t.wins[i].client == c
    {
      if t.calls[c].phase.outcome.Success? {
        assert At(t, c, Done(Success));
      }
    }
  }

  /** In whatever state it is reached: a transaction goes through exactly if the key was not touched since the watch;
      then the stored version is the expected one (or the key is absent and none was expected) and is replaced by what
      the caller wanted to put. Otherwise nothing is stored, and the call tries again unless that was its last attempt.
      */
  lemma ExecTakesEffect(s: State, c: ClientId, maxRetries: Retries)
    requires Inv(s, maxRetries) && Enabled(s, Exec(c))
    ensures var t := Step(s, Exec(c), maxRetries);
            && var call := s.calls[c];
               && (t.calls[c].phase == Done(Success) <==> s.touches == call.watchedAt)
               && (t.calls[c].phase == Done(Success) ==>
                     && (s.value == None ==> call.expected == None)
                     && (s.value.Some? ==> call.expected == Some(s.value.value.version))
                     && t.value == Some(call.profile) && t.past == s.past + [t.value])
               && (t.calls[c].phase != Done(Success) ==>
                     && t.value == s.value && t.past == s.past && t.wins == s.wins && t.touches == s.touches
                     && t.calls[c].attempts == call.attempts + 1
                     && t.calls[c].phase == if call.attempts + 1 == maxRetries then Done(Conflict) else Start)
  {
    assert CallOk(s, s.calls[c], maxRetries);
  }
}
