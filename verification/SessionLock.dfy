/** The per-session lock: a chain of promise tails kept in a map, as interleaved atomic steps.
    A step runs from one suspension point to the next: asking for the lock, being resumed once the
    previous tail has settled, and calling the release function. */
module SessionLock {
  import opened Options

  datatype Phase = Waiting | Holding | Released

  /** One call of `acquireSession`; `previous` is the ticket whose tail it awaits. */
  datatype Ticket = Ticket(sid: string, previous: Option<nat>, phase: Phase)

  /** `granted` records the order in which tickets were resumed. */
  datatype State = State(tickets: seq<Ticket>, tails: map<string, nat>, granted: seq<nat>)

  datatype Input = Acquire(sid: string) | Resume(ticket: nat) | Release(ticket: nat)

  /** Tickets await older tickets only. */
  predicate Linked(tickets: seq<Ticket>) {
    forall t :: 0 <= t < |tickets| && tickets[t].previous.Some? ==> tickets[t].previous.value < t
  }

  /** A tail settles once the tail before it has settled and its own gate was opened. */
  predicate TailSettled(tickets: seq<Ticket>, t: nat)
    requires Linked(tickets) && t < |tickets|
  {
    tickets[t].phase.Released? && (tickets[t].previous.None? || TailSettled(tickets, tickets[t].previous.value))
  }

  predicate CanResume(tickets: seq<Ticket>, t: nat)
    requires Linked(tickets) && t < |tickets|
  {
    tickets[t].phase.Waiting? && (tickets[t].previous.None? || TailSettled(tickets, tickets[t].previous.value))
  }

  function SetPhase(s: State, t: nat, phase: Phase): State
    requires t < |s.tickets|
  {
    s.(tickets := s.tickets[t := s.tickets[t].(phase := phase)])
  }

  function Step(s: State, i: Input): State
    requires Linked(s.tickets) && forall sid :: sid in s.tails ==> s.tails[sid] < |s.tickets|
  {
    match i
    case Acquire(sid) =>
      var previous := if sid in s.tails then Some(s.tails[sid]) else None;
      s.(tickets := s.tickets + [Ticket(sid, previous, Waiting)], tails := s.tails[sid := |s.tickets|])
    case Resume(t) =>
      if t < |s.tickets| && CanResume(s.tickets, t)
      then SetPhase(s, t, Holding).(granted := s.granted + [t]) else s
    case Release(t) =>
      // only a resumed caller has the release function; calling it again does nothing
      if t < |s.tickets| && s.tickets[t].phase.Holding? then
        var sid := s.tickets[t].sid;
        SetPhase(s, t, Released).(
          tails := if sid in s.tails && s.tails[sid] == t then s.tails - {sid} else s.tails)
      else s
  }

  // ---- the invariant --------------------------------------------------------------------------------------------

  /** Every older ticket of the same session has been released. */
  predicate OlderReleased(tickets: seq<Ticket>, t: nat)
    requires t < |tickets|
  {
    forall u :: 0 <= u < t && tickets[u].sid == tickets[t].sid ==> tickets[u].phase.Released?
  }

  /** The awaited ticket is the one just before in the session's arrival order. */
  predicate AwaitsNeighbour(tickets: seq<Ticket>, t: nat)
    requires t < |tickets|
  {
    match tickets[t].previous
    case None => OlderReleased(tickets, t)
    case Some(p) =>
      p < t && tickets[p].sid == tickets[t].sid
      && forall u :: p < u < t ==> tickets[u].sid != tickets[t].sid
  }

  /** The map holds the newest ticket of a session as long as that one is unreleased. */
  predicate TailIsNewest(s: State, sid: string) {
    if sid in s.tails then
      && s.tails[sid] < |s.tickets| && s.tickets[s.tails[sid]].sid == sid
      && !s.tickets[s.tails[sid]].phase.Released?
      && forall u :: s.tails[sid] < u < |s.tickets| ==> s.tickets[u].sid != sid
    else forall u :: 0 <= u < |s.tickets| && s.tickets[u].sid == sid ==> s.tickets[u].phase.Released?
  }

  ghost predicate GrantsInOrder(s: State) {
    && (forall j :: 0 <= j < |s.granted| ==>
          s.granted[j] < |s.tickets| && !s.tickets[s.granted[j]].phase.Waiting?)
    && (forall j, k :: 0 <= j < k < |s.granted| && s.tickets[s.granted[j]].sid == s.tickets[s.granted[k]].sid
          ==> s.granted[j] < s.granted[k])
  }

  ghost predicate Inv(s: State) {
    && Linked(s.tickets)
    && (forall t :: 0 <= t < |s.tickets| ==> AwaitsNeighbour(s.tickets, t))
    && (forall t :: 0 <= t < |s.tickets| && !s.tickets[t].phase.Waiting? ==> OlderReleased(s.tickets, t))
    && (forall sid :: TailIsNewest(s, sid))
    && GrantsInOrder(s)
  }

  lemma InvEnables(s: State)
    requires Inv(s)
    ensures forall sid :: sid in s.tails ==> s.tails[sid] < |s.tickets|
  {
    forall sid | sid in s.tails ensures s.tails[sid] < |s.tickets| { assert TailIsNewest(s, sid); }
  }

  /** A settled tail means that the whole session up to that ticket is done, and conversely. */
  lemma {:induction false} SettledMeansDone(tickets: seq<Ticket>, t: nat)
    requires Linked(tickets) && t < |tickets|
    requires forall u :: 0 <= u < |tickets| ==> AwaitsNeighbour(tickets, u)
    ensures TailSettled(tickets, t) <==> tickets[t].phase.Released? && OlderReleased(tickets, t)
  {
    assert AwaitsNeighbour(tickets, t);
    if tickets[t].previous.Some? {
      var p := tickets[t].previous.value;
      SettledMeansDone(tickets, p);
      assert OlderReleased(tickets, t) <==> tickets[p].phase.Released? && OlderReleased(tickets, p) by {
        assert forall u :: 0 <= u < t && tickets[u].sid == tickets[t].sid ==> u <= p;
      }
    }
  }

  lemma ResumableExactly(tickets: seq<Ticket>, t: nat)
    requires Linked(tickets) && t < |tickets|
    requires forall u :: 0 <= u < |tickets| ==> AwaitsNeighbour(tickets, u)
    ensures CanResume(tickets, t) <==> tickets[t].phase.Waiting? && OlderReleased(tickets, t)
  {
    assert AwaitsNeighbour(tickets, t);
    if tickets[t].previous.Some? {
      var p := tickets[t].previous.value;
      SettledMeansDone(tickets, p);
      assert OlderReleased(tickets, t) <==> tickets[p].phase.Released? && OlderReleased(tickets, p) by {
        assert forall u :: 0 <= u < t && tickets[u].sid == tickets[t].sid ==> u <= p;
      }
    }
  }

  lemma AcquireKeeps(s: State, sid: string)
    requires Inv(s)
    ensures Steppable(s) && Inv(Step(s, Acquire(sid)))
  {
    InvEnables(s);
    var t := Step(s, Acquire(sid));
    var n := |s.tickets|;
    assert TailIsNewest(s, sid);
    forall u | 0 <= u < |t.tickets| ensures AwaitsNeighbour(t.tickets, u) {
      if u < n { assert AwaitsNeighbour(s.tickets, u); }
    }
    forall u | 0 <= u < |t.tickets| && !t.tickets[u].phase.Waiting? ensures OlderReleased(t.tickets, u) {
      assert OlderReleased(s.tickets, u);
    }
    forall x ensures TailIsNewest(t, x) { assert TailIsNewest(s, x); }
  }

  predicate Steppable(s: State) {
    Linked(s.tickets) && forall sid :: sid in s.tails ==> s.tails[sid] < |s.tickets|
  }

  lemma ResumeKeeps(s: State, t: nat)
    requires Inv(s)
    ensures Steppable(s) && Inv(Step(s, Resume(t)))
  {
    InvEnables(s);
    if t < |s.tickets| && CanResume(s.tickets, t) {
      var r := Step(s, Resume(t));
      ResumableExactly(s.tickets, t);
      forall u | 0 <= u < |r.tickets| ensures AwaitsNeighbour(r.tickets, u) { assert AwaitsNeighbour(s.tickets, u); }
      forall u | 0 <= u < |r.tickets| && !r.tickets[u].phase.Waiting? ensures OlderReleased(r.tickets, u) {
        if u != t { assert OlderReleased(s.tickets, u); }
      }
      forall x ensures TailIsNewest(r, x) { assert TailIsNewest(s, x); }
      forall j | 0 <= j < |s.granted| && s.tickets[s.granted[j]].sid == s.tickets[t].sid ensures s.granted[j] < t {
        assert OlderReleased(s.tickets, s.granted[j]);
      }
    }
  }

  lemma ReleaseKeeps(s: State, t: nat)
    requires Inv(s)
    ensures Steppable(s) && Inv(Step(s, Release(t)))
  {
    InvEnables(s);
    if t < |s.tickets| && s.tickets[t].phase.Holding? {
      var r := Step(s, Release(t));
      assert OlderReleased(s.tickets, t);
      forall u | 0 <= u < |r.tickets| ensures AwaitsNeighbour(r.tickets, u) { assert AwaitsNeighbour(s.tickets, u); }
      forall u | 0 <= u < |r.tickets| && !r.tickets[u].phase.Waiting? ensures OlderReleased(r.tickets, u) {
        assert OlderReleased(s.tickets, u);
      }
      forall x ensures TailIsNewest(r, x) { assert TailIsNewest(s, x); }
    }
  }

  lemma StepKeeps(s: State, i: Input)
    requires Inv(s)
    ensures Steppable(s) && Inv(Step(s, i))
  {
    match i
    case Acquire(sid) => AcquireKeeps(s, sid);
    case Resume(t) => ResumeKeeps(s, t);
    case Release(t) => ReleaseKeeps(s, t);
  }

  /** One more step, taken by a caller that can take it. */
  ghost predicate Follows(before: State, input: Input, s: State) {
    Steppable(before) && s == Step(before, input)
  }

  /** `u` is reached from `s` by an interleaving of steps of any number of callers. */
  ghost predicate Leads(s: State, inputs: seq<Input>, u: State)
    decreases |inputs|
  {
    if inputs == [] then u == s
    else
      var earlier, last := inputs[..|inputs| - 1], inputs[|inputs| - 1];
      exists before :: Leads(s, earlier, before) && Follows(before, last, u)
  }

  const NO_SESSIONS := State([], map[], [])

  ghost predicate Reaches(inputs: seq<Input>, s: State) {
    Leads(NO_SESSIONS, inputs, s)
  }

  /** What holds in a state and is kept by every step: the invariant, and that a ticket is released. */
  ghost predicate Kept(s: State, u: State) {
    && Inv(u) && |s.tickets| <= |u.tickets|
    && forall t :: 0 <= t < |s.tickets| && s.tickets[t].phase.Released? ==> u.tickets[t].phase.Released?
  }

  lemma FollowsKeeps(s: State, before: State, i: Input, u: State)
    requires Kept(s, before) && Follows(before, i, u)
    ensures Kept(s, u)
  {
    StepKeeps(before, i);
  }

  lemma {:induction false} LeadsKeeps(s: State, inputs: seq<Input>, u: State)
    requires Inv(s) && Leads(s, inputs, u)
    ensures Kept(s, u)
    decreases |inputs|
  {
    if inputs != [] {
      var earlier, last := inputs[..|inputs| - 1], inputs[|inputs| - 1];
      var before :| Leads(s, earlier, before) && Follows(before, last, u);
      LeadsKeeps(s, earlier, before);
      FollowsKeeps(s, before, last, u);
    }
  }

  lemma InvAlways(inputs: seq<Input>, s: State)
    requires Reaches(inputs, s)
    ensures Inv(s)
  {
    LeadsKeeps(NO_SESSIONS, inputs, s);
  }

  // ---- main results ---------------------------------------------------------------------------------------------

  lemma OneHolder(inputs: seq<Input>, s: State, t: nat, u: nat)
    requires Reaches(inputs, s) && t < |s.tickets| && u < |s.tickets|
    requires s.tickets[t].phase.Holding? && s.tickets[u].phase.Holding? && s.tickets[t].sid == s.tickets[u].sid
    ensures t == u
  {
    InvAlways(inputs, s);
    assert OlderReleased(s.tickets, t) && OlderReleased(s.tickets, u);
  }

  /** Holders of a session are granted in arrival order. */
  lemma GrantedInArrivalOrder(inputs: seq<Input>, s: State, j: nat, k: nat)
    requires Reaches(inputs, s) && j < k < |s.granted|
    ensures s.granted[j] < |s.tickets| && s.granted[k] < |s.tickets|
    ensures s.tickets[s.granted[j]].sid == s.tickets[s.granted[k]].sid ==> s.granted[j] < s.granted[k]
  {
    InvAlways(inputs, s);
  }

  /** A caller can be resumed exactly when every earlier caller of its session has released: the
      oldest waiter is enabled whenever nobody holds, and a newcomer never overtakes. */
  lemma EnabledExactly(inputs: seq<Input>, s: State, t: nat)
    requires Reaches(inputs, s) && t < |s.tickets|
    ensures Linked(s.tickets)
    ensures CanResume(s.tickets, t) <==> s.tickets[t].phase.Waiting? && OlderReleased(s.tickets, t)
  {
    InvAlways(inputs, s);
    ResumableExactly(s.tickets, t);
  }

  lemma OldestWaiterEnabled(inputs: seq<Input>, s: State, t: nat)
    requires Reaches(inputs, s) && t < |s.tickets| && s.tickets[t].phase.Waiting?
    requires forall u :: 0 <= u < |s.tickets| && s.tickets[u].sid == s.tickets[t].sid ==> !s.tickets[u].phase.Holding?
    requires forall u :: 0 <= u < t && s.tickets[u].sid == s.tickets[t].sid ==> !s.tickets[u].phase.Waiting?
    ensures Linked(s.tickets) && CanResume(s.tickets, t)
  {
    EnabledExactly(inputs, s, t);
  }

  /** The map entry is deleted only when no caller of the session waits or holds. */
  lemma DeletedOnlyWhenIdle(inputs: seq<Input>, s: State, t: nat)
    requires Reaches(inputs, s) && t < |s.tickets| && s.tickets[t].sid !in s.tails
    ensures s.tickets[t].phase.Released?
  {
    InvAlways(inputs, s);
    assert TailIsNewest(s, s.tickets[t].sid);
  }

  /** Once released a ticket stays released, whatever the callers do later, and its release function
      never changes anything again: not the map entry of a newcomer, and not another holder. */
  lemma {:induction false} ReleasedForGood(inputs: seq<Input>, s: State, more: seq<Input>, u: State, t: nat)
    requires Reaches(inputs, s) && Leads(s, more, u)
    requires t < |s.tickets| && s.tickets[t].phase.Released?
    ensures t < |u.tickets| && u.tickets[t].phase.Released?
    ensures Steppable(u) && Step(u, Release(t)) == u
  {
    InvAlways(inputs, s);
    LeadsKeeps(s, more, u);
    InvEnables(u);
  }

  /** Who may go on: every older caller of the session has released. */
  predicate MayGoOn(s: State, t: nat) {
    && t < |s.tickets| && s.tickets[t].phase.Waiting?
    && forall u :: 0 <= u < t && s.tickets[u].sid == s.tickets[t].sid ==> s.tickets[u].phase.Released?
  }

  /** What any step does, in every interleaving: a caller that asks waits, one that may go on holds and is
      granted next, one that holds releases, and no other ticket changes. */
  lemma StepChanges(inputs: seq<Input>, s: State, i: Input)
    requires Reaches(inputs, s)
    ensures Steppable(s)
    ensures
      var u := Step(s, i);
      match i
      case Acquire(sid) =>
        && |u.tickets| == |s.tickets| + 1 && u.tickets[..|s.tickets|] == s.tickets && u.granted == s.granted
        && u.tickets[|s.tickets|].sid == sid && u.tickets[|s.tickets|].phase.Waiting?
      case Resume(t) =>
        if MayGoOn(s, t) then
          u.tickets == s.tickets[t := s.tickets[t].(phase := Holding)] && u.granted == s.granted + [t]
        else u == s
      case Release(t) =>
        if t < |s.tickets| && s.tickets[t].phase.Holding? then
          u.tickets == s.tickets[t := s.tickets[t].(phase := Released)] && u.granted == s.granted
        else u == s
  {
    InvAlways(inputs, s);
    InvEnables(s);
    if i.Resume? && i.ticket < |s.tickets| { EnabledExactly(inputs, s, i.ticket); }
  }

  // ---- the lock object ------------------------------------------------------------------------------------------

  class Sessions {
    var tickets: seq<Ticket>
    var tails: map<string, nat>
    ghost var granted: seq<nat>

    ghost predicate Valid()
      reads this
    {
      Inv(Now())
    }

    ghost function Now(): State
      reads this
    {
      State(tickets, tails, granted)
    }

    constructor ()
      ensures Valid() && Now() == NO_SESSIONS
    {
      tickets, tails, granted := [], map[], [];
    }

    /** `acquireSession` up to its await. */
    method Enqueue(sid: string) returns (ticket: nat)
      requires Valid()
      modifies this
      ensures Valid() && Steppable(old(Now())) && Now() == Step(old(Now()), Acquire(sid))
      ensures ticket == |old(tickets)|
    {
      StepKeeps(Now(), Acquire(sid));
      var previous := if sid in tails then Some(tails[sid]) else None;
      ticket := |tickets|;
      tickets := tickets + [Ticket(sid, previous, Waiting)];
      tails := tails[sid := ticket];
    }

    /** The await returns: the caller now holds the session. */
    method Continue(ticket: nat) returns (holds: bool)
      requires Valid()
      modifies this
      ensures Valid() && Steppable(old(Now())) && Now() == Step(old(Now()), Resume(ticket))
      ensures holds <==> ticket < |old(tickets)| && Linked(old(tickets)) && CanResume(old(tickets), ticket)
    {
      StepKeeps(Now(), Resume(ticket));
      holds := ticket < |tickets| && CanResume(tickets, ticket);
      if holds {
        tickets := tickets[ticket := tickets[ticket].(phase := Holding)];
        granted := granted + [ticket];
      }
    }

    /** The returned release function. */
    method Free(ticket: nat)
      requires Valid()
      modifies this
      ensures Valid() && Steppable(old(Now())) && Now() == Step(old(Now()), Release(ticket))
    {
      StepKeeps(Now(), Release(ticket));
      if ticket >= |tickets| || !tickets[ticket].phase.Holding? { return; }
      var sid := tickets[ticket].sid;
      tickets := tickets[ticket := tickets[ticket].(phase := Released)];
      if sid in tails && tails[sid] == ticket { tails := tails - {sid}; }
    }
  }
}
