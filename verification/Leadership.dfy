/** Acquiring, renewing and resigning a role, against a cluster that other members
    use at the same time. */
module Leaderships {
  import opened Wrappers
  import opened Machine
  import opened ByteCodec
  import opened CoordinationRecords
  import opened LeaseTimings
  import opened Successions
  import opened RoleStates
  import opened Fencing

  /** What other members can do between two steps of acquisition `me`. */
  ghost predicate Foreign(me: nat, before: seq<Happened>, more: seq<Happened>) {
    Fair(before + more) && forall h :: h in more ==> h.who != me
  }

  /** The coordinator, the broker and the log of one role. */
  class Cluster {
    var current: Token
    var history: seq<Happened>

    ghost predicate Valid()
      reads this
    {
      Fair(history) && current == LastMint(history)
    }

    constructor ()
      ensures Valid() && history == []
    {
      current := NO_EPOCH;
      history := [];
    }

    /** Time passes, and other members act. */
    method Interleave(me: nat, more: seq<Happened>)
      requires Valid() && Foreign(me, history, more)
      modifies this
      ensures Valid() && history == old(history) + more
    {
      history := history + more;
      current := LastMint(history);
    }

    /** A registration carries no authority. */
    method AppendRegistration(me: nat, appended: bool)
      requires Valid()
      modifies this
      ensures Valid() && history == if appended then old(history) + [Registered(me)] else old(history)
    {
      if appended {
        FairNext(history, Registered(me));
        history := history + [Registered(me)];
      }
    }

    /** The quorum picks the token, and it only grows. */
    method AcquireEpoch(me: nat, token: Token)
      requires Valid() && token.Minted() && Supersedes(token, current)
      modifies this
      ensures Valid() && history == old(history) + [Minted(me, token)] && current == token
    {
      FairNext(history, Minted(me, token));
      history := history + [Minted(me, token)];
      current := token;
    }

    /** Accepted under the current token only. When the answer is lost the write may
        have been accepted or not. */
    method WriteLease(me: nat, token: Token, lease: Option<Lease>, lost: Option<bool>) returns (answer: Answer)
      requires Valid() && Minted(me, token) in history
      modifies this
      ensures Valid() && current == old(current) && Honest(current, token, answer)
      ensures answer.Unknown? <==> lost.Some?
      ensures Accepts(answer) <==> token == current && lost != Some(false)
      ensures history == if Accepts(answer) then old(history) + [Accepted(me, token, lease)] else old(history)
    {
      var accepted := token == current && lost != Some(false);
      answer := if lost.Some? then Unknown(accepted) else if accepted then Written else Refused;
      if accepted {
        FairNext(history, Accepted(me, token, lease));
        history := history + [Accepted(me, token, lease)];
      }
    }
  }

  /** The live leadership of one member over one role. */
  class Leadership {
    const me: nat
    const member: Name
    const token: Token
    const config: LeaseConfig
    const cluster: Cluster
    var lease: Lease
    var err: Option<Reason>
    var done: bool

    ghost predicate Valid()
      reads this, cluster
    {
      && cluster.Valid()
      && Minted(me, token) in cluster.history
      && lease.token == token
      && (err.Some? <==> done)
    }

    ghost function Content(): Acquisition
      reads this
    {
      Leading(token, lease, err, false, false)
    }

    constructor (me: nat, member: Name, token: Token, config: LeaseConfig, cluster: Cluster, lease: Lease)
      requires cluster.Valid() && Minted(me, token) in cluster.history && lease.token == token
      ensures Valid() && this.me == me && this.token == token && this.cluster == cluster && this.member == member
      ensures Content() == Leading(token, lease, None, false, false) && this.config == config
    {
      this.me, this.member, this.token, this.config, this.cluster := me, member, token, config, cluster;
      this.lease := lease;
      err := None;
      done := false;
    }

    /** Records the first reason and closes the channel once. */
    method End(reason: Reason)
      requires Valid()
      modifies `err, `done
      ensures Valid() && Content() == Ended(old(Content()), reason) && done
    {
      if err.None? {
        err := Some(reason);
      }
      done := true;
    }

    /** What a renewal leaves: under the current token the lease is in the log unless the
        write itself was lost, and the handle has it once that is answered; under an older
        token the handle ends when it hears of it. */
    ghost predicate Renews(now: Int64, lost: Option<bool>, wins: bool, before: Lease, was: seq<Happened>)
      reads this, cluster
    {
      var granted := config.Grant(member, token, now);
      && cluster.history == (if wins && lost != Some(false) then was + [Accepted(me, token, Some(granted))] else was)
      && lease == (if lost.None? && wins then granted else before)
      && err == (if lost.None? && !wins then Some(Fenced) else None)
    }

    /** Writes a fresh lease under the same token, unless the leadership has ended. */
    method RenewLease(now: Int64, lost: Option<bool>) returns (failure: Option<Reason>, answered: bool)
      requires Valid()
      modifies this, cluster
      ensures Valid() && cluster.current == old(cluster.current)
      ensures old(err).Some? ==>
                failure == old(err) && Content() == old(Content()) && cluster.history == old(cluster.history)
      ensures old(err).None? ==>
                exists answer ::
                  && Honest(old(cluster.current), token, answer)
                  && (answer.Unknown? <==> lost.Some?)
                  && Content() == AfterRenewal(old(Content()).(renewing := true), config.Grant(member, token, now), answer)
                  && cluster.history == (if Accepts(answer)
                                         then old(cluster.history) + [Accepted(me, token, Some(config.Grant(member, token, now)))]
                                         else old(cluster.history))
                  && (failure == if answer == Refused then Some(Fenced) else None)
      ensures old(err).None? ==> (answered <==> lost.None?)
      ensures old(err).None? ==> Renews(now, lost, old(cluster.current) == token, old(lease), old(cluster.history))
    {
      if err.Some? { return err, true; }
      var granted := config.Grant(member, token, now);
      var answer := cluster.WriteLease(me, token, Some(granted), lost);
      if answer == Refused {
        End(Fenced);
        return Some(Fenced), true;
      }
      if answer.Unknown? { return None, false; }
      lease := granted;
      failure, answered := None, true;
    }

    /** Gives the role up and writes a tombstone, whatever comes of the write. */
    method ResignRole(lost: Option<bool>) returns (answer: Option<Answer>)
      requires Valid()
      modifies this, cluster
      ensures Valid() && cluster.current == old(cluster.current) && done
      ensures Content() == Ended(old(Content()), Resigned)
      ensures answer.Some? <==> old(err).None?
      ensures answer.None? ==> cluster.history == old(cluster.history)
      ensures answer.Some? ==>
                && Honest(old(cluster.current), token, answer.value)
                && cluster.history == if Accepts(answer.value) then old(cluster.history) + [Accepted(me, token, None)]
                                      else old(cluster.history)
    {
      var ended := err.Some?;
      End(Resigned);
      if ended { return None; }
      var a := cluster.WriteLease(me, token, None, lost);
      answer := Some(a);
    }

    /** One turn of the renewal loop: it stops for good once the leadership has
        ended, and it ends the leadership when the deadline passes unrenewed. */
    method RenewalTurn(now: Int64, later: Int64, lost: Option<bool>) returns (goesOn: bool)
      requires Valid()
      modifies this, cluster
      ensures Valid() && cluster.current == old(cluster.current)
      ensures goesOn <==> !done
      ensures old(done) ==> done && cluster.history == old(cluster.history) && Content() == old(Content())
      ensures !old(done) ==>
                var granted, wins := config.Grant(member, token, now), old(cluster.current) == token;
                && cluster.history == (if wins && lost != Some(false) then old(cluster.history) + [Accepted(me, token, Some(granted))]
                                       else old(cluster.history))
                && lease == (if lost.None? && wins then granted else old(lease))
                && err == (if lost.None? then (if wins then None else Some(Fenced))
                           else if later >= old(lease.deadline) then Some(Expired) else None)
    {
      var expiresAt := lease.deadline;
      var failure, answered := RenewLease(now, lost);
      if failure.Some? { return false; }
      if !answered && later >= expiresAt {
        End(Expired);
        return false;
      }
      goesOn := true;
    }
  }

  /** What one turn of an acquisition meets. Others act before it and between its
      mint and its write, it reads some state of the role, the clock shows any time,
      and any answer may be lost. */
  datatype Turn = Turn(
    before: seq<Happened> -> seq<Happened>,
    read: seq<Happened> -> Option<RoleState>,
    now: Int64,
    appended: bool,
    reported: bool,
    mint: Token -> Option<Token>,
    minted: bool,
    between: seq<Happened> -> seq<Happened>,
    later: Int64,
    lost: Option<bool>)

  ghost predicate Lawful(me: nat, turn: Turn) {
    && (forall h: seq<Happened> :: Fair(h) ==> Foreign(me, h, turn.before(h)))
    && (forall h: seq<Happened> :: Fair(h) ==> Foreign(me, h, turn.between(h)))
    && (forall t: Token :: turn.mint(t).Some? ==> turn.mint(t).value.Minted() && Supersedes(turn.mint(t).value, t))
    && (turn.reported ==> turn.appended)
  }

  datatype Outcome = Acquired(leadership: Leadership) | StillWaiting | Stopped

  lemma {:induction false} OthersDoNotRegister(me: nat, before: seq<Happened>, more: seq<Happened>)
    requires forall h :: h in more ==> h.who != me
    ensures Registrations(before + more, me) == Registrations(before, me)
  {
    if more == [] {
      assert before + more == before;
    } else {
      var fewer, last := more[..|more| - 1], more[|more| - 1];
      assert before + more == before + fewer + [last];
      OthersDoNotRegister(me, before, fewer);
      RegistrationsNext(before + fewer, last, me);
      assert last in more;
    }
  }

  lemma {:induction false} NoneRegistered(me: nat, history: seq<Happened>)
    requires forall h :: h in history ==> h.who != me
    ensures Registrations(history, me) == 0
  {
    OthersDoNotRegister(me, [], history);
    assert [] + history == history;
  }

  // --------------------------------------------------------- what a turn comes to

  /** A turn goes on to the next one, stops the acquisition, or ends it with the role. */
  datatype End = GoesOn | Stops | Leads

  function EndOf(outcome: Outcome): End {
    match outcome
    case Acquired(_) => Leads
    case StillWaiting => GoesOn
    case Stopped => Stops
  }

  /** One turn of an acquisition: what the log of the cluster held before and after it,
      and whether the member had registered. */
  datatype Passed = Passed(turn: Turn, registered: bool, was: seq<Happened>, now: seq<Happened>, end: End, after: bool) {
    /** What the turn finds when it reads the role. */
    function Found(): seq<Happened> { was + turn.before(was) }
  }

  /** The attempt to take the role. A mint that succeeds is in the log whatever follows;
      the first lease is accepted unless another mint has come between, and the role is
      taken if that is answered. */
  ghost predicate IsAttempt(me: nat, member: Name, config: LeaseConfig, turn: Turn, found: seq<Happened>, now: seq<Happened>, end: End) {
    match turn.mint(LastMint(found))
    case None => now == found && end == Stops
    case Some(token) =>
      var minted := found + [Minted(me, token)];
      if !turn.minted then now == minted && end == Stops
      else
        var late := minted + turn.between(minted);
        IsFirstWrite(me, token, config.Grant(member, token, turn.later), turn.lost, late, LastMint(late) == token, now, end)
  }

  ghost predicate IsFirstWrite(me: nat, token: Token, lease: Lease, lost: Option<bool>, late: seq<Happened>, wins: bool, now: seq<Happened>, end: End) {
    && now == (if wins && lost != Some(false) then late + [Accepted(me, token, Some(lease))] else late)
    && end == (if lost.Some? then Stops else if wins then Leads else GoesOn)
  }

  /** What a turn does is decided by the state it read. It registers a member the state
      does not name, once; it takes the role when it is due; and otherwise it waits. */
  ghost predicate Passes(me: nat, member: Name, config: LeaseConfig, p: Passed) {
    match p.turn.read(p.Found())
    case None => p.now == p.Found() && p.end == Stops && p.after == p.registered
    case Some(state) =>
      if IsRegistered(state, member) then
        RegisteredIsRanked(state, member);
        p.after == p.registered
        && if IsDue(state, member, p.turn.now, config) then IsAttempt(me, member, config, p.turn, p.Found(), p.now, p.end)
           else p.now == p.Found() && p.end == GoesOn
      else if p.registered then p.now == p.Found() && p.end == GoesOn && p.after
      else
        && p.now == (if p.turn.appended then p.Found() + [Registered(me)] else p.Found())
        && p.end == (if p.turn.reported then GoesOn else Stops)
        && p.after == p.turn.reported
  }

  /** Mints the epoch of the role; others may act before the next step. */
  method MintEpoch(cluster: Cluster, me: nat, turn: Turn) returns (token: Option<Token>)
    requires cluster.Valid() && Lawful(me, turn)
    modifies cluster
    ensures cluster.Valid() && Registrations(cluster.history, me) == old(Registrations(cluster.history, me))
    ensures token.Some? ==> Minted(me, token.value) in cluster.history
    ensures match turn.mint(LastMint(old(cluster.history)))
            case None => token.None? && cluster.history == old(cluster.history)
            case Some(minted) =>
              var log := old(cluster.history) + [Minted(me, minted)];
              if turn.minted then token == Some(minted) && cluster.history == log + turn.between(log)
              else token.None? && cluster.history == log
  {
    token := turn.mint(cluster.current);
    if token.None? { return; }
    RegistrationsNext(cluster.history, Minted(me, token.value), me);
    cluster.AcquireEpoch(me, token.value);
    if !turn.minted { return None; }
    ghost var minted := cluster.history;
    assert minted[|minted| - 1] == Minted(me, token.value);
    OthersDoNotRegister(me, cluster.history, turn.between(cluster.history));
    cluster.Interleave(me, turn.between(cluster.history));
    assert cluster.history[|minted| - 1] == Minted(me, token.value);
  }

  /** Writes the first lease under a fresh epoch. It registers nobody. */
  method ChallengeRole(cluster: Cluster, me: nat, member: Name, config: LeaseConfig, turn: Turn) returns (outcome: Outcome)
    requires cluster.Valid() && Lawful(me, turn)
    modifies cluster
    ensures cluster.Valid() && Registrations(cluster.history, me) == old(Registrations(cluster.history, me))
    ensures outcome.Acquired? ==> fresh(outcome.leadership) && IsAcquired(cluster, me, member, config, outcome.leadership)
    ensures IsAttempt(me, member, config, turn, old(cluster.history), cluster.history, EndOf(outcome))
  {
    var token := MintEpoch(cluster, me, turn);
    if token.None? { return Stopped; }
    outcome := TakeRole(cluster, me, member, config, turn, token.value);
  }

  /** The first write under a fresh token. */
  method TakeRole(cluster: Cluster, me: nat, member: Name, config: LeaseConfig, turn: Turn, token: Token) returns (outcome: Outcome)
    requires cluster.Valid() && Minted(me, token) in cluster.history
    modifies cluster
    ensures cluster.Valid() && Registrations(cluster.history, me) == old(Registrations(cluster.history, me))
    ensures outcome.Acquired? ==> fresh(outcome.leadership) && IsAcquired(cluster, me, member, config, outcome.leadership)
    ensures IsFirstWrite(me, token, config.Grant(member, token, turn.later), turn.lost, old(cluster.history),
                         old(cluster.current) == token, cluster.history, EndOf(outcome))
  {
    var lease := config.Grant(member, token, turn.later);
    RegistrationsNext(cluster.history, Accepted(me, token, Some(lease)), me);
    var answer := cluster.WriteLease(me, token, Some(lease), turn.lost);
    if answer == Refused { return StillWaiting; }
    if answer.Unknown? { return Stopped; }
    var leadership := new Leadership(me, member, token, config, cluster, lease);
    outcome := Acquired(leadership);
  }

  /** A leadership that rests on a token of its own and on a lease that the broker
      accepted under that token. */
  ghost predicate IsAcquired(cluster: Cluster, me: nat, member: Name, config: LeaseConfig, l: Leadership)
    reads l, cluster
  {
    && l.cluster == cluster && l.Valid() && l.me == me && l.member == member && l.config == config
    && l.Content() == Leading(l.token, l.lease, None, false, false)
    && Accepted(me, l.token, Some(l.lease)) in cluster.history
    && l.token == cluster.current
  }

  /** One turn of the loop: read, decide, and register, wait or take the role. */
  method TakeTurn(cluster: Cluster, me: nat, member: Name, config: LeaseConfig, turn: Turn, registered: bool)
    returns (outcome: Outcome, after: bool)
    requires cluster.Valid() && Lawful(me, turn) && config.Legal()
    requires Registrations(cluster.history, me) <= if registered then 1 else 0
    modifies cluster
    ensures cluster.Valid() && Registrations(cluster.history, me) <= 1
    ensures outcome.StillWaiting? ==> Registrations(cluster.history, me) <= if after then 1 else 0
    ensures outcome.Acquired? ==> fresh(outcome.leadership) && IsAcquired(cluster, me, member, config, outcome.leadership)
    ensures Passes(me, member, config, Passed(turn, registered, old(cluster.history), cluster.history, EndOf(outcome), after))
  {
    after := registered;
    OthersDoNotRegister(me, cluster.history, turn.before(cluster.history));
    cluster.Interleave(me, turn.before(cluster.history));
    var state := turn.read(cluster.history);
    if state.None? { return Stopped, after; }
    DecisionIsDue(state.value, member, turn.now, config);
    var decision := Evaluate(state.value, member, turn.now, config);
    match decision {
      case NotRegistered =>
        if registered { return StillWaiting, after; }
        RegistrationsNext(cluster.history, Registered(me), me);
        cluster.AppendRegistration(me, turn.appended);
        if !turn.reported { return Stopped, after; }
        return StillWaiting, true;
      case Wait(_) =>
        return StillWaiting, after;
      case _ =>
        outcome := ChallengeRole(cluster, me, member, config, turn);
    }
  }

  /** What the log holds after the first turns of a trace. */
  function LogBefore(was: seq<Happened>, trace: seq<Passed>, k: nat): seq<Happened>
    requires k <= |trace|
  {
    if k == 0 then was else trace[k - 1].now
  }

  ghost predicate Follows(turns: seq<Turn>, was: seq<Happened>, trace: seq<Passed>, k: nat)
    requires k < |trace| <= |turns|
  {
    && trace[k].turn == turns[k]
    && trace[k].was == LogBefore(was, trace, k)
    && (trace[k].registered <==> k > 0 && trace[k - 1].after)
    && (k > 0 ==> trace[k - 1].end == GoesOn)
  }

  /** The turns of an acquisition, each where the one before left off. */
  ghost predicate IsTrace(me: nat, member: Name, config: LeaseConfig, turns: seq<Turn>, was: seq<Happened>, trace: seq<Passed>) {
    && |trace| <= |turns|
    && (forall k :: 0 <= k < |trace| ==> Follows(turns, was, trace, k))
    && AllPass(me, member, config, trace)
  }

  ghost predicate AllPass(me: nat, member: Name, config: LeaseConfig, trace: seq<Passed>) {
    forall k :: 0 <= k < |trace| ==> Passes(me, member, config, trace[k])
  }

  lemma {:induction false} TraceNext(me: nat, member: Name, config: LeaseConfig, turns: seq<Turn>, was: seq<Happened>, trace: seq<Passed>, p: Passed)
    requires IsTrace(me, member, config, turns, was, trace) && |trace| < |turns|
    requires Passes(me, member, config, p) && Follows(turns, was, trace + [p], |trace|)
    ensures IsTrace(me, member, config, turns, was, trace + [p])
  {
    AllPassNext(me, member, config, trace, p);
    forall k: nat | k < |trace| ensures Follows(turns, was, trace + [p], k) {
      assert Follows(turns, was, trace, k);
    }
  }

  lemma {:induction false} AllPassNext(me: nat, member: Name, config: LeaseConfig, trace: seq<Passed>, p: Passed)
    requires AllPass(me, member, config, trace) && Passes(me, member, config, p)
    ensures AllPass(me, member, config, trace + [p])
  {
    forall k | 0 <= k < |trace + [p]| ensures Passes(me, member, config, (trace + [p])[k]) {
      if k < |trace| {
        assert Passes(me, member, config, trace[k]);
      }
    }
  }

  /** Where an acquisition stands that goes on after some turns. */
  ghost predicate StandsAfter(me: nat, member: Name, config: LeaseConfig, turns: seq<Turn>, was: seq<Happened>, trace: seq<Passed>,
                              now: seq<Happened>, registered: bool)
  {
    && IsTrace(me, member, config, turns, was, trace)
    && now == LogBefore(was, trace, |trace|)
    && (registered <==> trace != [] && trace[|trace| - 1].after)
    && (trace != [] ==> trace[|trace| - 1].end == GoesOn)
  }

  lemma {:induction false} StandsNext(me: nat, member: Name, config: LeaseConfig, turns: seq<Turn>, was: seq<Happened>, trace: seq<Passed>, p: Passed)
    requires StandsAfter(me, member, config, turns, was, trace, p.was, p.registered) && |trace| < |turns|
    requires Passes(me, member, config, p) && p.turn == turns[|trace|]
    ensures IsTrace(me, member, config, turns, was, trace + [p]) && LogBefore(was, trace + [p], |trace| + 1) == p.now
    ensures p.end == GoesOn ==> StandsAfter(me, member, config, turns, was, trace + [p], p.now, p.after)
  {
    TraceNext(me, member, config, turns, was, trace, p);
  }

  /** The acquisition loop, for as many turns as the caller waits. Whatever they
      bring, it registers once at most, and each turn does what the state it reads
      calls for. */
  method AcquireLeadership(cluster: Cluster, me: nat, member: Name, config: LeaseConfig, turns: seq<Turn>)
    returns (outcome: Outcome, ghost trace: seq<Passed>)
    requires cluster.Valid() && (forall h :: h in cluster.history ==> h.who != me)
    requires config.Legal() && forall i :: 0 <= i < |turns| ==> Lawful(me, turns[i])
    modifies cluster
    ensures cluster.Valid() && Registrations(cluster.history, me) <= 1
    ensures outcome.Acquired? ==> fresh(outcome.leadership) && IsAcquired(cluster, me, member, config, outcome.leadership)
    ensures IsTrace(me, member, config, turns, old(cluster.history), trace)
    ensures cluster.history == LogBefore(old(cluster.history), trace, |trace|)
    ensures if outcome.StillWaiting? then |trace| == |turns| && (trace != [] ==> trace[|trace| - 1].end == GoesOn)
            else trace != [] && trace[|trace| - 1].end == EndOf(outcome)
  {
    var registered := false;
    trace := [];
    ghost var start := cluster.history;
    NoneRegistered(me, cluster.history);
    for i := 0 to |turns|
      invariant cluster.Valid() && Registrations(cluster.history, me) <= if registered then 1 else 0
      invariant |trace| == i && StandsAfter(me, member, config, turns, start, trace, cluster.history, registered)
    {
      ghost var was := cluster.history;
      var after;
      outcome, after := TakeTurn(cluster, me, member, config, turns[i], registered);
      StandsNext(me, member, config, turns, start, trace,
                 Passed(turns[i], registered, was, cluster.history, EndOf(outcome), after));
      trace := trace + [Passed(turns[i], registered, was, cluster.history, EndOf(outcome), after)];
      if !outcome.StillWaiting? { return; }
      registered := after;
    }
    outcome := StillWaiting;
  }

  // ------------------------------------------------------- who takes the role when

  /** The turn read a state that names the member. */
  ghost predicate ReadsRegistered(member: Name, p: Passed) {
    p.turn.read(p.Found()).Some? && IsRegistered(p.turn.read(p.Found()).value, member)
  }

  /** In that state the member was due. */
  ghost predicate ReadsDue(member: Name, config: LeaseConfig, p: Passed) {
    && ReadsRegistered(member, p)
    && (RegisteredIsRanked(p.turn.read(p.Found()).value, member);
        IsDue(p.turn.read(p.Found()).value, member, p.turn.now, config))
  }

  /** This member did something in the turn, of this kind or any. */
  ghost predicate MintsIn(me: nat, p: Passed) {
    exists i :: |p.was| <= i < |p.now| && p.now[i].who == me && p.now[i].Minted?
  }

  ghost predicate ActsIn(me: nat, p: Passed) {
    exists i :: |p.was| <= i < |p.now| && p.now[i].who == me
  }

  lemma {:induction false} OthersKeepLog(me: nat, before: seq<Happened>, more: seq<Happened>)
    requires Foreign(me, before, more)
    ensures before <= before + more && forall i :: |before| <= i < |before + more| ==> (before + more)[i].who != me
  {
    forall i | |before| <= i < |before + more| ensures (before + more)[i].who != me {
      assert (before + more)[i] == more[i - |before|] && more[i - |before|] in more;
    }
  }

  /** An attempt adds the mint, if there is one, then what others do, then the first
      lease. */
  lemma {:induction false} AttemptMints(me: nat, member: Name, config: LeaseConfig, turn: Turn, found: seq<Happened>, now: seq<Happened>, end: End)
    requires Lawful(me, turn) && Fair(found) && IsAttempt(me, member, config, turn, found, now, end)
    ensures found <= now && Fair(now)
    ensures turn.mint(LastMint(found)).Some? ==> |found| < |now| && now[|found|] == Minted(me, turn.mint(LastMint(found)).value)
    ensures turn.mint(LastMint(found)).None? ==> now == found
    ensures forall i :: |found| < i < |now| && now[i].who == me ==> now[i].Accepted?
  {
    if turn.mint(LastMint(found)).Some? {
      var token := turn.mint(LastMint(found)).value;
      var minted := found + [Minted(me, token)];
      FairNext(found, Minted(me, token));
      assert minted[|found|] == Minted(me, token);
      if turn.minted {
        var late, lease := minted + turn.between(minted), config.Grant(member, token, turn.later);
        assert Foreign(me, minted, turn.between(minted));
        OthersKeepLog(me, minted, turn.between(minted));
        assert late[|found|] == minted[|found|];
        FirstWriteKeepsLog(me, token, lease, turn.lost, late, LastMint(late) == token, now, end);
      }
    }
  }

  lemma {:induction false} FirstWriteKeepsLog(me: nat, token: Token, lease: Lease, lost: Option<bool>, late: seq<Happened>, wins: bool, now: seq<Happened>, end: End)
    requires IsFirstWrite(me, token, lease, lost, late, wins, now, end)
    requires Fair(late) && Minted(me, token) in late && (wins ==> LastMint(late) == token)
    ensures late <= now && Fair(now) && forall i :: |late| <= i < |now| ==> now[i].Accepted?
  {
    if wins { FairNext(late, Accepted(me, token, Some(lease))); }
  }

  lemma {:induction false} PassKeepsLog(me: nat, member: Name, config: LeaseConfig, p: Passed)
    requires Lawful(me, p.turn) && Fair(p.was) && Passes(me, member, config, p)
    ensures p.was <= p.now && Fair(p.now)
  {
    OthersKeepLog(me, p.was, p.turn.before(p.was));
    if ReadsDue(member, config, p) {
      AttemptMints(me, member, config, p.turn, p.Found(), p.now, p.end);
    } else {
      FairNext(p.Found(), Registered(me));
    }
  }

  /** A turn mints if and only if the state it read made the member due and the quorum
      answered; and a member that waits does nothing. */
  lemma {:induction false} TakesWhenDue(me: nat, member: Name, config: LeaseConfig, p: Passed)
    requires Lawful(me, p.turn) && Fair(p.was) && Passes(me, member, config, p)
    ensures MintsIn(me, p) <==> ReadsDue(member, config, p) && p.turn.mint(LastMint(p.Found())).Some?
    ensures ReadsRegistered(member, p) && !ReadsDue(member, config, p) ==> !ActsIn(me, p) && p.end == GoesOn
  {
    OthersKeepLog(me, p.was, p.turn.before(p.was));
    if ReadsDue(member, config, p) {
      AttemptMints(me, member, config, p.turn, p.Found(), p.now, p.end);
      if p.turn.mint(LastMint(p.Found())).Some? {
        assert p.now[|p.Found()|].who == me && p.now[|p.Found()|].Minted?;
      }
    }
  }

  /** Nobody deposes a live holder: a turn that finds another member's lease live does not
      mint. */
  lemma {:induction false} LiveHolderIsLeftAlone(me: nat, member: Name, config: LeaseConfig, p: Passed, state: RoleState)
    requires Lawful(me, p.turn) && Fair(p.was) && Passes(me, member, config, p) && config.Legal()
    requires p.turn.read(p.Found()) == Some(state) && |state.roster| <= MAX_INT64
    requires state.lease.Some? && !Holds(state, member) && LiveAt(state.lease.value, p.turn.now)
    ensures !MintsIn(me, p)
  {
    TakesWhenDue(me, member, config, p);
    if ReadsRegistered(member, p) {
      RegisteredIsRanked(state, member);
      LiveLeaseIsRespected(state, member, p.turn.now, config);
    }
  }

  ghost predicate IsLinked(was: seq<Happened>, trace: seq<Passed>, k: nat)
    requires k < |trace|
  {
    trace[k].was == LogBefore(was, trace, k)
  }

  ghost predicate AreLinked(was: seq<Happened>, trace: seq<Passed>) {
    forall k: nat :: k < |trace| ==> IsLinked(was, trace, k)
  }

  /** Turns that follow each other and keep some property of the log keep it throughout,
      and keep the log. */
  lemma {:induction false} LogIsKept(keeps: seq<Happened> -> bool, was: seq<Happened>, trace: seq<Passed>, n: nat)
    requires n <= |trace| && keeps(was) && AreLinked(was, trace)
    requires forall k :: 0 <= k < |trace| && keeps(trace[k].was) ==> trace[k].was <= trace[k].now && keeps(trace[k].now)
    ensures was <= LogBefore(was, trace, n) && keeps(LogBefore(was, trace, n))
  {
    if n > 0 {
      LogIsKept(keeps, was, trace, n - 1);
      assert IsLinked(was, trace, n - 1);
    }
  }

  /** What is new in the log happened in one of the turns. */
  lemma {:induction false} TurnOf(was: seq<Happened>, trace: seq<Passed>, n: nat, i: nat) returns (k: nat)
    requires n <= |trace| && |was| <= i < |LogBefore(was, trace, n)| && AreLinked(was, trace)
    requires forall k :: 0 <= k < |trace| ==> trace[k].was <= trace[k].now
    ensures k < n && |trace[k].was| <= i < |trace[k].now| && trace[k].now[i] == LogBefore(was, trace, n)[i]
  {
    k := n - 1;
    assert IsLinked(was, trace, k);
    if i < |trace[k].was| {
      assert trace[k].was[i] == trace[k].now[i];
      k := TurnOf(was, trace, n - 1, i);
    }
  }

  lemma {:induction false} TurnsAreFair(me: nat, member: Name, config: LeaseConfig, turns: seq<Turn>, was: seq<Happened>, trace: seq<Passed>)
    requires IsTrace(me, member, config, turns, was, trace) && Fair(was)
    requires forall i :: 0 <= i < |turns| ==> Lawful(me, turns[i])
    ensures AreLinked(was, trace)
    ensures forall k :: 0 <= k < |trace| ==> Fair(trace[k].was) && trace[k].was <= trace[k].now
    ensures was <= LogBefore(was, trace, |trace|)
  {
    forall k: nat | k < |trace| ensures IsLinked(was, trace, k) {
      assert Follows(turns, was, trace, k);
    }
    forall k | 0 <= k < |trace| && Fair(trace[k].was) ensures trace[k].was <= trace[k].now && Fair(trace[k].now) {
      assert Follows(turns, was, trace, k);
      PassKeepsLog(me, member, config, trace[k]);
    }
    LogIsKept(h => Fair(h), was, trace, |trace|);
    forall k: nat | k < |trace| ensures Fair(trace[k].was) {
      LogIsKept(h => Fair(h), was, trace, k);
      assert IsLinked(was, trace, k);
    }
  }

  /** In turn `k` the member was due, and what is at place `i` of the log happened. */
  ghost predicate DueInTurn(member: Name, config: LeaseConfig, trace: seq<Passed>, i: nat, k: nat) {
    k < |trace| && |trace[k].was| <= i < |trace[k].now| && ReadsDue(member, config, trace[k])
  }

  /** Whatever the turns of an acquisition bring: every mint of this member happened in a
      turn that found it registered and due. */
  lemma {:induction false} EveryMintIsDue(me: nat, member: Name, config: LeaseConfig, turns: seq<Turn>, was: seq<Happened>, trace: seq<Passed>)
    requires IsTrace(me, member, config, turns, was, trace) && Fair(was)
    requires forall i :: 0 <= i < |turns| ==> Lawful(me, turns[i])
    ensures var log := LogBefore(was, trace, |trace|);
            was <= log && forall i :: |was| <= i < |log| && log[i].who == me && log[i].Minted? ==>
                                        exists k :: DueInTurn(member, config, trace, i, k)
  {
    var log := LogBefore(was, trace, |trace|);
    TurnsAreFair(me, member, config, turns, was, trace);
    forall i | |was| <= i < |log| && log[i].who == me && log[i].Minted? ensures exists k :: DueInTurn(member, config, trace, i, k) {
      var k := TurnOf(was, trace, |trace|, i);
      MintWasDue(me, member, config, turns, was, trace, i, k);
    }
  }

  lemma {:induction false} MintWasDue(me: nat, member: Name, config: LeaseConfig, turns: seq<Turn>, was: seq<Happened>, trace: seq<Passed>, i: nat, k: nat)
    requires IsTrace(me, member, config, turns, was, trace) && forall i :: 0 <= i < |turns| ==> Lawful(me, turns[i])
    requires k < |trace| && Fair(trace[k].was) && |trace[k].was| <= i < |trace[k].now| && trace[k].now[i].who == me && trace[k].now[i].Minted?
    ensures DueInTurn(member, config, trace, i, k)
  {
    assert Follows(turns, was, trace, k);
    assert MintsIn(me, trace[k]);
    TakesWhenDue(me, member, config, trace[k]);
  }
}
