/** Leader election as a state machine: members that acquire, renew and resign in
    any interleaving and under any clocks, a coordinator that mints growing tokens,
    and a broker that accepts a lease write under the current token only. */
module Fencing {
  import opened Wrappers
  import opened Machine
  import opened ByteCodec
  import opened CoordinationRecords

  /** What the cluster has done, in the order it happened: an acquisition put a
      registration into the log, the coordinator minted a token for one, or the
      broker accepted a lease record or its tombstone from one. */
  datatype Happened =
    | Registered(who: nat)
    | Minted(who: nat, token: Token)
    | Accepted(who: nat, token: Token, lease: Option<Lease>)

  datatype Reason = Fenced | Resigned | Expired

  /** How far one call of an acquisition has come, and then its handle. A renewal is
      under way from the check that the handle has not ended to its write, and a
      resignation from the end of the handle to its write. */
  datatype Acquisition =
    | Reading(registered: bool)
    | Holding(registered: bool, token: Token)
    | Leading(token: Token, lease: Lease, ended: Option<Reason>, renewing: bool, resigning: bool)
    | GaveUp

  datatype World = World(history: seq<Happened>, current: Token, acquisitions: seq<Acquisition>)

  const START := World([], NO_EPOCH, [])

  /** The answer to a lease write. Without an answer the write may have been accepted. */
  datatype Answer = Written | Refused | Unknown(accepted: bool)

  datatype Event =
    | Begin
    | Register(a: nat, appended: bool, reported: bool)
    | Mint(a: nat, token: Token, reported: bool)
    | FirstWrite(a: nat, lease: Lease, answer: Answer)
    | StartRenewal(a: nat)
    | Renew(a: nat, lease: Lease, answer: Answer)
    | StartResignation(a: nat)
    | Resign(a: nat, answer: Answer)
    | Expire(a: nat)
    | Abandon(a: nat)

  predicate Accepts(answer: Answer) { answer == Written || answer == Unknown(true) }

  /** The contract of the broker. */
  predicate Honest(current: Token, token: Token, answer: Answer) {
    (Accepts(answer) ==> token == current) && (answer == Refused ==> token != current)
  }

  /** When an event can happen. No clock is consulted anywhere. */
  predicate Enabled(w: World, e: Event) {
    match e
    case Begin => true
    case Register(a, appended, reported) =>
      a < |w.acquisitions| && w.acquisitions[a].Reading? && !w.acquisitions[a].registered && (reported ==> appended)
    case Mint(a, token, _) =>
      a < |w.acquisitions| && w.acquisitions[a].Reading? && token.Minted() && Supersedes(token, w.current)
    case FirstWrite(a, lease, answer) =>
      a < |w.acquisitions| && w.acquisitions[a].Holding? && lease.token == w.acquisitions[a].token
      && Honest(w.current, w.acquisitions[a].token, answer)
    case StartRenewal(a) =>
      a < |w.acquisitions| && w.acquisitions[a].Leading? && w.acquisitions[a].ended.None?
    case Renew(a, lease, answer) =>
      a < |w.acquisitions| && w.acquisitions[a].Leading? && w.acquisitions[a].renewing
      && lease.token == w.acquisitions[a].token && Honest(w.current, w.acquisitions[a].token, answer)
    case StartResignation(a) =>
      a < |w.acquisitions| && w.acquisitions[a].Leading? && w.acquisitions[a].ended.None?
    case Resign(a, answer) =>
      a < |w.acquisitions| && w.acquisitions[a].Leading? && w.acquisitions[a].resigning
      && Honest(w.current, w.acquisitions[a].token, answer)
    case Expire(a) => a < |w.acquisitions| && w.acquisitions[a].Leading?
    case Abandon(a) => a < |w.acquisitions| && !w.acquisitions[a].Leading?
  }

  function Append(w: World, happened: Happened, when: bool): seq<Happened> {
    if when then w.history + [happened] else w.history
  }

  function Ended(h: Acquisition, reason: Reason): Acquisition
    requires h.Leading?
  {
    if h.ended.None? then h.(ended := Some(reason)) else h
  }

  /** A fenced first write sends the acquisition back to reading. */
  function AfterFirstWrite(h: Acquisition, lease: Lease, answer: Answer): Acquisition
    requires h.Holding?
  {
    match answer
    case Written => Leading(h.token, lease, None, false, false)
    case Refused => Reading(h.registered)
    case Unknown(_) => GaveUp
  }

  /** A fenced renewal ends the handle, and a lost answer leaves it as it was. */
  function AfterRenewal(h: Acquisition, lease: Lease, answer: Answer): Acquisition
    requires h.Leading?
  {
    match answer
    case Written => h.(lease := lease, renewing := false)
    case Refused => Ended(h.(renewing := false), Fenced)
    case Unknown(_) => h.(renewing := false)
  }

  function Step(w: World, e: Event): World
    requires Enabled(w, e)
  {
    match e
    case Begin => w.(acquisitions := w.acquisitions + [Reading(false)])
    case Register(a, appended, reported) =>
      World(Append(w, Registered(a), appended), w.current,
            w.acquisitions[a := if reported then Reading(true) else GaveUp])
    case Mint(a, token, reported) =>
      World(w.history + [Minted(a, token)], token,
            w.acquisitions[a := if reported then Holding(w.acquisitions[a].registered, token) else GaveUp])
    case FirstWrite(a, lease, answer) =>
      World(Append(w, Accepted(a, w.acquisitions[a].token, Some(lease)), Accepts(answer)), w.current,
            w.acquisitions[a := AfterFirstWrite(w.acquisitions[a], lease, answer)])
    case StartRenewal(a) => w.(acquisitions := w.acquisitions[a := w.acquisitions[a].(renewing := true)])
    case Renew(a, lease, answer) =>
      World(Append(w, Accepted(a, w.acquisitions[a].token, Some(lease)), Accepts(answer)), w.current,
            w.acquisitions[a := AfterRenewal(w.acquisitions[a], lease, answer)])
    case StartResignation(a) =>
      w.(acquisitions := w.acquisitions[a := Ended(w.acquisitions[a].(resigning := true), Resigned)])
    case Resign(a, answer) =>
      World(Append(w, Accepted(a, w.acquisitions[a].token, None), Accepts(answer)), w.current,
            w.acquisitions[a := w.acquisitions[a].(resigning := false)])
    case Expire(a) => w.(acquisitions := w.acquisitions[a := Ended(w.acquisitions[a], Expired)])
    case Abandon(a) => w.(acquisitions := w.acquisitions[a := GaveUp])
  }

  /** The world after some events, if each of them can happen. */
  function After(events: seq<Event>): Option<World> {
    if events == [] then Some(START)
    else
      match After(events[..|events| - 1])
      case None => None
      case Some(w) => if Enabled(w, events[|events| - 1]) then Some(Step(w, events[|events| - 1])) else None
  }

  // --------------------------------------------------------------- invariants

  /** The token of the last mint. */
  function LastMint(history: seq<Happened>): Token {
    if history == [] then NO_EPOCH
    else if history[|history| - 1].Minted? then history[|history| - 1].token
    else LastMint(history[..|history| - 1])
  }

  /** Mints grow, and a write is accepted only from the acquisition that minted last. */
  ghost predicate Fair(history: seq<Happened>) {
    && (forall i :: 0 <= i < |history| && history[i].Minted? ==>
          history[i].token.Minted() && Supersedes(history[i].token, LastMint(history[..i])))
    && (forall i :: 0 <= i < |history| && history[i].Accepted? ==>
          && history[i].token == LastMint(history[..i])
          && Minted(history[i].who, history[i].token) in history[..i])
  }

  function TokenOf(h: Acquisition): Option<Token> {
    match h
    case Holding(_, token) => Some(token)
    case Leading(token, _, _, _, _) => Some(token)
    case _ => None
  }

  function Registrations(history: seq<Happened>, a: nat): nat {
    if history == [] then 0
    else Registrations(history[..|history| - 1], a) + if history[|history| - 1] == Registered(a) then 1 else 0
  }

  ghost predicate Backed(history: seq<Happened>, acquisitions: seq<Acquisition>, a: nat)
    requires a < |acquisitions|
  {
    && (TokenOf(acquisitions[a]).Some? ==> Minted(a, TokenOf(acquisitions[a]).value) in history)
    && Registrations(history, a) <= 1
    && ((acquisitions[a].Reading? || acquisitions[a].Holding?) && !acquisitions[a].registered ==> Registrations(history, a) == 0)
  }

  ghost predicate Sound(w: World) {
    && Fair(w.history)
    && w.current == LastMint(w.history)
    && AllBacked(w.history, w.acquisitions)
    && (forall a: nat :: a >= |w.acquisitions| ==> Registrations(w.history, a) == 0)
    && (forall h :: h in w.history ==> h.who < |w.acquisitions|)
  }

  lemma {:induction false} FairNext(history: seq<Happened>, next: Happened)
    requires Fair(history)
    requires next.Minted? ==> next.token.Minted() && Supersedes(next.token, LastMint(history))
    requires next.Accepted? ==> next.token == LastMint(history) && Minted(next.who, next.token) in history
    ensures Fair(history + [next])
    ensures LastMint(history + [next]) == if next.Minted? then next.token else LastMint(history)
  {
    var more := history + [next];
    assert more[..|history|] == history;
    forall i | 0 <= i < |history| ensures more[..i] == history[..i] && more[i] == history[i] {
    }
  }

  lemma {:induction false} RegistrationsNext(history: seq<Happened>, next: Happened, a: nat)
    ensures Registrations(history + [next], a) == Registrations(history, a) + if next == Registered(a) then 1 else 0
  {
    assert (history + [next])[..|history|] == history;
  }

  /** Appending an event of acquisition `b` and changing `b` alone. */
  lemma {:induction false} SoundNext(w: World, happened: Happened, when: bool, current: Token, b: nat, now: Acquisition)
    requires Sound(w) && b < |w.acquisitions| && happened.who == b
    requires when ==> (happened.Minted? ==> happened.token.Minted() && Supersedes(happened.token, w.current))
    requires when ==> (happened.Accepted? ==> happened.token == w.current && Minted(b, happened.token) in w.history)
    requires current == if when && happened.Minted? then happened.token else w.current
    requires TokenOf(now).Some? ==> Minted(b, TokenOf(now).value) in Append(w, happened, when)
    requires when && happened.Registered? ==> Registrations(w.history, b) == 0
    requires (now.Reading? || now.Holding?) && !now.registered ==>
               Registrations(w.history, b) == 0 && !(when && happened.Registered?)
    ensures Sound(World(Append(w, happened, when), current, w.acquisitions[b := now]))
  {
    if when {
      FairNext(w.history, happened);
    }
    AllBackedNext(w, happened, when, b, now);
    CountsNext(w, happened, when);
  }

  ghost predicate AllBacked(history: seq<Happened>, acquisitions: seq<Acquisition>) {
    forall a :: 0 <= a < |acquisitions| ==> Backed(history, acquisitions, a)
  }

  lemma {:induction false} CountsNext(w: World, happened: Happened, when: bool)
    requires happened.who < |w.acquisitions|
    requires forall a: nat :: a >= |w.acquisitions| ==> Registrations(w.history, a) == 0
    ensures forall a: nat :: a >= |w.acquisitions| ==> Registrations(Append(w, happened, when), a) == 0
  {
    forall a: nat | a >= |w.acquisitions| ensures Registrations(Append(w, happened, when), a) == 0 {
      RegistrationsNext(w.history, happened, a);
    }
  }

  lemma {:induction false} AllBackedNext(w: World, happened: Happened, when: bool, b: nat, now: Acquisition)
    requires AllBacked(w.history, w.acquisitions) && b < |w.acquisitions| && happened.who == b
    requires TokenOf(now).Some? ==> Minted(b, TokenOf(now).value) in Append(w, happened, when)
    requires when && happened.Registered? ==> Registrations(w.history, b) == 0
    requires (now.Reading? || now.Holding?) && !now.registered ==>
               Registrations(w.history, b) == 0 && !(when && happened.Registered?)
    ensures AllBacked(Append(w, happened, when), w.acquisitions[b := now])
  {
    var history, acquisitions := Append(w, happened, when), w.acquisitions[b := now];
    assert Backed(w.history, w.acquisitions, b);
    forall a | 0 <= a < |acquisitions| ensures Backed(history, acquisitions, a) {
      BackedNext(w, happened, when, b, now, a);
    }
  }

  lemma {:induction false} BackedNext(w: World, happened: Happened, when: bool, b: nat, now: Acquisition, a: nat)
    requires a < |w.acquisitions| && b < |w.acquisitions| && happened.who == b && Backed(w.history, w.acquisitions, a)
    requires TokenOf(now).Some? ==> Minted(b, TokenOf(now).value) in Append(w, happened, when)
    requires Registrations(w.history, b) <= 1
    requires when && happened.Registered? ==> Registrations(w.history, b) == 0
    requires (now.Reading? || now.Holding?) && !now.registered ==>
               Registrations(w.history, b) == 0 && !(when && happened.Registered?)
    ensures Backed(Append(w, happened, when), w.acquisitions[b := now], a)
  {
    RegistrationsNext(w.history, happened, a);
    RegistrationsNext(w.history, happened, b);
  }

  lemma {:induction false} NoRegistrationsYet(w: World)
    requires Sound(w)
    ensures Sound(w.(acquisitions := w.acquisitions + [Reading(false)]))
  {
    var more := w.acquisitions + [Reading(false)];
    forall a | 0 <= a < |more| ensures Backed(w.history, more, a) {
      if a < |w.acquisitions| {
        assert Backed(w.history, w.acquisitions, a);
      }
    }
  }

  lemma {:induction false} StepIsSound(w: World, e: Event)
    requires Sound(w) && Enabled(w, e)
    ensures Sound(Step(w, e))
  {
    match e {
      case Begin => NoRegistrationsYet(w);
      case Register(a, appended, reported) =>
        assert Backed(w.history, w.acquisitions, a);
        SoundNext(w, Registered(a), appended, w.current, a, if reported then Reading(true) else GaveUp);
      case Mint(a, token, reported) =>
        assert Backed(w.history, w.acquisitions, a);
        SoundNext(w, Minted(a, token), true, token, a, Step(w, e).acquisitions[a]);
      case FirstWrite(a, lease, answer) =>
        assert Backed(w.history, w.acquisitions, a);
        SoundNext(w, Accepted(a, w.acquisitions[a].token, Some(lease)), Accepts(answer), w.current, a, Step(w, e).acquisitions[a]);
      case Renew(a, lease, answer) =>
        assert Backed(w.history, w.acquisitions, a);
        SoundNext(w, Accepted(a, w.acquisitions[a].token, Some(lease)), Accepts(answer), w.current, a, Step(w, e).acquisitions[a]);
      case Resign(a, answer) =>
        assert Backed(w.history, w.acquisitions, a);
        SoundNext(w, Accepted(a, w.acquisitions[a].token, None), Accepts(answer), w.current, a, Step(w, e).acquisitions[a]);
      case _ =>
        assert Backed(w.history, w.acquisitions, e.a);
        SoundNext(w, Registered(e.a), false, w.current, e.a, Step(w, e).acquisitions[e.a]);
    }
  }

  lemma {:induction false} RunsAreSound(events: seq<Event>)
    requires After(events).Some?
    ensures Sound(After(events).value)
  {
    if events != [] {
      RunsAreSound(events[..|events| - 1]);
      StepIsSound(After(events[..|events| - 1]).value, events[|events| - 1]);
    }
  }

  // ----------------------------------------------------------------- theorems

  lemma {:induction false} LastMintIsHighest(history: seq<Happened>, i: nat)
    requires Fair(history) && i < |history| && history[i].Minted?
    ensures history[i].token == LastMint(history) || Supersedes(LastMint(history), history[i].token)
  {
    var n := |history| - 1;
    FairPrefix(history, n);
    if i < n {
      LastMintIsHighest(history[..n], i);
      SupersedesIsTotalOrder(LastMint(history), LastMint(history[..n]), history[i].token);
    }
  }

  lemma {:induction false} FairPrefix(history: seq<Happened>, n: nat)
    requires Fair(history) && n <= |history|
    ensures Fair(history[..n])
  {
    forall i | 0 <= i < n ensures history[..n][..i] == history[..i] {
    }
  }

  /** Every token belongs to one acquisition, and is minted once. */
  lemma {:induction false} TokensAreUnique(history: seq<Happened>, i: nat, j: nat)
    requires Fair(history) && i < j < |history| && history[i].Minted? && history[j].Minted?
    ensures Supersedes(history[j].token, history[i].token) && history[i].token != history[j].token
  {
    FairPrefix(history, j);
    LastMintIsHighest(history[..j], i);
    SupersedesIsTotalOrder(history[j].token, LastMint(history[..j]), history[i].token);
    SupersedesIsTotalOrder(history[j].token, history[i].token, history[i].token);
  }

  /** Fencing: whatever is accepted after a mint carries that token or a higher one,
      so once another acquisition has minted, no first grant, renewal or
      resignation under an older token is ever accepted again. */
  lemma {:induction false} AcceptedIsNotStale(history: seq<Happened>, i: nat, j: nat)
    requires Fair(history) && i < j < |history| && history[i].Minted? && history[j].Accepted?
    ensures history[j].token == history[i].token || Supersedes(history[j].token, history[i].token)
    ensures history[j].token == history[i].token ==> history[j].who == history[i].who
  {
    FairPrefix(history, j);
    LastMintIsHighest(history[..j], i);
    if history[j].token == history[i].token {
      var k :| 0 <= k < j && history[k] == Minted(history[j].who, history[j].token);
      if k < i {
        TokensAreUnique(history, k, i);
      } else if i < k {
        TokensAreUnique(history, i, k);
      }
    }
  }

  /** Accepted lease records and tombstones carry tokens that never go down in the
      order of the log. */
  lemma {:induction false} AcceptedTokensDoNotFall(history: seq<Happened>, i: nat, j: nat)
    requires Fair(history) && i < j < |history| && history[i].Accepted? && history[j].Accepted?
    ensures history[j].token == history[i].token || Supersedes(history[j].token, history[i].token)
  {
    var k :| 0 <= k < i && history[k] == Minted(history[i].who, history[i].token);
    AcceptedIsNotStale(history, k, j);
  }

  /** The question a third party asks about a token. */
  predicate Authoritative(w: World, token: Token) { w.current != NO_EPOCH && token == w.current }

  /** An acquisition whose token is authoritative. */
  predicate Leads(w: World, a: nat)
    requires a < |w.acquisitions|
  {
    TokenOf(w.acquisitions[a]).Some? && Authoritative(w, TokenOf(w.acquisitions[a]).value)
  }

  /** Safety over every interleaving and every clock, all in one: after any events,
      tokens are unique and grow, nothing stale is ever accepted, and no two
      acquisitions hold an authoritative token. */
  lemma {:induction false} ElectionIsSafe(events: seq<Event>)
    requires After(events).Some?
    ensures var w := After(events).value;
            && (forall i, j :: 0 <= i < j < |w.history| && w.history[i].Minted? && w.history[j].Minted? ==>
                  Supersedes(w.history[j].token, w.history[i].token))
            && (forall i, j :: 0 <= i < j < |w.history| && w.history[i].Minted? && w.history[j].Accepted? ==>
                  w.history[j] == Accepted(w.history[i].who, w.history[i].token, w.history[j].lease)
                  || Supersedes(w.history[j].token, w.history[i].token))
            && (forall a, b :: 0 <= a < |w.acquisitions| && 0 <= b < |w.acquisitions| && Leads(w, a) && Leads(w, b) ==> a == b)
            && (forall a :: 0 <= a < |w.acquisitions| ==> Registrations(w.history, a) <= 1)
  {
    var w := After(events).value;
    RunsAreSound(events);
    forall i, j | 0 <= i < j < |w.history| && w.history[i].Minted? && w.history[j].Minted?
      ensures Supersedes(w.history[j].token, w.history[i].token)
    {
      TokensAreUnique(w.history, i, j);
    }
    forall i, j | 0 <= i < j < |w.history| && w.history[i].Minted? && w.history[j].Accepted?
      ensures w.history[j] == Accepted(w.history[i].who, w.history[i].token, w.history[j].lease)
              || Supersedes(w.history[j].token, w.history[i].token)
    {
      AcceptedIsNotStale(w.history, i, j);
    }
    forall a, b | 0 <= a < |w.acquisitions| && 0 <= b < |w.acquisitions| && Leads(w, a) && Leads(w, b) ensures a == b
    {
      OneHolder(w, a, b);
    }
    forall a | 0 <= a < |w.acquisitions| ensures Registrations(w.history, a) <= 1 {
      assert Backed(w.history, w.acquisitions, a);
    }
  }

  lemma {:induction false} OneHolder(w: World, a: nat, b: nat)
    requires Sound(w) && a < |w.acquisitions| && b < |w.acquisitions|
    requires TokenOf(w.acquisitions[a]).Some? && TokenOf(w.acquisitions[a]) == TokenOf(w.acquisitions[b])
    ensures a == b
  {
    assert Backed(w.history, w.acquisitions, a) && Backed(w.history, w.acquisitions, b);
    var token := TokenOf(w.acquisitions[a]).value;
    var i :| 0 <= i < |w.history| && w.history[i] == Minted(a, token);
    var j :| 0 <= j < |w.history| && w.history[j] == Minted(b, token);
    if i < j {
      TokensAreUnique(w.history, i, j);
    } else if j < i {
      TokensAreUnique(w.history, j, i);
    }
  }

  lemma {:induction false} OneLeader(w: World, a: nat)
    requires Sound(w) && a < |w.acquisitions| && Leads(w, a)
    ensures forall b :: 0 <= b < |w.acquisitions| && Leads(w, b) ==> b == a
  {
    forall b | 0 <= b < |w.acquisitions| && Leads(w, b) ensures b == a {
      OneHolder(w, a, b);
    }
  }

  lemma {:induction false} TwoStepsAreSound(w: World, d: Event, e: Event)
    requires Sound(w) && Enabled(w, d) && Enabled(Step(w, d), e)
    ensures Sound(Step(Step(w, d), e))
  {
    StepIsSound(w, d);
    StepIsSound(Step(w, d), e);
  }

  /** The world after a mint and a first write that is answered. */
  function Taken(w: World, a: nat, token: Token, lease: Lease): World
    requires a < |w.acquisitions|
  {
    World(w.history + [Minted(a, token)] + [Accepted(a, token, Some(lease))], token,
          w.acquisitions[a := Leading(token, lease, None, false, false)])
  }

  lemma {:induction false} MintAndWrite(w: World, a: nat, token: Token, lease: Lease)
    requires a < |w.acquisitions| && w.acquisitions[a].Reading?
    requires token.Minted() && Supersedes(token, w.current) && lease.token == token
    ensures Enabled(w, Mint(a, token, true))
    ensures Enabled(Step(w, Mint(a, token, true)), FirstWrite(a, lease, Written))
    ensures Step(Step(w, Mint(a, token, true)), FirstWrite(a, lease, Written)) == Taken(w, a, token, lease)
  {
    assert Step(Step(w, Mint(a, token, true)), FirstWrite(a, lease, Written)).acquisitions == Taken(w, a, token, lease).acquisitions;
  }

  /** Nothing stands in the way of an acquisition that is reading: from any sound world a
      mint and a first write are possible, and after them it alone has authority. */
  lemma {:induction false} RoleCanBeTaken(w: World, a: nat, token: Token, lease: Lease)
    requires Sound(w) && a < |w.acquisitions| && w.acquisitions[a].Reading?
    requires token.Minted() && Supersedes(token, w.current) && lease.token == token
    ensures Enabled(w, Mint(a, token, true))
    ensures Enabled(Step(w, Mint(a, token, true)), FirstWrite(a, lease, Written))
    ensures var after := Step(Step(w, Mint(a, token, true)), FirstWrite(a, lease, Written));
            && after.acquisitions[a] == Leading(token, lease, None, false, false)
            && Leads(after, a) && forall b :: 0 <= b < |after.acquisitions| && Leads(after, b) ==> b == a
  {
    MintAndWrite(w, a, token, lease);
    TwoStepsAreSound(w, Mint(a, token, true), FirstWrite(a, lease, Written));
    OneLeader(Taken(w, a, token, lease), a);
  }
}
