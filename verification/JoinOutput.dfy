/** One round of a join, told without its loops: when it fails, and which pairs it
    forwards in which order. */
module JoinOutputs {
  import opened Wrappers
  import opened Machine
  import opened Joins
  import opened Sequences

  // ------------------------------------------------------------- when it succeeds

  /** Two batches can be joined: both have their key and their timestamp column. */
  predicate CanJoin(a: JoinBatch, b: JoinBatch) { a.hasKey && b.hasKey && a.hasTimestamp && b.hasTimestamp }

  /** A stored batch can be read and joined with a new one of the other side. */
  predicate CanJoinStored(c: Config, batch: JoinBatch, stored: TimedBatch, batchIsLeft: bool) {
    match c.serde.deserialize(stored.data)
    case None => false
    case Some(other) => if batchIsLeft then CanJoin(batch, other) else CanJoin(other, batch)
  }

  predicate CanStore(c: Config, batch: JoinBatch) { batch.hasTimestamp && c.serde.serialize(batch).Some? }

  lemma {:induction false} JoinStoredSucceeds(c: Config, outputs: Outputs, batch: JoinBatch, stored: seq<TimedBatch>, batchIsLeft: bool)
    ensures JoinStored(c, outputs, batch, stored, batchIsLeft).Ok?
            <==> forall k :: 0 <= k < |stored| ==> CanJoinStored(c, batch, stored[k], batchIsLeft)
  {
    if stored != [] { JoinStoredSucceeds(c, outputs, batch, stored[..|stored| - 1], batchIsLeft); }
  }

  lemma {:induction false} JoinNewSucceeds(c: Config, outputs: Outputs, batch: JoinBatch, others: seq<JoinBatch>)
    ensures JoinNew(c, outputs, batch, others).Ok? <==> forall k :: 0 <= k < |others| ==> CanJoin(batch, others[k])
  {
    if others != [] { JoinNewSucceeds(c, outputs, batch, others[..|others| - 1]); }
  }

  /** A new left batch can be joined with everything it meets. */
  ghost predicate CanMeet(c: Config, batch: JoinBatch, right: seq<TimedBatch>, newRight: seq<JoinBatch>) {
    && (forall k :: 0 <= k < |right| ==> CanJoinStored(c, batch, right[k], true))
    && (forall k :: 0 <= k < |newRight| ==> CanJoin(batch, newRight[k]))
  }

  lemma {:induction false} JoinLeftsSucceeds(c: Config, newLeft: seq<JoinBatch>, right: seq<TimedBatch>, newRight: seq<JoinBatch>)
    ensures JoinLefts(c, newLeft, right, newRight).Ok? <==> forall i :: 0 <= i < |newLeft| ==> CanMeet(c, newLeft[i], right, newRight)
  {
    if newLeft != [] {
      var earlier, last := newLeft[..|newLeft| - 1], newLeft[|newLeft| - 1];
      JoinLeftsSucceeds(c, earlier, right, newRight);
      if JoinLefts(c, earlier, right, newRight).Ok? {
        OneLeftSucceeds(c, JoinLefts(c, earlier, right, newRight).value, last, right, newRight);
      }
    }
  }

  lemma {:induction false} OneLeftSucceeds(c: Config, before: Outputs, batch: JoinBatch, right: seq<TimedBatch>, newRight: seq<JoinBatch>)
    ensures CanMeet(c, batch, right, newRight) <==>
              && JoinStored(c, before, batch, right, true).Ok?
              && JoinNew(c, JoinStored(c, before, batch, right, true).value, batch, newRight).Ok?
  {
    JoinStoredSucceeds(c, before, batch, right, true);
    if JoinStored(c, before, batch, right, true).Ok? {
      JoinNewSucceeds(c, JoinStored(c, before, batch, right, true).value, batch, newRight);
    }
  }

  ghost predicate CanMeetStored(c: Config, batch: JoinBatch, left: seq<TimedBatch>) {
    forall k :: 0 <= k < |left| ==> CanJoinStored(c, batch, left[k], false)
  }

  lemma {:induction false} JoinRightsSucceeds(c: Config, outputs: Outputs, newRight: seq<JoinBatch>, left: seq<TimedBatch>)
    ensures JoinRights(c, outputs, newRight, left).Ok? <==> forall j :: 0 <= j < |newRight| ==> CanMeetStored(c, newRight[j], left)
  {
    if newRight != [] {
      var earlier, last := newRight[..|newRight| - 1], newRight[|newRight| - 1];
      JoinRightsSucceeds(c, outputs, earlier, left);
      if JoinRights(c, outputs, earlier, left).Ok? {
        JoinStoredSucceeds(c, JoinRights(c, outputs, earlier, left).value, last, left, false);
      }
    }
  }

  lemma {:induction false} StoreAllSucceeds(c: Config, stored: seq<TimedBatch>, batches: seq<JoinBatch>)
    ensures StoreAll(c, stored, batches).Ok? <==> forall k :: 0 <= k < |batches| ==> CanStore(c, batches[k])
  {
    if batches != [] { StoreAllSucceeds(c, stored, batches[..|batches| - 1]); }
  }

  lemma {:induction false} AdvanceSucceeds(from: Int64, batches: seq<JoinBatch>)
    ensures AdvanceAll(from, batches).Ok? <==> forall k :: 0 <= k < |batches| ==> batches[k].hasTimestamp
  {
    if batches != [] { AdvanceSucceeds(from, batches[..|batches| - 1]); }
  }

  /** A round succeeds if and only if every new batch can be stored, and joined with every
      batch of the other side that it meets: the stored ones that survive the pruning, and
      the new ones. */
  lemma {:induction false} StepSucceeds(c: Config, s: State, round: Round)
    ensures var cutoff := Clamp(MaxOver(MaxOver(s.streamTime, round.left), round.right) - c.window);
            Step(c, s, round).Ok? <==>
              && (forall i :: 0 <= i < |round.left| ==> CanStore(c, round.left[i]))
              && (forall j :: 0 <= j < |round.right| ==> CanStore(c, round.right[j]))
              && (forall i :: 0 <= i < |round.left| ==> CanMeet(c, round.left[i], Prune(s.right, cutoff), round.right))
              && (forall j :: 0 <= j < |round.right| ==> CanMeetStored(c, round.right[j], Prune(s.left, cutoff)))
  {
    AdvanceSucceeds(s.streamTime, round.left);
    AdvanceIsMax(s.streamTime, round.left);
    AdvanceSucceeds(MaxOver(s.streamTime, round.left), round.right);
    AdvanceIsMax(MaxOver(s.streamTime, round.left), round.right);
    if StreamTimeAfter(s, round).Ok? {
      CutoffIsClamped(c, StreamTimeAfter(s, round).value);
      var cutoff := Cutoff(c, StreamTimeAfter(s, round).value);
      StepPartsSucceed(c, round, Prune(s.left, cutoff), Prune(s.right, cutoff));
    } else {
      assert (exists i :: 0 <= i < |round.left| && !round.left[i].hasTimestamp) || exists j :: 0 <= j < |round.right| && !round.right[j].hasTimestamp;
    }
  }

  lemma {:induction false} StepPartsSucceed(c: Config, round: Round, left: seq<TimedBatch>, right: seq<TimedBatch>)
    ensures JoinLefts(c, round.left, right, round.right).Ok?
            <==> forall i :: 0 <= i < |round.left| ==> CanMeet(c, round.left[i], right, round.right)
    ensures JoinLefts(c, round.left, right, round.right).Ok? ==>
              (JoinRights(c, JoinLefts(c, round.left, right, round.right).value, round.right, left).Ok?
               <==> forall j :: 0 <= j < |round.right| ==> CanMeetStored(c, round.right[j], left))
    ensures StoreAll(c, left, round.left).Ok? <==> forall k :: 0 <= k < |round.left| ==> CanStore(c, round.left[k])
    ensures StoreAll(c, right, round.right).Ok? <==> forall k :: 0 <= k < |round.right| ==> CanStore(c, round.right[k])
  {
    JoinLeftsSucceeds(c, round.left, right, round.right);
    if JoinLefts(c, round.left, right, round.right).Ok? {
      JoinRightsSucceeds(c, JoinLefts(c, round.left, right, round.right).value, round.right, left);
    }
    StoreAllSucceeds(c, left, round.left);
    StoreAllSucceeds(c, right, round.right);
  }

  // ---------------------------------------------------------- what, in which order

  function MatchBlocks(matches: Matcher, l: JoinRow, rights: seq<JoinRow>): (blocks: seq<seq<Pair>>)
    ensures |blocks| == |rights|
  {
    seq(|rights|, j requires 0 <= j < |rights| => if matches(l, rights[j]) then [(l, rights[j])] else [])
  }

  /** The matching pairs of two batches, by left row and then by right row. */
  ghost predicate ArePairs(matches: Matcher, lefts: seq<JoinRow>, rights: seq<JoinRow>, pairs: seq<Pair>) {
    exists blocks: seq<seq<Pair>> ::
      && |blocks| == |lefts|
      && (forall i :: 0 <= i < |lefts| ==> IsConcatenation(MatchBlocks(matches, lefts[i], rights), blocks[i]))
      && IsConcatenation(blocks, pairs)
  }

  lemma {:induction false} RowPairsAre(matches: Matcher, l: JoinRow, rights: seq<JoinRow>)
    ensures IsConcatenation(MatchBlocks(matches, l, rights), RowPairs(matches, l, rights))
  {
    if rights == [] {
      NoBlocks<Pair>();
      assert MatchBlocks(matches, l, rights) == [];
    } else {
      var before, last := rights[..|rights| - 1], rights[|rights| - 1];
      RowPairsAre(matches, l, before);
      var block := if matches(l, last) then [(l, last)] else [];
      OneMoreBlock(MatchBlocks(matches, l, before), RowPairs(matches, l, before), block);
      assert MatchBlocks(matches, l, rights) == MatchBlocks(matches, l, before) + [block];
    }
  }

  lemma {:induction false} PairsInOrder(matches: Matcher, lefts: seq<JoinRow>, rights: seq<JoinRow>)
    ensures ArePairs(matches, lefts, rights, BatchPairs(matches, lefts, rights))
  {
    var blocks := seq(|lefts|, i requires 0 <= i < |lefts| => RowPairs(matches, lefts[i], rights));
    forall i | 0 <= i < |lefts| ensures IsConcatenation(MatchBlocks(matches, lefts[i], rights), blocks[i]) {
      RowPairsAre(matches, lefts[i], rights);
    }
    RowsConcatenate(matches, lefts, rights, blocks);
  }

  lemma {:induction false} RowsConcatenate(matches: Matcher, lefts: seq<JoinRow>, rights: seq<JoinRow>, blocks: seq<seq<Pair>>)
    requires |blocks| == |lefts| && forall i :: 0 <= i < |lefts| ==> blocks[i] == RowPairs(matches, lefts[i], rights)
    ensures IsConcatenation(blocks, BatchPairs(matches, lefts, rights))
  {
    if lefts == [] {
      NoBlocks<Pair>();
    } else {
      var n := |lefts| - 1;
      RowsConcatenate(matches, lefts[..n], rights, blocks[..n]);
      OneMoreBlock(blocks[..n], BatchPairs(matches, lefts[..n], rights), blocks[n]);
      assert blocks == blocks[..n] + [blocks[n]];
    }
  }

  /** Two batches that meet, the left one first. */
  type Meeting = (JoinBatch, JoinBatch)

  /** A batch of pairs for each meeting that has any. */
  function OutputBlocks(matches: Matcher, meetings: seq<Meeting>): (blocks: seq<Outputs>)
    ensures |blocks| == |meetings|
  {
    seq(|meetings|, k requires 0 <= k < |meetings| =>
          var pairs := BatchPairs(matches, meetings[k].0.rows, meetings[k].1.rows); if pairs == [] then [] else [pairs])
  }

  /** What the meetings forward is added to what was forwarded before. */
  ghost predicate Forwards(matches: Matcher, meetings: seq<Meeting>, before: Outputs, after: Outputs) {
    before <= after && IsConcatenation(OutputBlocks(matches, meetings), after[|before|..])
  }

  lemma {:induction false} ForwardsNothing(matches: Matcher, outputs: Outputs)
    ensures Forwards(matches, [], outputs, outputs)
  {
    NoBlocks<seq<Pair>>();
    assert OutputBlocks(matches, []) == [] && outputs[|outputs|..] == [];
  }

  lemma {:induction false} OneMeetingForwards(matches: Matcher, before: Outputs, a: JoinBatch, b: JoinBatch)
    requires AddMatches(matches, before, a, b).Ok?
    ensures Forwards(matches, [(a, b)], before, AddMatches(matches, before, a, b).value)
  {
    var pairs, after := BatchPairs(matches, a.rows, b.rows), AddMatches(matches, before, a, b).value;
    var block: Outputs := if pairs == [] then [] else [pairs];
    NoBlocks<seq<Pair>>();
    OneMoreBlock([], [], block);
    assert [] + [block] == [block] && [] + block == block;
    assert OutputBlocks(matches, [(a, b)]) == [block];
    assert after == before + block && after[|before|..] == block;
  }

  lemma {:induction false} ForwardsInTurn(matches: Matcher, x: seq<Meeting>, y: seq<Meeting>, a: Outputs, b: Outputs, c: Outputs)
    requires Forwards(matches, x, a, b) && Forwards(matches, y, b, c)
    ensures Forwards(matches, x + y, a, c)
  {
    MoreBlocks(OutputBlocks(matches, x), b[|a|..], OutputBlocks(matches, y), c[|b|..]);
    assert OutputBlocks(matches, x + y) == OutputBlocks(matches, x) + OutputBlocks(matches, y);
    assert c[|a|..] == b[|a|..] + c[|b|..];
  }

  /** A batch with every batch of the other side, in order. */
  function WithAll(batch: JoinBatch, others: seq<JoinBatch>, batchIsLeft: bool): (meetings: seq<Meeting>)
    ensures |meetings| == |others|
  {
    seq(|others|, k requires 0 <= k < |others| => if batchIsLeft then (batch, others[k]) else (others[k], batch))
  }

  lemma {:induction false} WithAllOneMore(batch: JoinBatch, others: seq<JoinBatch>, batchIsLeft: bool)
    requires others != []
    ensures var last := others[|others| - 1];
            WithAll(batch, others, batchIsLeft)
            == WithAll(batch, others[..|others| - 1], batchIsLeft) + [if batchIsLeft then (batch, last) else (last, batch)]
  {
  }

  lemma {:induction false} StoredForwards(c: Config, before: Outputs, batch: JoinBatch, stored: seq<TimedBatch>, others: seq<JoinBatch>, batchIsLeft: bool)
    requires Holds(c, stored, others) && JoinStored(c, before, batch, stored, batchIsLeft).Ok?
    ensures Forwards(c.matches, WithAll(batch, others, batchIsLeft), before, JoinStored(c, before, batch, stored, batchIsLeft).value)
  {
    if stored == [] {
      ForwardsNothing(c.matches, before);
      assert WithAll(batch, others, batchIsLeft) == [];
    } else {
      var n := |stored| - 1;
      StoredForwards(c, before, batch, stored[..n], others[..n], batchIsLeft);
      assert HoldsBatch(c, stored[n], others[n]);
      var after := JoinStored(c, before, batch, stored[..n], batchIsLeft).value;
      WithAllOneMore(batch, others, batchIsLeft);
      var (a, b) := if batchIsLeft then (batch, others[n]) else (others[n], batch);
      OneMeetingForwards(c.matches, after, a, b);
      ForwardsInTurn(c.matches, WithAll(batch, others[..n], batchIsLeft), [(a, b)], before, after, AddMatches(c.matches, after, a, b).value);
    }
  }

  lemma {:induction false} NewForwards(c: Config, before: Outputs, batch: JoinBatch, others: seq<JoinBatch>)
    requires JoinNew(c, before, batch, others).Ok?
    ensures Forwards(c.matches, WithAll(batch, others, true), before, JoinNew(c, before, batch, others).value)
  {
    if others == [] {
      ForwardsNothing(c.matches, before);
      assert WithAll(batch, others, true) == [];
    } else {
      var n := |others| - 1;
      NewForwards(c, before, batch, others[..n]);
      var after := JoinNew(c, before, batch, others[..n]).value;
      WithAllOneMore(batch, others, true);
      OneMeetingForwards(c.matches, after, batch, others[n]);
      ForwardsInTurn(c.matches, WithAll(batch, others[..n], true), [(batch, others[n])], before, after, AddMatches(c.matches, after, batch, others[n]).value);
    }
  }

  /** The meetings of new left batches: each with the stored right ones and then with the
      new ones. */
  function LeftMeetings(newLeft: seq<JoinBatch>, rights: seq<JoinBatch>, newRight: seq<JoinBatch>): seq<Meeting> {
    if newLeft == [] then []
    else
      var last := newLeft[|newLeft| - 1];
      LeftMeetings(newLeft[..|newLeft| - 1], rights, newRight) + (WithAll(last, rights, true) + WithAll(last, newRight, true))
  }

  /** The meetings of new right batches: each with the stored left ones. */
  function RightMeetings(newRight: seq<JoinBatch>, lefts: seq<JoinBatch>): seq<Meeting> {
    if newRight == [] then []
    else RightMeetings(newRight[..|newRight| - 1], lefts) + WithAll(newRight[|newRight| - 1], lefts, false)
  }

  lemma {:induction false} LeftForwards(c: Config, before: Outputs, batch: JoinBatch, right: seq<TimedBatch>, rights: seq<JoinBatch>, newRight: seq<JoinBatch>)
    requires Holds(c, right, rights) && JoinStored(c, before, batch, right, true).Ok?
    requires JoinNew(c, JoinStored(c, before, batch, right, true).value, batch, newRight).Ok?
    ensures Forwards(c.matches, WithAll(batch, rights, true) + WithAll(batch, newRight, true), before,
                     JoinNew(c, JoinStored(c, before, batch, right, true).value, batch, newRight).value)
  {
    var stored := JoinStored(c, before, batch, right, true).value;
    StoredForwards(c, before, batch, right, rights, true);
    NewForwards(c, stored, batch, newRight);
    ForwardsInTurn(c.matches, WithAll(batch, rights, true), WithAll(batch, newRight, true), before, stored, JoinNew(c, stored, batch, newRight).value);
  }

  lemma {:induction false} LeftsForward(c: Config, newLeft: seq<JoinBatch>, right: seq<TimedBatch>, rights: seq<JoinBatch>, newRight: seq<JoinBatch>)
    requires Holds(c, right, rights) && JoinLefts(c, newLeft, right, newRight).Ok?
    ensures Forwards(c.matches, LeftMeetings(newLeft, rights, newRight), [], JoinLefts(c, newLeft, right, newRight).value)
  {
    if newLeft == [] {
      ForwardsNothing(c.matches, []);
    } else {
      var earlier, last := newLeft[..|newLeft| - 1], newLeft[|newLeft| - 1];
      JoinLeftsStep(c, newLeft, right, newRight);
      LeftsForward(c, earlier, right, rights, newRight);
      var before := JoinLefts(c, earlier, right, newRight).value;
      LeftForwards(c, before, last, right, rights, newRight);
      ForwardsInTurn(c.matches, LeftMeetings(earlier, rights, newRight), WithAll(last, rights, true) + WithAll(last, newRight, true), [], before,
                     JoinLefts(c, newLeft, right, newRight).value);
    }
  }

  lemma {:induction false} RightsForward(c: Config, outputs: Outputs, newRight: seq<JoinBatch>, left: seq<TimedBatch>, lefts: seq<JoinBatch>)
    requires Holds(c, left, lefts) && JoinRights(c, outputs, newRight, left).Ok?
    ensures Forwards(c.matches, RightMeetings(newRight, lefts), outputs, JoinRights(c, outputs, newRight, left).value)
  {
    if newRight == [] {
      ForwardsNothing(c.matches, outputs);
    } else {
      var earlier, last := newRight[..|newRight| - 1], newRight[|newRight| - 1];
      JoinRightsStep(c, outputs, newRight, left);
      RightsForward(c, outputs, earlier, left, lefts);
      var before := JoinRights(c, outputs, earlier, left).value;
      StoredForwards(c, before, last, left, lefts, false);
      ForwardsInTurn(c.matches, RightMeetings(earlier, lefts), WithAll(last, lefts, false), outputs, before, JoinRights(c, outputs, newRight, left).value);
    }
  }

  /** What a round forwards, and in which order: a batch of pairs for each meeting that
      has any, first those of the new left batches, then those of the new right ones with
      what was stored. Stored is what survives the pruning. */
  lemma {:induction false} StepForwardsInOrder(c: Config, s: State, round: Round, lefts: seq<JoinBatch>, rights: seq<JoinBatch>)
    requires Step(c, s, round).Ok?
    requires var cutoff := Clamp(MaxOver(MaxOver(s.streamTime, round.left), round.right) - c.window);
             Holds(c, Prune(s.left, cutoff), lefts) && Holds(c, Prune(s.right, cutoff), rights)
    ensures IsConcatenation(OutputBlocks(c.matches, LeftMeetings(round.left, rights, round.right) + RightMeetings(round.right, lefts)),
                            Step(c, s, round).value.1)
  {
    AdvanceIsMax(s.streamTime, round.left);
    AdvanceIsMax(MaxOver(s.streamTime, round.left), round.right);
    var streamTime := StreamTimeAfter(s, round).value;
    CutoffIsClamped(c, streamTime);
    JoinsForward(c, round, Prune(s.left, Cutoff(c, streamTime)), Prune(s.right, Cutoff(c, streamTime)), lefts, rights, Step(c, s, round).value.1);
  }

  lemma {:induction false} JoinsForward(c: Config, round: Round, left: seq<TimedBatch>, right: seq<TimedBatch>, lefts: seq<JoinBatch>, rights: seq<JoinBatch>, outputs: Outputs)
    requires Holds(c, left, lefts) && Holds(c, right, rights) && JoinLefts(c, round.left, right, round.right).Ok?
    requires JoinRights(c, JoinLefts(c, round.left, right, round.right).value, round.right, left) == Ok(outputs)
    ensures IsConcatenation(OutputBlocks(c.matches, LeftMeetings(round.left, rights, round.right) + RightMeetings(round.right, lefts)), outputs)
  {
    var joined := JoinLefts(c, round.left, right, round.right).value;
    LeftsForward(c, round.left, right, rights, round.right);
    RightsForward(c, joined, round.right, left, lefts);
    ForwardsInTurn(c.matches, LeftMeetings(round.left, rights, round.right), RightMeetings(round.right, lefts), [], joined, outputs);
    assert outputs[0..] == outputs;
  }
}
