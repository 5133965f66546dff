/** The reader of the barrier state topic: the last record of every epoch wins, and
    only complete cuts are handed out, oldest first. */
module CutReaders {
  import opened Wrappers
  import opened ByteCodec
  import opened IntOrders
  import opened Barriers
  import opened Records

  /** A record of the topic as it decodes: not at all, as a record of another kind,
      as a tombstone, or as a cut. */
  datatype CutRecord =
    | Malformed
    | OtherKind
    | Tombstone(group: Bytes, epoch: int)
    | Written(group: Bytes, epoch: int, cut: Cut)

  /** The cut a list of records leaves for an epoch of a group. */
  function LastWrite(records: seq<CutRecord>, group: Bytes, epoch: int): Option<Cut> {
    if records == [] then None
    else
      match records[|records| - 1]
      case Tombstone(g, e) => if g == group && e == epoch then None else LastWrite(records[..|records| - 1], group, epoch)
      case Written(g, e, cut) => if g == group && e == epoch then Some(cut) else LastWrite(records[..|records| - 1], group, epoch)
      case _ => LastWrite(records[..|records| - 1], group, epoch)
  }

  predicate Concerns(record: CutRecord, group: Bytes, epoch: int) {
    (record.Tombstone? || record.Written?) && record.group == group && record.epoch == epoch
  }

  /** The records of one epoch of a group, in order. */
  function OfEpoch(records: seq<CutRecord>, group: Bytes, epoch: int): seq<CutRecord> {
    if records == [] then []
    else
      var last := records[|records| - 1];
      OfEpoch(records[..|records| - 1], group, epoch) + if Concerns(last, group, epoch) then [last] else []
  }

  lemma {:induction false} LastWriteIsLocal(records: seq<CutRecord>, group: Bytes, epoch: int)
    ensures LastWrite(records, group, epoch) == LastWrite(OfEpoch(records, group, epoch), group, epoch)
  {
    if records != [] {
      var before, last := records[..|records| - 1], records[|records| - 1];
      LastWriteIsLocal(before, group, epoch);
      if Concerns(last, group, epoch) {
        assert (OfEpoch(before, group, epoch) + [last])[..|OfEpoch(before, group, epoch)|] == OfEpoch(before, group, epoch);
      } else {
        assert OfEpoch(before, group, epoch) + [] == OfEpoch(before, group, epoch);
      }
    }
  }

  /** How the partitions of the topic interleave does not matter: the records of an
      epoch share a partition, so only their own order counts. */
  lemma {:induction false} InterleavingIsInvisible(xs: seq<CutRecord>, ys: seq<CutRecord>, group: Bytes, epoch: int)
    requires OfEpoch(xs, group, epoch) == OfEpoch(ys, group, epoch)
    ensures LastWrite(xs, group, epoch) == LastWrite(ys, group, epoch)
  {
    LastWriteIsLocal(xs, group, epoch);
    LastWriteIsLocal(ys, group, epoch);
  }

  type Cuts = map<Bytes, map<int, Cut>>

  /** A decoded cut carries the epoch of its key. */
  ghost predicate Keyed(records: seq<CutRecord>) {
    forall i :: 0 <= i < |records| && records[i].Written? ==> records[i].cut.epoch == records[i].epoch
  }

  function Wanted(cuts: map<int, Cut>, epoch: int): set<int> {
    set e | e in cuts && cuts[e].complete && cuts[e].epoch > epoch
  }

  predicate IsCutOf(cuts: map<int, Cut>, epoch: int, cut: Cut) { epoch in cuts && cuts[epoch] == cut }

  class CutReader {
    var cuts: Cuts
    ghost var accepted: seq<CutRecord>

    function At(group: Bytes, epoch: int): Option<Cut>
      reads this
    {
      if group in cuts && epoch in cuts[group] then Some(cuts[group][epoch]) else None
    }

    ghost predicate Valid()
      reads this
    {
      Keyed(accepted) && forall group, epoch :: At(group, epoch) == LastWrite(accepted, group, epoch)
    }

    constructor ()
      ensures Valid() && accepted == []
    {
      cuts := map[];
      accepted := [];
    }

    /** Applies one record. A malformed one is refused and changes nothing. */
    method Accept(record: CutRecord) returns (ok: bool)
      requires Valid() && (record.Written? ==> record.cut.epoch == record.epoch)
      modifies this
      ensures Valid()
      ensures ok <==> !record.Malformed?
      ensures accepted == if ok then old(accepted) + [record] else old(accepted)
    {
      ghost var was := accepted;
      match record {
        case Malformed => return false;
        case OtherKind =>
        case Tombstone(group, epoch) =>
          if group in cuts {
            cuts := cuts[group := cuts[group] - {epoch}];
          }
        case Written(group, epoch, cut) =>
          cuts := cuts[group := if group in cuts then cuts[group][epoch := cut] else map[epoch := cut]];
      }
      accepted := accepted + [record];
      assert accepted[..|was|] == was;
      ok := true;
    }

    /** Exactly the complete cuts of the group above an epoch, in ascending order. */
    method CompleteCutsAfter(group: Bytes, epoch: int) returns (result: seq<Cut>)
      requires Valid()
      ensures forall cut :: cut in result <==>
                cut.complete && cut.epoch > epoch && LastWrite(accepted, group, cut.epoch) == Some(cut)
      ensures forall i, j :: 0 <= i < j < |result| ==> result[i].epoch < result[j].epoch
    {
      if group !in cuts {
        assert forall e :: At(group, e) == None;
        return [];
      }
      var epochs := SortedInts(Wanted(cuts[group], epoch));
      result := [];
      for i := 0 to |epochs|
        invariant |result| == i && forall k :: 0 <= k < i ==> IsCutOf(cuts[group], epochs[k], result[k])
      {
        assert epochs[i] in epochs;
        result := result + [cuts[group][epochs[i]]];
      }
      ResultIsExact(group, epoch, epochs, result);
    }

    lemma {:induction false} EpochOfCut(group: Bytes, e: int)
      requires Valid() && group in cuts && e in cuts[group]
      ensures cuts[group][e].epoch == e && LastWrite(accepted, group, e) == Some(cuts[group][e])
    {
      assert At(group, e) == Some(cuts[group][e]);
      LastWriteIsKeyed(accepted, group, e);
    }

    lemma {:induction false} ResultIsExact(group: Bytes, epoch: int, epochs: seq<int>, result: seq<Cut>)
      requires Valid() && group in cuts
      requires epochs == SortedInts(Wanted(cuts[group], epoch))
      requires |result| == |epochs| && forall k :: 0 <= k < |epochs| ==> IsCutOf(cuts[group], epochs[k], result[k])
      ensures forall cut :: cut in result <==>
                cut.complete && cut.epoch > epoch && LastWrite(accepted, group, cut.epoch) == Some(cut)
      ensures forall i, j :: 0 <= i < j < |result| ==> result[i].epoch < result[j].epoch
    {
      forall cut ensures cut in result <==> cut.complete && cut.epoch > epoch && LastWrite(accepted, group, cut.epoch) == Some(cut) {
        if cut in result {
          var k :| 0 <= k < |result| && result[k] == cut;
          assert epochs[k] in epochs;
          EpochOfCut(group, epochs[k]);
        }
        if cut.complete && cut.epoch > epoch && LastWrite(accepted, group, cut.epoch) == Some(cut) {
          assert At(group, cut.epoch) == Some(cut);
          assert cut.epoch in epochs;
          var k :| 0 <= k < |epochs| && epochs[k] == cut.epoch;
          assert result[k] == cut;
        }
      }
      forall i, j | 0 <= i < j < |result| ensures result[i].epoch < result[j].epoch {
        assert epochs[i] in epochs && epochs[j] in epochs;
        EpochOfCut(group, epochs[i]);
        EpochOfCut(group, epochs[j]);
      }
    }

    method LatestCompleteCut(group: Bytes) returns (latest: Option<Cut>)
      requires Valid()
      ensures latest.Some? ==>
                && latest.value.complete && latest.value.epoch > -1
                && LastWrite(accepted, group, latest.value.epoch) == Some(latest.value)
      ensures forall cut: Cut :: cut.complete && cut.epoch > -1 && LastWrite(accepted, group, cut.epoch) == Some(cut) ==>
                latest.Some? && cut.epoch <= latest.value.epoch
    {
      var cuts := CompleteCutsAfter(group, -1);
      if |cuts| == 0 { return None; }
      assert cuts[|cuts| - 1] in cuts;
      latest := Some(cuts[|cuts| - 1]);
    }

    method CompleteCutAt(group: Bytes, epoch: int) returns (found: Option<Cut>)
      requires Valid()
      ensures found == match LastWrite(accepted, group, epoch)
                       case Some(cut) => if cut.complete then Some(cut) else None
                       case None => None
    {
      found := At(group, epoch);
      if found.Some? && !found.value.complete {
        found := None;
      }
    }
  }

  lemma {:induction false} LastWriteIsKeyed(records: seq<CutRecord>, group: Bytes, epoch: int)
    requires Keyed(records)
    ensures LastWrite(records, group, epoch).Some? ==> LastWrite(records, group, epoch).value.epoch == epoch
  {
    if records != [] {
      LastWriteIsKeyed(records[..|records| - 1], group, epoch);
    }
  }

  /** The aligner begins the complete cut of the least epoch above its last one, and
      waits only while there is none, so it skips no cut. */
  lemma {:induction false} NoCutIsSkipped(a: Aligner, assignment: set<TopicPartition>, records: seq<CutRecord>, group: Bytes, cuts: seq<Cut>)
    requires a.pending.None?
    requires forall cut :: cut in cuts <==>
               cut.complete && cut.epoch > a.lastEpoch && LastWrite(records, group, cut.epoch) == Some(cut)
    requires forall i, j :: 0 <= i < j < |cuts| ==> cuts[i].epoch < cuts[j].epoch
    ensures var pending := Refresh(a, assignment, cuts).pending;
            && (pending.Some? ==>
                  && pending.value.complete && pending.value.epoch > a.lastEpoch
                  && LastWrite(records, group, pending.value.epoch) == pending)
            && forall cut: Cut :: cut.complete && cut.epoch > a.lastEpoch && LastWrite(records, group, cut.epoch) == Some(cut) ==>
                         pending.Some? && pending.value.epoch <= cut.epoch
  {
    assert cuts != [] ==> cuts[0] in cuts;
    forall cut: Cut | cut.complete && cut.epoch > a.lastEpoch && LastWrite(records, group, cut.epoch) == Some(cut)
      ensures cuts != [] && cuts[0].epoch <= cut.epoch
    {
      assert cut in cuts;
    }
  }
}
