/** The write protocol and the codec together: what a replayed call returns is what was committed. */
module Replay {
  import opened Wrappers
  import opened Json
  import opened WriteProtocol
  import WriteSafety
  import WriteTheorems
  import ReplayCodec

  /** What the database supplies besides the movement: a row's store and batch, a disposal's id,
      and the column's decimal for an amount. */
  datatype Columns = Columns(
    store: RowId -> int, batch: RowId -> int, disposal: WorkerId -> int, amount: real -> ReplayCodec.Decimal)

  /** The dict discard_batch or receive_inventory returns. */
  function ResultOf(cs: Columns, m: Movement): ReplayCodec.Value {
    var batch := ReplayCodec.Entry("batch_id", ReplayCodec.Whole(cs.batch(m.request.row)));
    var store := ReplayCodec.Entry("store_id", ReplayCodec.Whole(cs.store(m.request.row)));
    var quantity := ReplayCodec.Exact(cs.amount(m.request.quantity));
    var balance := ReplayCodec.Entry("new_inventory_balance", ReplayCodec.Exact(cs.amount(m.after)));
    match m.request
    case Discard(_, _, _) =>
      ReplayCodec.Dict([ReplayCodec.Entry("disposal_id", ReplayCodec.Whole(cs.disposal(m.call))), batch, store,
                        ReplayCodec.Entry("disposed_quantity", quantity), balance])
    case Receive(_, _) =>
      ReplayCodec.Dict([batch, store, ReplayCodec.Entry("received_quantity", quantity), balance])
  }

  /** The value under the first entry with this key. */
  function Under(entries: seq<ReplayCodec.Entry>, key: string): Option<ReplayCodec.Value> {
    if entries == [] then None else if entries[0].key == key then Some(entries[0].value) else Under(entries[1..], key)
  }

  /** What the caller finds in the dict: the row's batch and store, the amount moved, and the balance after it. */
  lemma {:induction false} ResultReads(cs: Columns, m: Movement)
    ensures var v := ResultOf(cs, m);
            && v.Dict? && |v.entries| == (if m.request.Discard? then 5 else 4)
            && Under(v.entries, "batch_id") == Some(ReplayCodec.Whole(cs.batch(m.request.row)))
            && Under(v.entries, "store_id") == Some(ReplayCodec.Whole(cs.store(m.request.row)))
            && Under(v.entries, "new_inventory_balance") == Some(ReplayCodec.Exact(cs.amount(m.after)))
            && (m.request.Discard? ==>
                  && Under(v.entries, "disposal_id") == Some(ReplayCodec.Whole(cs.disposal(m.call)))
                  && Under(v.entries, "disposed_quantity") == Some(ReplayCodec.Exact(cs.amount(m.request.quantity))))
            && (m.request.Receive? ==>
                  Under(v.entries, "received_quantity") == Some(ReplayCodec.Exact(cs.amount(m.request.quantity))))
  {
    var es := ResultOf(cs, m).entries;
    if m.request.Discard? {
      assert es[0].key == "disposal_id" && es[1].key == "batch_id" && es[2].key == "store_id"
          && es[3].key == "disposed_quantity" && es[4].key == "new_inventory_balance";
    } else {
      assert es[0].key == "batch_id" && es[1].key == "store_id" && es[2].key == "received_quantity" && es[3].key == "new_inventory_balance";
    }
    forall i | 0 <= i < |es| ensures Under(es, es[i].key) == Some(es[i].value) {
      UnderAt(es, i);
    }
  }

  lemma {:induction false} UnderAt(entries: seq<ReplayCodec.Entry>, i: nat)
    requires i < |entries| && forall j | 0 <= j < i :: entries[j].key != entries[i].key
    ensures Under(entries, entries[i].key) == Some(entries[i].value)
  {
    if i > 0 {
      UnderAt(entries[1..], i - 1);
    }
  }

  /** The JSON value the SET stores. */
  function Stored(ds: ReplayCodec.Decimals, cs: Columns, m: Movement): Json {
    ReplayCodec.Encode(ds, ResultOf(cs, m))
  }

  lemma ResultHasNoTaggedDict(cs: Columns, m: Movement)
    ensures !ReplayCodec.HasTaggedDict(ResultOf(cs, m))
  {
  }

  /** A successful call returns a committed movement's own result, decimals included, whether it
      committed it or read it back: the stored value decodes to exactly that dict. */
  lemma {:induction false} RepliesDecodeToTheCommit(
    ds: ReplayCodec.Decimals, cs: Columns, c: Config, now: int, actions: seq<Action>, w: WorkerId, m: Movement)
    requires ReplayCodec.Faithful(ds)
    requires var s := Run(c, Initial(c, now), actions); w in s.workers && s.workers[w].pc == Done(Returned(m))
    ensures m in Run(c, Initial(c, now), actions).log && m.key == Run(c, Initial(c, now), actions).workers[w].key
    ensures ReplayCodec.Decode(ds, Stored(ds, cs, m)) == Some(ResultOf(cs, m))
  {
    WriteTheorems.RepliesAgree(c, now, actions, w, w, m, m);
    ResultHasNoTaggedDict(cs, m);
    ReplayCodec.ReplayIsFaithfulIff(ds, ResultOf(cs, m));
  }

  /** From the SET until the TTL runs out, what any GET of the key reads decodes to the dict the
      committing call returned, whatever else happens. */
  lemma {:induction false} CachedTextIsTheCommit(
    ds: ReplayCodec.Decimals, cs: Columns, c: Config, s: State, w: WorkerId, replied: bool, actions: seq<Action>)
    requires ReplayCodec.Faithful(ds)
    requires WriteSafety.Inv(c, s) && w in s.workers && s.workers[w].pc.Store? && c.ttl > 0
    requires Run(c, StepSave(c, s, w, replied), actions).now < s.now + c.ttl
    ensures var t, k := Run(c, StepSave(c, s, w, replied), actions), s.workers[w].key;
            && Live(t, k)
            && ReplayCodec.Decode(ds, Stored(ds, cs, t.cache[k].result)) == Some(ResultOf(cs, s.workers[w].pc.result))
  {
    var s1, k := StepSave(c, s, w, replied), s.workers[w].key;
    var e := Cached(s.workers[w].pc.result, s.now + c.ttl);
    WriteSafety.SaveKeeps(c, s, w, replied);
    WriteTheorems.SavePutsInForce(c, s, w, replied);
    hide StepSave, WriteSafety.Inv, Run;
    WriteTheorems.RunKeepsInForce(c, s1, actions, k, e);
    ResultHasNoTaggedDict(cs, e.result);
    ReplayCodec.ReplayIsFaithfulIff(ds, ResultOf(cs, e.result));
  }
}
