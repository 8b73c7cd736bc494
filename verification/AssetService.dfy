/** Asset-scan dispatcher, both halves together: the items that leave the table of future scans are
    what new batches of runs are made of. */
module AssetService {
  import opened ListSort
  import Alignment
  import Table = AssetSchedule
  import Runs = AssetRuns

  /** What is looked up for a device when its item is due: the licence, the address, what it is
      capable of. */
  datatype Facts = Facts(allowed: bool, hasIp: bool, hm: bool, nrpe: bool)

  function ScanOf(r: Table.Row, f: Facts): Runs.Scan { Runs.Scan(r.device, f.hasIp, f.hm, f.nrpe) }

  /** The scans of the items whose devices are allowed to be scanned. */
  function ScansOf(rows: seq<Table.Row>, facts: seq<Facts>): seq<Runs.Scan>
    requires |rows| == |facts|
  {
    if rows == [] then []
    else
      var n := |rows| - 1;
      var before := ScansOf(rows[..n], facts[..n]);
      if facts[n].allowed then before + [ScanOf(rows[n], facts[n])] else before
  }

  /** The new batches: one for each item of an allowed and capable device, in the order of the items. */
  function BatchesOf(rows: seq<Table.Row>, facts: seq<Facts>): seq<Runs.Event>
    requires |rows| == |facts|
  {
    if rows == [] then []
    else
      var n := |rows| - 1;
      var before, f := BatchesOf(rows[..n], facts[..n]), facts[n];
      if f.allowed && (f.hm || f.nrpe) then before + [Runs.Add(rows[n].device, f.hasIp, f.hm)] else before
  }

  lemma {:induction false} ScansAdd(rows: seq<Table.Row>, facts: seq<Facts>)
    requires |rows| == |facts|
    ensures Runs.AddsOf(ScansOf(rows, facts)) == BatchesOf(rows, facts)
  {
    if rows != [] {
      var n := |rows| - 1;
      var before, f := ScansOf(rows[..n], facts[..n]), facts[n];
      ScansAdd(rows[..n], facts[..n]);
      if f.allowed {
        assert (before + [ScanOf(rows[n], f)])[..|before|] == before;
      }
    }
  }

  lemma {:induction false} BatchesAppend(a: seq<Table.Row>, fa: seq<Facts>, b: seq<Table.Row>, fb: seq<Facts>)
    requires |a| == |fa| && |b| == |fb|
    ensures BatchesOf(a + b, fa + fb) == BatchesOf(a, fa) + BatchesOf(b, fb)
  {
    if b == [] {
      assert a + b == a && fa + fb == fa;
    } else {
      var n := |b| - 1;
      BatchesAppend(a, fa, b[..n], fb[..n]);
      assert (a + b)[..|a| + n] == a + b[..n] && (fa + fb)[..|a| + n] == fa + fb[..n];
    }
  }

  /** At most one batch per item, and all are additions. */
  lemma {:induction false} BatchesBound(rows: seq<Table.Row>, facts: seq<Facts>)
    requires |rows| == |facts|
    ensures |BatchesOf(rows, facts)| <= |rows| && forall e :: e in BatchesOf(rows, facts) ==> e.Add?
  {
    if rows != [] { BatchesBound(rows[..|rows| - 1], facts[..|rows| - 1]); }
  }

  function IsAdd(): Runs.Event -> bool { (e: Runs.Event) => e.Add? }

  /** The new batches in a history. */
  function Added(trace: seq<Runs.Event>): seq<Runs.Event> { Filter(trace, IsAdd()) }

  ghost predicate NoAdds(es: seq<Runs.Event>) { forall e :: e in es ==> !e.Add? }

  lemma AddedMore(trace: seq<Runs.Event>, rows: seq<Table.Row>, facts: seq<Facts>, rest: seq<Runs.Event>)
    requires |rows| == |facts| && NoAdds(rest)
    ensures Added(trace + BatchesOf(rows, facts) + rest) == Added(trace) + BatchesOf(rows, facts)
  {
    var new' := BatchesOf(rows, facts);
    FilterAppend(trace + new', rest, IsAdd());
    FilterAppend(trace, new', IsAdd());
    BatchesBound(rows, facts);
    FilterAll(new', IsAdd());
    FilterNone(rest, IsAdd());
  }

  /** Every batch that was ever created has its own addition in the history. */
  lemma {:induction false} BatchesCounted(trace: seq<Runs.Event>)
    requires Runs.Possible(trace)
    ensures Runs.After(trace).nextBatch == |Added(trace)|
  {
    if trace != [] {
      var before, e := trace[..|trace| - 1], trace[|trace| - 1];
      BatchesCounted(before);
      Runs.NextBatch(Runs.After(before), e);
    }
  }

  lemma TickAddsNothingElse(inits: seq<Runs.Event>, a: seq<nat>, bg: Runs.Check, b: seq<nat>, con: Runs.Check)
    requires Runs.OnlyInits(inits)
    ensures NoAdds(inits + Runs.EndEvents(false, a, bg) + Runs.EndEvents(true, b, con) + [Runs.Sweep])
  {}

  /** The due items as scans, and the rest of the tick. */
  method Work(runs: Runs.AssetDispatcher, due: seq<Table.Row>, facts: seq<Facts>, bg: nat -> Runs.BgState,
              timedOut: nat -> bool)
    returns (ghost rest: seq<Runs.Event>)
    requires runs.Valid() && |due| == |facts|
    modifies runs
    ensures runs.Valid() && NoAdds(rest) && runs.trace == old(runs.trace) + BatchesOf(due, facts) + rest
  {
    hide *;
    var scans := Scans(due, facts);
    ghost var inits, bgOrder, conOrder, added, mid := runs.DispatchCall(scans, bg, timedOut);
    ghost var a := Runs.EndEvents(false, bgOrder, Runs.BgCheck(bg));
    ghost var b := Runs.EndEvents(true, conOrder, Runs.ConCheck(timedOut));
    rest := inits + a + b + [Runs.Sweep];
    TickAddsNothingElse(inits, bgOrder, Runs.BgCheck(bg), conOrder, Runs.ConCheck(timedOut));
    ScansAdd(due, facts);
    Regroup(old(runs.trace) + BatchesOf(due, facts), inits, a, b, [Runs.Sweep]);
  }

  lemma Regroup(t: seq<Runs.Event>, i: seq<Runs.Event>, a: seq<Runs.Event>, b: seq<Runs.Event>, c: seq<Runs.Event>)
    ensures t + (i + a + b + c) == t + i + a + b + c
  {}

  class Dispatcher {
    const table: Table.ScheduleTable
    const runs: Runs.AssetDispatcher
    const links: seq<Table.Link>
    /** The items at the beginning, the calls since, and what was looked up for the items that were due. */
    ghost const start: seq<Table.Row>
    ghost var calls: seq<Table.Event>
    ghost var facts: seq<Facts>

    ghost function Fired(): seq<Table.Row>
      reads this
    {
      Table.Fired(start, links, calls)
    }

    /** Over every interleaving of schedule_call, dispatch_call and replies: the table is what the calls
        make of it, and the batches ever created are those of the dispatched items, one for one. */
    ghost predicate Valid()
      reads this, table, runs
    {
      && runs.Valid() && table.items == Table.Run(start, links, calls)
      && |facts| == |Fired()| && Added(runs.trace) == BatchesOf(Fired(), facts)
    }

    constructor (items: seq<Table.Row>, links: seq<Table.Link>)
      ensures Valid() && fresh(table) && fresh(runs) && this.links == links && start == items && calls == []
    {
      table := new Table.ScheduleTable(items);
      runs := new Runs.AssetDispatcher();
      this.links, start, calls, facts := links, items, [], [];
    }

    /** No item leads to two batches. */
    lemma OneBatchPerItem()
      requires Valid()
      ensures runs.nextBatch <= |Fired()|
    {
      BatchesCounted(runs.trace);
      BatchesBound(Fired(), facts);
      hide Table.Fired, Added, BatchesOf;
    }

    method ScheduleCall(now: int)
      requires Valid() && forall l :: l in links ==> Alignment.InRange(l.ds)
      modifies this, table
      ensures Valid() && calls == old(calls) + [Table.ScheduleCall(now)]
    {
      Table.OneMoreCall(start, links, calls, Table.ScheduleCall(now));
      hide Table.Step, Table.Run, Table.Fired, Added, BatchesOf;
      table.Schedule(links, now);
      calls := calls + [Table.ScheduleCall(now)];
    }

    /** A tick: exactly the due items leave the table, and exactly the allowed and capable ones among
        them become batches, in order; nothing else does. */
    method DispatchCall(now: int, looked: nat -> Facts, bg: nat -> Runs.BgState, timedOut: nat -> bool)
      returns (due: seq<Table.Row>, ghost rest: seq<Runs.Event>)
      requires Valid()
      modifies this, table, runs
      ensures Valid() && calls == old(calls) + [Table.DispatchCall(now)]
      ensures due == Filter(old(table.items), Table.Due(now))
      ensures table.items == Filter(old(table.items), Table.NotDue(now))
      ensures |facts| == |old(facts)| + |due| && NoAdds(rest)
      ensures runs.trace == old(runs.trace) + BatchesOf(due, facts[|old(facts)|..]) + rest
      ensures forall i :: 0 <= i < |due| ==> facts[|old(facts)| + i] == looked(i)
    {
      Table.OneMoreCall(start, links, calls, Table.DispatchCall(now));
      hide Table.Run, Table.Fired, Added, BatchesOf, NoAdds;
      due := table.Dispatch(now);
      var found := seq(|due|, i requires 0 <= i < |due| => looked(i));
      rest := Work(runs, due, found, bg, timedOut);
      AddedMore(old(runs.trace), due, found, rest);
      BatchesAppend(old(Fired()), old(facts), due, found);
      calls, facts := calls + [Table.DispatchCall(now)], facts + found;
      assert facts[|old(facts)|..] == found;
    }

    method GotResult(k: nat)
      requires Valid()
      modifies runs
      ensures Valid() && k !in runs.conLut
    {
      runs.GotResult(k);
      NothingAdded(old(runs.trace), k);
    }
  }

  lemma NothingAdded(trace: seq<Runs.Event>, k: nat)
    ensures Added(trace + [Runs.Reply(k), Runs.Sweep]) == Added(trace)
  {
    AddedMore(trace, [], [], [Runs.Reply(k), Runs.Sweep]);
    assert trace + [] == trace;
  }

  method Scans(rows: seq<Table.Row>, facts: seq<Facts>) returns (scans: seq<Runs.Scan>)
    requires |rows| == |facts|
    ensures scans == ScansOf(rows, facts)
  {
    scans := [];
    for i := 0 to |rows|
      invariant scans == ScansOf(rows[..i], facts[..i])
    {
      assert rows[..i + 1][..i] == rows[..i] && facts[..i + 1][..i] == facts[..i];
      if facts[i].allowed {
        scans := scans + [ScanOf(rows[i], facts[i])];
      }
    }
    assert rows[..|rows|] == rows && facts[..|facts|] == facts;
  }
}
