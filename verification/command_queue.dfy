/** The command queue: calls made before the store has opened are queued,
    and once it opens `_doQ` starts them in arrival order; later calls start
    at once. The gate records the order in which calls are started; `Run`
    is what starting one call does. Each call is taken to run to completion
    before the next one starts. */
module CommandQueue {
  import opened Base
  import opened Store
  import opened Queries
  import opened Sheets
  import opened Entries

  /** A public method call with its arguments (`sync` is not part of this
      model). */
  datatype Call =
    | SheetCall(name: string)
    | RmSheetCall(target: Target, cascade: bool)
    | SheetsCall
    | InCall(opts: Options)
    | OutCall(opts: Options)
    | QueryCall(filter: Filter)

  /** `ready` is the `_init` flag, `queue` is `Q`, and `started` lists the
      calls started so far, oldest first. */
  datatype Gate = Gate(ready: bool, queue: seq<Call>, started: seq<Call>)

  /** A store that has not opened yet. */
  const Fresh: Gate := Gate(false, [], [])

  /** The entry of every public method: before initialisation the call is
      pushed onto the queue and nothing runs; afterwards it runs at once. */
  function Submit(g: Gate, c: Call): (g': Gate)
    ensures g'.ready == g.ready
    ensures !g.ready ==> g'.queue == g.queue + [c] && g'.started == g.started
    ensures g.ready ==> g'.queue == g.queue && g'.started == g.started + [c]
  {
    if g.ready then g.(started := g.started + [c]) else g.(queue := g.queue + [c])
  }

  /** `_doQ`: shift calls off the front of the queue and start each, until
      the queue is empty. */
  method DoQ(g: Gate) returns (g': Gate)
    requires g.ready
    ensures g'.ready && g'.queue == []
    ensures g'.started == g.started + g.queue
  {
    var q := g.queue;
    var started := g.started;
    while |q| > 0
      invariant started + q == g.started + g.queue
      decreases |q|
    {
      var task := q[0];
      assert q == [task] + q[1..];
      q := q[1..];
      started := started + [task];
    }
    g' := Gate(true, q, started);
  }

  /** The gate once the store has opened and the queue has been drained. */
  function Opened(g: Gate): Gate {
    Gate(true, [], g.started + g.queue)
  }

  /** The open callback: set `_init`, then drain the queue. */
  method Initialize(g: Gate) returns (g': Gate)
    requires !g.ready
    ensures g' == Opened(g)
  {
    g' := DoQ(g.(ready := true));
  }

  /** Submitting calls one after another. */
  function SubmitAll(g: Gate, cs: seq<Call>): Gate
    decreases |cs|
  {
    if cs == [] then g else SubmitAll(Submit(g, cs[0]), cs[1..])
  }

  /** Before initialisation submitted calls only queue up, in order. */
  lemma {:induction false} SubmitAllPending(g: Gate, cs: seq<Call>)
    requires !g.ready
    ensures SubmitAll(g, cs) == g.(queue := g.queue + cs)
    decreases |cs|
  {
    if cs == [] {
      assert g.queue + cs == g.queue;
    } else {
      SubmitAllPending(Submit(g, cs[0]), cs[1..]);
      assert (g.queue + [cs[0]]) + cs[1..] == g.queue + cs;
    }
  }

  /** After initialisation submitted calls start at once, in order, and
      the queue stays as it is. */
  lemma {:induction false} SubmitAllReady(g: Gate, cs: seq<Call>)
    requires g.ready
    ensures SubmitAll(g, cs) == g.(started := g.started + cs)
    decreases |cs|
  {
    if cs == [] {
      assert g.started + cs == g.started;
    } else {
      SubmitAllReady(Submit(g, cs[0]), cs[1..]);
      assert (g.started + [cs[0]]) + cs[1..] == g.started + cs;
    }
  }

  /** Whatever is submitted before and after the store opens, calls start
      in exactly the order they were made and nothing is left queued. */
  lemma ArrivalOrder(before: seq<Call>, after: seq<Call>)
    ensures SubmitAll(Opened(SubmitAll(Fresh, before)), after) == Gate(true, [], before + after)
  {
    SubmitAllPending(Fresh, before);
    assert Fresh.queue + before == before;
    SubmitAllReady(Opened(SubmitAll(Fresh, before)), after);
  }

  /** What a call answers its callback with. */
  datatype Answer =
    | Selected(changed: bool)
    | RemovedSheet(name: string)
    | Listed(listing: Listing)
    | Wrote(saved: Row)
    | Rows(rows: seq<Row>)

  /** The dispatcher's reply passes on the called method's reply: the same
      outcome, the same error, the same writes, and the method's value
      wrapped as the call's answer. */
  ghost predicate Relays<T>(r: Reply<Answer>, x: Reply<T>, wrap: T -> Answer) {
    && (r.Done? <==> x.Done?)
    && (r.Fail? ==> r.error == x.error)
    && (r.Done? ==> r.value == wrap(x.value) && r.writes == x.writes)
  }

  /** `this[task.task].apply(this, task.args)`: starting a call runs the
      method it names. Besides the clock and the id the store would assign,
      a call is given the enumeration order of the store's view. Listing
      sheets and querying never write. */
  function Run(db: Db, c: Call, env: Env, order: seq<Id>): (r: Reply<Answer>)
    requires env.freshId !in db.entries
    requires IsEnumeration(order, db.entries)
    ensures (c.SheetsCall? || c.QueryCall?) ==> r.Fail? || r.writes == []
    ensures c.QueryCall? ==> r.Done? && r.value.Rows? && r.value.rows == Query(db, order, c.filter)
    ensures c.SheetCall? ==> (r.Fail? <==> db.meta.None?)
    ensures c.SheetCall? ==> Relays(r, Sheet(db, c.name), b => Selected(b))
    ensures c.RmSheetCall? ==> Relays(r, RmSheet(db, c.target, c.cascade, order), s => RemovedSheet(s))
    ensures c.SheetsCall? ==> Relays(r, ListSheets(db), l => Listed(l))
    ensures c.InCall? ==> Relays(r, Edit(db, c.opts, env), w => Wrote(w))
    ensures c.OutCall? ==> Relays(r, Out(db, c.opts, env), w => Wrote(w))
    ensures (c.InCall? || c.OutCall?) && r.Done? ==> |r.writes| == 2 && r.writes[0].PutEntry?
  {
    match c
    case SheetCall(name) =>
      var x := Sheet(db, name);
      if x.Done? then Done(Selected(x.value), x.writes) else Fail(x.error)
    case RmSheetCall(target, cascade) =>
      var x := RmSheet(db, target, cascade, order);
      if x.Done? then Done(RemovedSheet(x.value), x.writes) else Fail(x.error)
    case SheetsCall =>
      var x := ListSheets(db);
      if x.Done? then Done(Listed(x.value), x.writes) else Fail(x.error)
    case InCall(opts) =>
      var x := Edit(db, opts, env);
      if x.Done? then Done(Wrote(x.value), x.writes) else Fail(x.error)
    case OutCall(opts) =>
      var x := Out(db, opts, env);
      if x.Done? then Done(Wrote(x.value), x.writes) else Fail(x.error)
    case QueryCall(f) =>
      Done(Rows(Query(db, order, f)), [])
  }
}
