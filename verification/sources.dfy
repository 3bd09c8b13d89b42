/** What the data tools share when they fetch a table: trying several
    source functions in priority order until one yields a usable (not None,
    not empty) table, and keeping the last good full-market table in a
    module-level slot for a while. A source function is represented by the
    outcome calling it would have; the functions after the one that
    succeeds are never called. */
module Sources {
  import opened Common

  /** A call that returned a table that is neither None nor empty. */
  predicate Succeeded(o: FetchOutcome)
  {
    o.Returned? && Usable(o.table)
  }

  /** The position of the first source that succeeds, |outs| if none does. */
  function FirstSuccess(outs: seq<FetchOutcome>): (k: nat)
    ensures k <= |outs|
    ensures forall j :: 0 <= j < k ==> !Succeeded(outs[j])
    ensures k < |outs| ==> Succeeded(outs[k])
  {
    if outs == [] then 0
    else if Succeeded(outs[0]) then 0
    else 1 + FirstSuccess(outs[1..])
  }

  /** The table a serial source chain returns: the first usable one, or an
      empty table when every source failed. */
  function ChainResult(outs: seq<FetchOutcome>): (t: Table)
    ensures !t.IsEmpty() <==> exists j :: 0 <= j < |outs| && Succeeded(outs[j])
  {
    var k := FirstSuccess(outs);
    if k < |outs| then outs[k].table.value else EmptyTable()
  }

  /** How many source functions the chain calls. */
  function ChainCalls(outs: seq<FetchOutcome>): (n: nat)
    ensures n <= |outs|
    ensures (exists j :: 0 <= j < |outs| && Succeeded(outs[j])) ==> n == FirstSuccess(outs) + 1
    ensures (forall j :: 0 <= j < |outs| ==> !Succeeded(outs[j])) ==> n == |outs|
  {
    var k := FirstSuccess(outs);
    if k < |outs| then k + 1 else |outs|
  }

  /** The sleeps of a chain that calls `calls` sources: one before every
      call except the first. */
  function SleepsBefore(delay: real, calls: nat): (sleeps: seq<real>)
    ensures |sleeps| == if calls == 0 then 0 else calls - 1
    ensures forall i :: 0 <= i < |sleeps| ==> sleeps[i] == delay
  {
    Repeat(delay, if calls == 0 then 0 else calls - 1)
  }

  /** The first source that succeeds decides the result; the ones before it
      were called and failed. */
  lemma ChainReturnsFirstSuccess(outs: seq<FetchOutcome>, k: nat)
    requires k < |outs| && Succeeded(outs[k])
    requires forall j :: 0 <= j < k ==> !Succeeded(outs[j])
    ensures ChainResult(outs) == outs[k].table.value && !ChainResult(outs).IsEmpty()
    ensures ChainCalls(outs) == k + 1
  {
  }

  /** Sources after a successful one are irrelevant: appending more changes
      neither the result nor the calls made. */
  lemma {:induction false} ChainIgnoresLaterSources(outs: seq<FetchOutcome>, more: seq<FetchOutcome>)
    requires exists j :: 0 <= j < |outs| && Succeeded(outs[j])
    ensures FirstSuccess(outs + more) == FirstSuccess(outs)
    ensures ChainResult(outs + more) == ChainResult(outs)
    ensures ChainCalls(outs + more) == ChainCalls(outs)
  {
    if !Succeeded(outs[0]) {
      var j :| 0 <= j < |outs| && Succeeded(outs[j]);
      assert j > 0 && Succeeded(outs[1..][j - 1]);
      assert (outs + more)[1..] == outs[1..] + more;
      ChainIgnoresLaterSources(outs[1..], more);
    }
  }

  /** When every source fails, the chain calls all of them and returns an
      empty table; it never raises. */
  lemma ChainAllFailed(outs: seq<FetchOutcome>)
    requires forall j :: 0 <= j < |outs| ==> !Succeeded(outs[j])
    ensures ChainResult(outs) == EmptyTable() && ChainCalls(outs) == |outs|
  {
  }

  // ---------------------------------------------------------------------
  // The chain that re-raises
  // ---------------------------------------------------------------------

  /** The message of the last source that raised, if any raised. */
  function LastRaised(outs: seq<FetchOutcome>): (r: Option<string>)
    ensures r.None? <==> forall j :: 0 <= j < |outs| ==> !outs[j].Raised?
  {
    if outs == [] then None
    else match LastRaised(outs[1..])
      case Some(m) => Some(m)
      case None => if outs[0].Raised? then Some(outs[0].message) else None
  }

  /** The reported message is that of a source that raised after which no
      other source raised. */
  lemma {:induction false} LastRaisedIsLast(outs: seq<FetchOutcome>)
    requires LastRaised(outs).Some?
    ensures exists j :: 0 <= j < |outs| && outs[j] == Raised(LastRaised(outs).value)
                        && forall i :: j < i < |outs| ==> !outs[i].Raised?
  {
    var tail := outs[1..];
    if LastRaised(tail).Some? {
      LastRaisedIsLast(tail);
      var j :| 0 <= j < |tail| && tail[j] == Raised(LastRaised(tail).value)
               && forall i :: j < i < |tail| ==> !tail[i].Raised?;
      assert outs[j + 1] == tail[j];
      assert forall i :: j + 1 < i < |outs| ==> outs[i] == tail[i - 1];
    } else {
      assert forall i :: 0 < i < |outs| ==> outs[i] == tail[i - 1];
    }
  }

  /** Adding one more source at the end: it is the last to raise if it
      raises. */
  lemma {:induction false} LastRaisedSnoc(outs: seq<FetchOutcome>, o: FetchOutcome)
    ensures LastRaised(outs + [o]) == if o.Raised? then Some(o.message) else LastRaised(outs)
  {
    if outs == [] {
      assert [o][1..] == [];
    } else {
      assert (outs + [o])[1..] == outs[1..] + [o];
      LastRaisedSnoc(outs[1..], o);
    }
  }

  /** A chain that returns the first usable table, and otherwise re-raises
      the most recent exception or, if nothing raised, returns an empty
      table. */
  function ChainOrRaise(outs: seq<FetchOutcome>): (r: FetchOutcome)
    ensures r.Returned? ==> r.table.Some?
  {
    var k := FirstSuccess(outs);
    if k < |outs| then outs[k]
    else match LastRaised(outs)
      case Some(m) => Raised(m)
      case None => Returned(Some(EmptyTable()))
  }

  /** The re-raising chain raises exactly when no source succeeded and at
      least one raised; otherwise it returns what the silent chain returns. */
  lemma ChainOrRaiseAgrees(outs: seq<FetchOutcome>)
    ensures ChainOrRaise(outs).Raised? <==>
      (forall j :: 0 <= j < |outs| ==> !Succeeded(outs[j])) && (exists j :: 0 <= j < |outs| && outs[j].Raised?)
    ensures ChainOrRaise(outs).Returned? ==> ChainOrRaise(outs).table == Some(ChainResult(outs))
  {
  }

  // ---------------------------------------------------------------------
  // Module-level table slots
  // ---------------------------------------------------------------------

  /** Holds `required` among its columns. */
  predicate HasColumns(t: Table, required: seq<string>)
  {
    forall c :: c in required ==> c in t.columns
  }

  /** A table worth keeping: not None, not empty, with the required columns. */
  predicate Keepable(t: Option<Table>, required: seq<string>)
  {
    Usable(t) && HasColumns(t.value, required)
  }

  /** The pair of module globals: the last kept table and when it was
      fetched. */
  datatype Slot = Slot(table: Option<Table>, timestamp: Option<real>)

  /** The slot may be reused at `now`. */
  predicate Fresh(s: Slot, ttl: real, required: seq<string>, now: real)
  {
    s.table.Some? && s.timestamp.Some? && Keepable(s.table, required) && now - s.timestamp.value < ttl
  }

  /** What one lookup through a slot returns, whether it fetched, and the
      slot afterwards. */
  datatype SlotStep = SlotStep(result: FetchOutcome, fetched: bool, slot: Slot)

  /** A lookup at `now`: a fresh slot is returned without fetching;
      otherwise the fetch outcome is returned (an exception propagates)
      and only a keepable table is written, stamped with `now`. */
  function Lookup(s: Slot, ttl: real, required: seq<string>, now: real, fetch: FetchOutcome): (r: SlotStep)
    ensures r.fetched <==> !Fresh(s, ttl, required, now)
    ensures !r.fetched ==> r.slot == s && r.result == Returned(s.table)
    ensures r.fetched ==> r.result == fetch
    ensures r.slot != s ==> fetch.Returned? && Keepable(fetch.table, required) && r.slot == Slot(fetch.table, Some(now))
  {
    if Fresh(s, ttl, required, now) then SlotStep(Returned(s.table), false, s)
    else if fetch.Returned? && Keepable(fetch.table, required) then SlotStep(fetch, true, Slot(fetch.table, Some(now)))
    else SlotStep(fetch, true, s)
  }

  /** A slot only ever holds a keepable table, together with its time. */
  predicate SlotValid(s: Slot, required: seq<string>)
  {
    s.table.Some? ==> s.timestamp.Some? && Keepable(s.table, required)
  }

  lemma LookupKeepsValid(s: Slot, ttl: real, required: seq<string>, now: real, fetch: FetchOutcome)
    requires SlotValid(s, required)
    ensures SlotValid(Lookup(s, ttl, required, now, fetch).slot, required)
  {
  }

  /** For a valid slot the reuse test is just the age test: the emptiness
      and column checks of the stock-list cache add nothing. */
  lemma FreshIsAgeTest(s: Slot, ttl: real, required: seq<string>, now: real)
    requires SlotValid(s, required)
    ensures Fresh(s, ttl, required, now) <==> s.table.Some? && s.timestamp.Some? && now - s.timestamp.value < ttl
  {
  }

  /** After a successful fetch at `t`, a lookup strictly less than `ttl`
      later returns that same table without fetching. */
  lemma ReusedWithinTtl(s: Slot, ttl: real, required: seq<string>, t: real, fetch: FetchOutcome,
                        later: real, next: FetchOutcome)
    requires Succeeded(fetch) && Keepable(fetch.table, required) && !Fresh(s, ttl, required, t)
    requires later - t < ttl
    ensures var first := Lookup(s, ttl, required, t, fetch);
      Lookup(first.slot, ttl, required, later, next) == SlotStep(fetch, false, first.slot)
  {
  }

  /** A failed fetch (None, empty, missing columns, or raised) leaves the
      slot as it was, so the next lookup fetches again. */
  lemma FailureNotCached(s: Slot, ttl: real, required: seq<string>, now: real, fetch: FetchOutcome)
    requires !(fetch.Returned? && Keepable(fetch.table, required))
    ensures Lookup(s, ttl, required, now, fetch).slot == s
    ensures !Fresh(s, ttl, required, now) ==> !Fresh(Lookup(s, ttl, required, now, fetch).slot, ttl, required, now)
  {
  }

  /** One module-level cache slot (`_X_CACHE_DF`, `_X_CACHE_TS`). */
  class TableSlot {
    var table: Option<Table>
    var timestamp: Option<real>
    const ttl: real
    const required: seq<string>

    ghost predicate Valid()
      reads this
    {
      SlotValid(Slot(table, timestamp), required)
    }

    constructor (ttl: real, required: seq<string>)
      ensures this.ttl == ttl && this.required == required
      ensures table == None && timestamp == None && Valid()
    {
      this.ttl := ttl;
      this.required := required;
      table := None;
      timestamp := None;
    }

    /** The reuse test of the cached getters. */
    predicate IsFresh(now: real)
      reads this
    {
      table.Some? && timestamp.Some? && Keepable(table, required) && now - timestamp.value < ttl
    }

    /** The write after a fetch: only a keepable table replaces the slot. */
    method Keep(fetch: FetchOutcome, now: real)
      requires Valid()
      modifies this
      ensures Valid()
      ensures fetch.Returned? && Keepable(fetch.table, required) ==> table == fetch.table && timestamp == Some(now)
      ensures !(fetch.Returned? && Keepable(fetch.table, required)) ==> table == old(table) && timestamp == old(timestamp)
    {
      if fetch.Returned? && Keepable(fetch.table, required) {
        table := fetch.table;
        timestamp := Some(now);
      }
    }
  }
}
