/** The shared-memory manager and the symbol registry as the engine runs them, each call
    shown to be an uninterrupted run of the slot pool's steps. */
module SymbolRegistryImpl {
  import opened OrderBook
  import opened SlotPool

  datatype Claim = Slot(k: nat) | TooLong | PoolExhausted

  predicate FirstFree(claimed: seq<bool>, k: nat) {
    k < |claimed| && !claimed[k] && forall i :: 0 <= i < k ==> claimed[i]
  }

  class SharedMemoryManager {
    const claimed: array<bool>
    const names: array<string>

    constructor ()
      ensures Valid() && fresh(claimed) && fresh(names)
      ensures forall i :: 0 <= i < POOL_SIZE ==> !claimed[i] && names[i] == ""
    {
      claimed := new bool[POOL_SIZE](_ => false);
      names := new string[POOL_SIZE](_ => "");
    }

    predicate Valid() { claimed.Length == POOL_SIZE && names.Length == POOL_SIZE }

    /** The lowest free slot, named and flagged; nothing changes when there is none or the
        name does not fit. */
    method ClaimSlot(symbol: string) returns (r: Claim)
      requires Valid()
      modifies claimed, names
      ensures r.Slot? ==>
        && FirstFree(old(claimed[..]), r.k) && |symbol| < NAME_WIDTH
        && claimed[..] == old(claimed[..])[r.k := true] && names[..] == old(names[..])[r.k := symbol]
      ensures r.TooLong? ==> |symbol| >= NAME_WIDTH && exists k :: FirstFree(old(claimed[..]), k)
      ensures r.PoolExhausted? ==> forall i :: 0 <= i < POOL_SIZE ==> old(claimed[i])
      ensures !r.Slot? ==> claimed[..] == old(claimed[..]) && names[..] == old(names[..])
    {
      for k := 0 to POOL_SIZE
        invariant forall i :: 0 <= i < k ==> claimed[i]
        invariant claimed[..] == old(claimed[..]) && names[..] == old(names[..])
      {
        if !claimed[k] {
          assert FirstFree(old(claimed[..]), k);
          if |symbol| >= NAME_WIDTH {
            return TooLong;
          }
          names[k] := symbol;
          claimed[k] := true;
          return Slot(k);
        }
      }
      assert forall i :: 0 <= i < POOL_SIZE ==> claimed[i] == claimed[..][i];
      return PoolExhausted;
    }

    method ReleaseSlot(k: nat)
      requires Valid() && k < POOL_SIZE
      modifies claimed, names
      ensures claimed[..] == old(claimed[..])[k := false] && names[..] == old(names[..])[k := ""]
    {
      names[k] := "";
      claimed[k] := false;
    }

    /** The backend's lookup by name. */
    method FindSlot(symbol: string) returns (found: bool, k: nat)
      requires Valid()
      ensures found ==> k < POOL_SIZE && claimed[k] && names[k] == symbol
      ensures found ==> forall i :: 0 <= i < k ==> !(claimed[i] && names[i] == symbol)
      ensures !found ==> forall i :: 0 <= i < POOL_SIZE ==> !(claimed[i] && names[i] == symbol)
    {
      for idx := 0 to POOL_SIZE
        invariant forall i :: 0 <= i < idx ==> !(claimed[i] && names[i] == symbol)
      {
        if claimed[idx] && names[idx] == symbol {
          return true, idx;
        }
      }
      return false, 0;
    }
  }

  ghost predicate CellsAre(cells: seq<Cell>, claimed: seq<bool>, names: seq<string>) {
    && |cells| == |claimed| == |names|
    && forall i :: 0 <= i < |cells| ==> cells[i].claimed == claimed[i] && cells[i].name == names[i]
  }

  /** The new entry has one reference and the slot that was the lowest free one. */
  predicate Entered(was: map<string, Entry>, now: map<string, Entry>, flags: seq<bool>, flags': seq<bool>, symbol: string) {
    && symbol in now && FirstFree(flags, now[symbol].slot)
    && now == was[symbol := Entry(1, now[symbol].slot)]
    && flags' == flags[now[symbol].slot := true]
  }

  /** `pool` is the state of the step system the registry is in. */
  class SymbolRegistry {
    var entries: map<string, Entry>
    const memory: SharedMemoryManager
    ghost var pool: Pool

    constructor ()
      ensures Valid() && fresh(memory) && fresh(memory.claimed) && fresh(memory.names) && pool == Init()
    {
      entries := map[];
      memory := new SharedMemoryManager();
      pool := Init();
    }

    ghost predicate Valid()
      reads this, memory.claimed, memory.names
    {
      memory.Valid() && entries == pool.entries && CellsAre(pool.cells, memory.claimed[..], memory.names[..])
    }

    ghost predicate Ready(t: nat)
      reads this, memory.claimed, memory.names
    {
      Valid() && PcOf(pool, t) == Idle && pool.lock == None
    }

    /** Succeeds exactly when the symbol is live, or is supported, fits and finds a free slot. */
    method Subscribe(t: nat, symbol: string, supported: bool) returns (ok: bool, ghost script: seq<Action>)
      requires Ready(t)
      modifies this, memory.claimed, memory.names
      ensures Ready(t) && pool == Run(old(pool), script)
      ensures ok <==> symbol in old(entries)
                      || (supported && |symbol| < NAME_WIDTH && exists k :: FirstFree(old(memory.claimed[..]), k))
      ensures !ok ==> entries == old(entries) && memory.claimed[..] == old(memory.claimed[..])
      ensures symbol in old(entries) ==>
        && entries == old(entries)[symbol := Entry(old(entries)[symbol].refcount + 1, old(entries)[symbol].slot)]
        && memory.claimed[..] == old(memory.claimed[..])
      ensures ok && symbol !in old(entries) ==>
        Entered(old(entries), entries, old(memory.claimed[..]), memory.claimed[..], symbol)
    {
      if symbol in entries {
        var e := entries[symbol];
        entries := entries[symbol := e.(refcount := e.refcount + 1)];
        script := [Check(t, symbol)];
        RunOne(pool, script[0]);
        pool := Run(pool, script);
        return true, script;
      }
      if !supported {
        script := [Check(t, symbol)] + [LookupDone(t, false)];
        RunOne(pool, Check(t, symbol));
        RunSnoc(pool, [Check(t, symbol)], LookupDone(t, false));
        pool := Run(pool, script);
        return false, script;
      }
      ok, script := Open(t, symbol);
    }

    /** The part under the lock, for a symbol without a live entry. */
    method Open(t: nat, symbol: string) returns (ok: bool, ghost script: seq<Action>)
      requires Ready(t) && symbol !in entries
      modifies this, memory.claimed, memory.names
      ensures Ready(t) && pool == Run(old(pool), script)
      ensures ok <==> |symbol| < NAME_WIDTH && exists k :: FirstFree(old(memory.claimed[..]), k)
      ensures !ok ==> entries == old(entries) && memory.claimed[..] == old(memory.claimed[..])
      ensures ok ==> Entered(old(entries), entries, old(memory.claimed[..]), memory.claimed[..], symbol)
    {
      var r := memory.ClaimSlot(symbol);
      match r
      case Slot(k) =>
        entries := entries[symbol := Entry(1, k)];
        OpenRun(pool, t, symbol, k);
        script := OpenScript(t, symbol, k);
        pool := Run(pool, script);
        return true, script;
      case TooLong =>
        ghost var k :| FirstFree(old(memory.claimed[..]), k);
        FailRun(pool, t, symbol, k);
        script := ScanScript(t, symbol, k) + [Probe(t)];
        pool := Run(pool, script);
        return false, script;
      case PoolExhausted =>
        FailRun(pool, t, symbol, POOL_SIZE);
        script := ScanScript(t, symbol, POOL_SIZE) + [Probe(t)];
        pool := Run(pool, script);
        return false, script;
    }

    /** The last reference detaches the entry and gives its slot back. */
    method UnsubscribeSymbol(t: nat, symbol: string) returns (ok: bool, ghost script: seq<Action>)
      requires Ready(t) && Inv(pool)
      modifies this, memory.claimed, memory.names
      ensures Ready(t) && pool == Run(old(pool), script)
      ensures ok <==> symbol in old(entries)
      ensures !ok ==> entries == old(entries) && memory.claimed[..] == old(memory.claimed[..])
      ensures ok && old(entries)[symbol].refcount == 1 ==>
        && entries == old(entries) - {symbol}
        && memory.claimed[..] == old(memory.claimed[..])[old(entries)[symbol].slot := false]
      ensures ok && old(entries)[symbol].refcount > 1 ==>
        && entries.Keys == old(entries).Keys && entries[symbol].refcount == old(entries)[symbol].refcount - 1
        && memory.claimed[..] == old(memory.claimed[..])
    {
      script := [Unsubscribe(t, symbol)];
      RunOne(pool, script[0]);
      if symbol !in entries {
        pool := Run(pool, script);
        return false, script;
      }
      var e := entries[symbol];
      assert EntryFits(pool.cells, symbol, pool.entries[symbol]);
      if e.refcount > 1 {
        entries := entries[symbol := e.(refcount := e.refcount - 1)];
        pool := Run(pool, script);
        return true, script;
      }
      entries := entries - {symbol};
      memory.ReleaseSlot(e.slot);
      RunSnoc(pool, script, Release(t));
      RunSnoc(pool, script + [Release(t)], Release(t));
      script := script + [Release(t)] + [Release(t)];
      pool := Run(pool, script);
      return true, script;
    }
  }
}
