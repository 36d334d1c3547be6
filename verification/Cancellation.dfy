/** The run-cancel registry: per job a channel whose sender stays in the registry and whose receiver the runner
    takes once. `BuildCancelRegistry` is the same without the taking. */
module Cancellation {
  import opened Options
  import opened Proto

  datatype Command = CancelRun | ShutDown

  /** A crossbeam channel: `open` until its receiver is dropped. */
  class Channel {
    var queue: seq<Command>
    var open: bool

    constructor ()
      ensures queue == [] && open
    {
      queue, open := [], true;
    }
  }

  datatype Entry = Entry(tx: Channel, rx: Option<Channel>)

  class CancellationRegistry {
    var entries: map<JobId, Entry>
    ghost var slept: nat               // history: how often somebody slept between two looks

    /** A receiver still in its entry belongs to the entry's sender, and no two jobs share a channel. */
    ghost predicate Valid()
      reads this
    {
      && (forall j | j in entries :: entries[j].rx.Some? ==> entries[j].rx.value == entries[j].tx)
      && (forall i, j | i in entries && j in entries && entries[i].tx == entries[j].tx :: i == j)
    }

    ghost function Channels(): set<Channel>
      reads this
    {
      set j | j in entries :: entries[j].tx
    }

    constructor ()
      ensures Valid() && entries == map[]
    {
      entries, slept := map[], 0;
    }

    /** A fresh channel; an older entry of the job is dropped. */
    method Register(id: JobId)
      requires Valid()
      modifies this
      ensures Valid() && id in entries && entries - {id} == old(entries) - {id}
      ensures fresh(entries[id].tx) && entries[id] == Entry(entries[id].tx, Some(entries[id].tx))
      ensures entries[id].tx.open && entries[id].tx.queue == []
    {
      var ch := new Channel();
      entries := entries[id := Entry(ch, Some(ch))];
    }

    /** The receiver is handed out once; it is the one `Signal` sends to, before and after. */
    method TakeReceiver(id: JobId) returns (rx: Option<Channel>)
      requires Valid()
      modifies this
      ensures Valid() && entries.Keys == old(entries).Keys && forall j | j in entries :: entries[j].tx == old(entries)[j].tx
      ensures rx.Some? <==> id in old(entries) && old(entries)[id].rx.Some?
      ensures rx.Some? ==> rx.value == entries[id].tx
      ensures id in entries ==> entries[id].rx.None?
      ensures forall j | j in entries && j != id :: entries[j] == old(entries)[j]
    {
      if id !in entries { return None; }
      rx := entries[id].rx;
      entries := entries[id := Entry(entries[id].tx, None)];
    }

    method Unregister(id: JobId)
      requires Valid()
      modifies this
      ensures Valid() && entries == old(entries) - {id}
    {
      entries := entries - {id};
    }

    /** True exactly if the command was put into a channel someone can still read; nobody else's channel changes. */
    method Signal(id: JobId, cmd: Command) returns (ok: bool)
      requires Valid()
      modifies Channels()
      ensures Valid() && (ok <==> id in entries && old(entries[id].tx.open))
      ensures ok ==> entries[id].tx.queue == old(entries[id].tx.queue) + [cmd]
      ensures forall c | c in Channels() && !(ok && c == entries[id].tx) :: c.queue == old(c.queue)
      ensures forall c | c in Channels() :: c.open == old(c.open)
    {
      if id !in entries { return false; }
      var tx := entries[id].tx;
      if !tx.open { return false; }
      tx.queue := tx.queue + [cmd];
      return true;
    }

    /** Every job whose channel is open gets the command, once. */
    method SignalAll(cmd: Command)
      requires Valid()
      modifies Channels()
      ensures Valid()
      ensures forall c | c in Channels() :: c.open == old(c.open) && c.queue == old(c.queue) + if c.open then [cmd] else []
    {
      var todo := entries.Keys;
      while todo != {}
        invariant Valid() && todo <= entries.Keys
        invariant forall j | j in entries :: entries[j].tx.open == old(entries[j].tx.open)
        invariant forall j | j in todo :: entries[j].tx.queue == old(entries[j].tx.queue)
        invariant forall j | j in entries && j !in todo ::
                    entries[j].tx.queue == old(entries[j].tx.queue) + if entries[j].tx.open then [cmd] else []
        decreases todo
      {
        var j :| j in todo;
        var tx := entries[j].tx;
        if tx.open { tx.queue := tx.queue + [cmd]; } else { assert tx.queue + [] == tx.queue; }
        todo := todo - {j};
      }
    }

    method Active() returns (n: nat)
      ensures n == |entries|
    {
      n := |entries|;
    }

    /** Runs are registered, taken and unregistered while nobody looks. */
    method Interfere()
      requires Valid()
      modifies this`entries, Channels()
      ensures Valid() && fresh(Channels() - old(Channels()))
    {}

    /** `sleep`, between two looks at the registry. */
    method Sleep()
      requires Valid()
      modifies this, Channels()
      ensures Valid() && fresh(Channels() - old(Channels())) && slept == old(slept) + 1
    {
      slept := slept + 1;
      Interfere();
    }
  }

  /** What shutting down acts on. */
  class Shutdown {
    const registry: CancellationRegistry
    var draining: bool
    var cronRunning: bool

    constructor (registry: CancellationRegistry)
      ensures this.registry == registry && !draining && cronRunning
    {
      this.registry, draining, cronRunning := registry, false, true;
    }

    /** `drain_with_grace`, its grace counted in polls: the drain flag is up, either a poll found no run registered
        or the grace is over and every run that can still be reached has been told to shut down, last of all, and
        cron has been stopped if it can be. */
    method DrainWithGrace(polls: nat, cronStops: bool) returns (clean: bool)
      requires registry.Valid()
      modifies this, registry, registry.Channels()
      ensures registry.Valid() && draining && cronRunning == (old(cronRunning) && !cronStops)
      ensures clean ==> registry.entries == map[]
      ensures registry.slept <= old(registry.slept) + polls && (!clean ==> registry.slept == old(registry.slept) + polls)
      ensures !clean ==> forall j | j in registry.entries && registry.entries[j].tx.open ::
                           var q := registry.entries[j].tx.queue; q != [] && q[|q| - 1] == ShutDown
    {
      draining := true;
      clean := WaitForRuns(polls);
      if !clean {
        registry.Interfere();
        registry.SignalAll(ShutDown);
      }
      if cronStops { cronRunning := false; }
    }

    /** The polling loop: the registry is looked at before the clock, so at least once. It gives up only after the
        whole grace. */
    method WaitForRuns(polls: nat) returns (clean: bool)
      requires registry.Valid()
      modifies registry, registry.Channels()
      ensures registry.Valid() && fresh(registry.Channels() - old(registry.Channels()))
      ensures clean <==> registry.entries == map[]
      ensures registry.slept <= old(registry.slept) + polls && (!clean ==> registry.slept == old(registry.slept) + polls)
    {
      var n := 0;
      while true
        invariant n <= polls && registry.Valid() && fresh(registry.Channels() - old(registry.Channels()))
        invariant registry.slept == old(registry.slept) + n
        decreases polls - n
      {
        var active := registry.Active();
        if active == 0 { return true; }
        if n == polls { return false; }
        registry.Sleep();
        n := n + 1;
      }
    }
  }
}
