// A container as its item sees it: it can be started once and stopped once, and it reports.
module Containers {
  import opened Types

  /** Progress of the one start of a container. Starting is the doStart goroutine talking to
      Docker; in UpPending and FailPending it is blocked sending its event to the item. */
  datatype StartPhase = NotStarted | Starting | UpPending | FailPending | Delivered

  datatype ContainerState = ContainerState(start: StartPhase, stopped: bool)

  function StartOnce(c: ContainerState): ContainerState {
    if c.start.NotStarted? then c.(start := Starting) else c
  }

  function StopOnce(c: ContainerState): ContainerState {
    c.(stopped := true)
  }

  datatype ContainerEvent = ExitSuccess | ExitError

  /** What the Docker event stream delivers: a death with its exit code (None if it is missing or not a
      number), the container being gone, anything else, or the end of the stream. */
  datatype DockerMessage = Die(code: Option<int>) | Gone | Other | StreamEnds(eof: bool)

  /** syscall.WaitStatus is a 32-bit unsigned integer: larger codes, and negative ones, wrap around. */
  function WaitStatus(code: int): int { code % 0x1_0000_0000 }

  function StatusAfter(status: int, m: DockerMessage): int {
    if m.Die? && m.code.Some? then WaitStatus(m.code.value) else status
  }

  /** The status after reading some messages. */
  function LastStatus(feed: seq<DockerMessage>): int {
    if feed == [] then 0 else StatusAfter(LastStatus(feed[..|feed| - 1]), feed[|feed| - 1])
  }

  /** The last message with a readable exit code. */
  predicate LastDeath(feed: seq<DockerMessage>, j: int) {
    && 0 <= j < |feed| && feed[j].Die? && feed[j].code.Some?
    && forall k :: j < k < |feed| && feed[k].Die? ==> feed[k].code.None?
  }

  lemma OneMoreMessage(before: seq<DockerMessage>, m: DockerMessage, j: int)
    requires m.Die? ==> m.code.None?
    ensures LastDeath(before + [m], j) <==> LastDeath(before, j)
  {
    var feed := before + [m];
    if LastDeath(before, j) {
      forall k | j < k < |feed| && feed[k].Die? ensures feed[k].code.None? {
        if k < |before| { assert feed[k] == before[k]; }
      }
    }
    if LastDeath(feed, j) {
      forall k | j < k < |before| && before[k].Die? ensures before[k].code.None? { assert feed[k] == before[k]; }
    }
  }

  /** The status is zero if no exit code could be read, or the last one is a multiple of two to the 32nd. */
  lemma {:induction false} StatusIsLastDeath(feed: seq<DockerMessage>)
    ensures LastStatus(feed) == 0 <==> forall j :: LastDeath(feed, j) ==> feed[j].code.value % 0x1_0000_0000 == 0
  {
    if feed != [] {
      var before, m := feed[..|feed| - 1], feed[|feed| - 1];
      assert feed == before + [m];
      StatusIsLastDeath(before);
      if m.Die? && m.code.Some? {
        assert LastDeath(feed, |feed| - 1);
      } else {
        forall j ensures LastDeath(feed, j) <==> LastDeath(before, j) {
          OneMoreMessage(before, m, j);
        }
      }
    }
  }

  class PContainer {
    var start: StartPhase
    var stopped: bool
    var kills: nat    // doStop goroutines ever launched
    var starts: nat   // doStart goroutines ever launched

    /** The once-guards: at most one goroutine of each kind is ever launched. */
    ghost predicate Valid()
      reads this
    {
      && starts == Bit(!start.NotStarted?)
      && kills == Bit(stopped)
    }

    ghost function View(): ContainerState
      reads this
    {
      ContainerState(start, stopped)
    }

    constructor ()
      ensures Valid() && View() == ContainerState(NotStarted, false)
    {
      start, stopped, kills, starts := NotStarted, false, 0, 0;
    }

    method Start()
      requires Valid()
      modifies this
      ensures Valid() && View() == StartOnce(old(View()))
    {
      if start.NotStarted? {
        start := Starting;
        starts := starts + 1;
      }
    }

    method Stop()
      requires Valid()
      modifies this
      ensures Valid() && View() == StopOnce(old(View()))
    {
      if !stopped {
        stopped := true;
        kills := kills + 1;
      }
    }

    /** Docker's answer to the start: the goroutine is now blocked with its event in hand. */
    method DoStart(ok: bool)
      requires Valid() && start.Starting?
      modifies this
      ensures Valid() && View() == old(View()).(start := if ok then UpPending else FailPending)
    {
      start := if ok then UpPending else FailPending;
    }

    /** The item has received that event. */
    method Delivered()
      requires Valid() && (start.UpPending? || start.FailPending?)
      modifies this
      ensures Valid() && View() == old(View()).(start := StartPhase.Delivered)
    {
      start := StartPhase.Delivered;
    }
  }

  predicate Ends(feed: seq<DockerMessage>, n: nat) {
    n < |feed| && feed[n].StreamEnds?
  }

  /** How often the container was reported gone. */
  function Departures(feed: seq<DockerMessage>): nat {
    multiset(feed)[Gone]
  }

  /** Reads the event stream until it ends (or the feed does): each time the container is gone it sends one
      exit event, an error just when the last readable exit code so far is not zero. */
  method DoMonitor(feed: seq<DockerMessage>) returns (events: seq<ContainerEvent>, at: seq<nat>, read: nat, retry: bool)
    ensures read <= |feed|
    ensures forall k :: 0 <= k < read ==> !Ends(feed, k)
    ensures read < |feed| ==> Ends(feed, read) && retry == !feed[read].eof
    ensures |events| == |at| == Departures(feed[..read])
    ensures forall k :: 0 <= k < |at| ==> at[k] < read && feed[at[k]].Gone?
    ensures forall k, l :: 0 <= k < l < |at| ==> at[k] < at[l]
    ensures forall k :: 0 <= k < |at| ==> (events[k].ExitSuccess? <==>
      forall j :: LastDeath(feed[..at[k]], j) ==> feed[j].code.value % 0x1_0000_0000 == 0)
  {
    hide Heard, LastStatus, Departures, LastDeath;
    events, at, read, retry := [], [], 0, true;
    var status := 0;
    NothingHeard();
    while read < |feed| && !feed[read].StreamEnds?
      invariant read <= |feed|
      invariant forall k :: 0 <= k < read ==> !Ends(feed, k)
      invariant Heard(feed[..read], status, events, at)
    {
      OneHeard(feed[..read], feed[read], status, events, at);
      assert feed[..read + 1] == feed[..read] + [feed[read]];
      match feed[read] {
        case Die(Some(code)) => status := WaitStatus(code);
        case Gone =>
          events, at := events + [if status == 0 then ExitSuccess else ExitError], at + [read];
        case _ =>
      }
      read := read + 1;
    }
    if read < |feed| {
      retry := !feed[read].eof;
    }
    AllHeard(feed, read, status, events, at);
  }

  /** What has been read so far, and what has been made of it. */
  ghost predicate Heard(feed: seq<DockerMessage>, status: int, events: seq<ContainerEvent>, at: seq<nat>) {
    && status == LastStatus(feed)
    && |events| == |at| == Departures(feed)
    && (forall k :: 0 <= k < |at| ==> at[k] < |feed| && feed[at[k]].Gone?)
    && (forall k, l :: 0 <= k < l < |at| ==> at[k] < at[l])
    && (forall k :: 0 <= k < |at| ==> (events[k].ExitSuccess? <==> LastStatus(feed[..at[k]]) == 0))
  }

  lemma NothingHeard()
    ensures Heard([], 0, [], [])
  {
  }

  lemma OneHeard(feed: seq<DockerMessage>, m: DockerMessage, status: int, events: seq<ContainerEvent>, at: seq<nat>)
    requires Heard(feed, status, events, at)
    ensures Heard(feed + [m], StatusAfter(status, m),
                  if m.Gone? then events + [if status == 0 then ExitSuccess else ExitError] else events,
                  if m.Gone? then at + [|feed|] else at)
  {
    var all := feed + [m];
    assert all[..|feed|] == feed && all[|feed|] == m;
    assert LastStatus(all) == StatusAfter(status, m);
    forall k | 0 <= k < |at| ensures all[..at[k]] == feed[..at[k]] && all[at[k]] == feed[at[k]] {}
  }

  lemma AllHeard(feed: seq<DockerMessage>, read: nat, status: int, events: seq<ContainerEvent>, at: seq<nat>)
    requires read <= |feed| && Heard(feed[..read], status, events, at)
    ensures |events| == |at| == Departures(feed[..read])
    ensures forall k :: 0 <= k < |at| ==> at[k] < read && feed[at[k]].Gone?
    ensures forall k, l :: 0 <= k < l < |at| ==> at[k] < at[l]
    ensures forall k :: 0 <= k < |at| ==> (events[k].ExitSuccess? <==>
      forall j :: LastDeath(feed[..at[k]], j) ==> feed[j].code.value % 0x1_0000_0000 == 0)
  {
    hide LastStatus, Departures;
    forall k | 0 <= k < |at|
      ensures events[k].ExitSuccess? <==> forall j :: LastDeath(feed[..at[k]], j) ==> feed[j].code.value % 0x1_0000_0000 == 0
    {
      StatusIsLastDeath(feed[..at[k]]);
      assert feed[..read][..at[k]] == feed[..at[k]];
      forall j | LastDeath(feed[..at[k]], j) ensures feed[..at[k]][j] == feed[j] {}
    }
  }
}
