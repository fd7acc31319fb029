/**
 * The game monitor's tick, as its tests fix it: the earliest creation time of a
 * game worth playing, and the single batch of allowed game addresses handed to
 * the scheduler. The clock is a number of Unix seconds; the game source, the
 * scheduler and the block-number fetcher are the tests' stubs.
 */
module GameMonitor {
  import opened Wrappers
  import opened Primitives

  /** A discovered game: its proxy address and creation time. */
  datatype FaultDisputeGame = FaultDisputeGame(proxy: Address, timestamp: nat)

  /** An error a scheduler may report. */
  datatype MonitorError = MonitorError(message: string)

  /**
   * `minGameTimestamp`: `now - window` in seconds, saturating at 0 instead of
   * underflowing; a window of 0 means every game, so 0.
   */
  function MinGameTimestamp(now: nat, gameWindow: nat): (r: nat)
    ensures gameWindow == 0 ==> r == 0
    ensures r <= now
    ensures r == 0 || r + gameWindow == now
    ensures 0 < gameWindow < now ==> r + gameWindow == now
  {
    if gameWindow == 0 || now <= gameWindow then 0 else now - gameWindow
  }

  /** The proxy addresses of `games`, in discovery order. */
  function Proxies(games: seq<FaultDisputeGame>): (r: seq<Address>)
    ensures |r| == |games| && forall i :: 0 <= i < |games| ==> r[i] == games[i].proxy
  {
    if games == [] then [] else [games[0].proxy] + Proxies(games[1..])
  }

  /** Whether a game at `proxy` may be played: an empty allow-list allows every game. */
  predicate Allowed(allowedGames: seq<Address>, proxy: Address)
  {
    allowedGames == [] || proxy in allowedGames
  }

  /** The addresses of the discovered games the allow-list lets through, in discovery order. */
  function AllowedProxies(games: seq<FaultDisputeGame>, allowedGames: seq<Address>): (r: seq<Address>)
    ensures |r| <= |games|
    ensures forall a :: a in r <==> a in Proxies(games) && Allowed(allowedGames, a)
  {
    if games == [] then []
    else
      (if Allowed(allowedGames, games[0].proxy) then [games[0].proxy] else [])
      + AllowedProxies(games[1..], allowedGames)
  }

  /** With an empty allow-list every discovered address is kept, in order. */
  lemma {:induction false} EmptyAllowListKeepsAll(games: seq<FaultDisputeGame>)
    ensures AllowedProxies(games, []) == Proxies(games)
  {
    if games != [] {
      EmptyAllowListKeepsAll(games[1..]);
    }
  }

  /** The filter keeps order: filtering a concatenation concatenates the filtered parts. */
  lemma {:induction false} AllowedProxiesAppend(xs: seq<FaultDisputeGame>, ys: seq<FaultDisputeGame>, allowedGames: seq<Address>)
    ensures AllowedProxies(xs + ys, allowedGames) == AllowedProxies(xs, allowedGames) + AllowedProxies(ys, allowedGames)
  {
    if xs != [] {
      assert (xs + ys)[1..] == xs[1..] + ys;
      AllowedProxiesAppend(xs[1..], ys, allowedGames);
    } else {
      assert xs + ys == ys;
    }
  }

  /** The tests' scheduler: it records every batch it is given and never fails. */
  class StubScheduler {
    var scheduled: seq<seq<Address>>

    constructor ()
      ensures scheduled == []
    {
      scheduled := [];
    }

    /** `Schedule`: exactly one batch is appended; the earlier ones stay as they were. */
    method Schedule(games: seq<Address>) returns (err: Option<MonitorError>)
      modifies this
      ensures scheduled == old(scheduled) + [games]
      ensures err == None
    {
      scheduled := scheduled + [games];
      err := None;
    }
  }

  /** The tests' game source: it answers its fixed list whatever it is asked. */
  class StubGameSource {
    var games: seq<FaultDisputeGame>

    constructor (games: seq<FaultDisputeGame>)
      ensures this.games == games
    {
      this.games := games;
    }

    method FetchAllGamesAtBlock(earliest: nat, blockNumber: nat) returns (r: seq<FaultDisputeGame>)
      ensures r == games
    {
      r := games;
    }
  }

  /** The tests' block-number fetcher: a counter, starting at 1, bumped before each answer. */
  class BlockNumberCounter {
    var i: nat

    constructor ()
      ensures i == 1
    {
      i := 1;
    }

    method FetchBlockNum() returns (n: nat)
      modifies this
      ensures i == old(i) + 1 && n == i
    {
      i := i + 1;
      n := i;
    }
  }

  /** The fields of the monitor the tick reads. */
  class Monitor {
    var clockNow: nat
    var gameWindow: nat
    var allowedGames: seq<Address>
    const source: StubGameSource
    const scheduler: StubScheduler

    constructor (clockNow: nat, source: StubGameSource, scheduler: StubScheduler, gameWindow: nat, allowedGames: seq<Address>)
      ensures this.clockNow == clockNow && this.gameWindow == gameWindow && this.allowedGames == allowedGames
      ensures this.source == source && this.scheduler == scheduler
    {
      this.clockNow := clockNow;
      this.gameWindow := gameWindow;
      this.allowedGames := allowedGames;
      this.source := source;
      this.scheduler := scheduler;
    }

    /**
     * `progressGames`: fetch the games created since `MinGameTimestamp` as of
     * `blockNum`, and hand the allowed addresses to the scheduler in one call.
     */
    method ProgressGames(blockNum: nat) returns (err: Option<MonitorError>)
      modifies scheduler
      ensures scheduler.scheduled == old(scheduler.scheduled) + [AllowedProxies(source.games, allowedGames)]
      ensures err == None
    {
      var games := source.FetchAllGamesAtBlock(MinGameTimestamp(clockNow, gameWindow), blockNum);
      err := scheduler.Schedule(AllowedProxies(games, allowedGames));
    }
  }

  /** Two games and an empty allow-list: one batch holding both addresses, in discovery order. */
  method ProgressWithEmptyAllowList(addr1: Address, addr2: Address) returns (scheduled: seq<seq<Address>>)
    ensures scheduled == [[addr1, addr2]]
  {
    var source := new StubGameSource([FaultDisputeGame(addr1, 9999), FaultDisputeGame(addr2, 9999)]);
    var sched := new StubScheduler();
    var monitor := new Monitor(0, source, sched, 0, []);
    var err := monitor.ProgressGames(1);
    EmptyAllowListKeepsAll(source.games);
    assert Proxies(source.games) == [addr1, addr2];
    scheduled := sched.scheduled;
  }

  /** Two games and an allow-list naming the second: one batch holding only the second. */
  method ProgressWithAllowList(addr1: Address, addr2: Address) returns (scheduled: seq<seq<Address>>)
    requires addr1 != addr2
    ensures scheduled == [[addr2]]
  {
    var source := new StubGameSource([FaultDisputeGame(addr1, 9999), FaultDisputeGame(addr2, 9999)]);
    var sched := new StubScheduler();
    var monitor := new Monitor(0, source, sched, 0, [addr2]);
    var err := monitor.ProgressGames(1);
    assert source.games[1..][1..] == [];
    assert AllowedProxies(source.games[1..], [addr2]) == [addr2];
    assert !Allowed([addr2], addr1);
    assert AllowedProxies(source.games, [addr2]) == [addr2];
    scheduled := sched.scheduled;
  }

  /** The fetcher's first two answers are 2 and 3: strictly increasing block numbers. */
  method FirstBlockNumbers() returns (first: nat, second: nat)
    ensures first == 2 && second == 3
  {
    var fetch := new BlockNumberCounter();
    first := fetch.FetchBlockNum();
    second := fetch.FetchBlockNum();
  }
}
