/**
 * The restart loop of src/controller.py's entry point (lines 302-306): build
 * a controller, which serves until `/quit` or `/restart` stops its listener,
 * and build another one for as long as the last one was stopped by `/restart`.
 *
 * What reaches the listeners is one sequence of requests, `traffic`; each new
 * controller serves what the previous one left. A controller that runs out of
 * traffic is still listening, and the loop stays inside it.
 */
module Lifecycle {
  import opened RequestContext
  import opened Dispatch

  /**
   * How many controllers the entry point builds for `traffic`: at least one,
   * and no more than one per request plus the first.
   */
  function Generations(traffic: seq<Incoming>): (g: nat)
    ensures 1 <= g <= |traffic| + 1
    decreases |traffic|
  {
    if SessionRestarts(traffic) then 1 + Generations(traffic[SessionLength(traffic)..]) else 1
  }

  /**
   * Whether the entry point leaves the loop: the last controller's listener
   * was stopped, which takes at least one request.
   */
  predicate Leaves(traffic: seq<Incoming>): (b: bool)
    ensures b ==> traffic != []
    decreases |traffic|
  {
    if SessionRestarts(traffic) then Leaves(traffic[SessionLength(traffic)..]) else SessionStops(traffic)
  }

  /** The requests that stop a listener, in order: `true` for `/restart`, `false` for `/quit`. */
  function StopKinds(traffic: seq<Incoming>): (kinds: seq<bool>)
    ensures |kinds| <= |traffic|
    decreases |traffic|
  {
    if traffic == [] then []
    else (if StopsListener(traffic[0].req) then [AsksRestart(traffic[0].req)] else []) + StopKinds(traffic[1..])
  }

  /** The number of `true`s `kinds` starts with. */
  function LeadingTrues(kinds: seq<bool>): nat
    decreases |kinds|
  {
    if kinds == [] || !kinds[0] then 0 else 1 + LeadingTrues(kinds[1..])
  }

  /** The stops of the first session come first: one kind if it was stopped, then what follows it. */
  lemma {:induction false} StopKindsSession(traffic: seq<Incoming>)
    ensures var n := SessionLength(traffic);
      StopKinds(traffic) ==
        if SessionStops(traffic) then [AsksRestart(traffic[n - 1].req)] + StopKinds(traffic[n..]) else []
    decreases |traffic|
  {
    if traffic != [] && !StopsListener(traffic[0].req) {
      var rest := traffic[1..];
      StopKindsSession(rest);
      var n := SessionLength(traffic);
      assert n == 1 + SessionLength(rest);
      assert traffic[n..] == rest[n - 1..];
      if SessionLength(rest) > 0 {
        assert traffic[n - 1] == rest[n - 2];
      }
    }
  }

  /**
   * The entry point builds one controller, plus one for every `/restart`
   * that stops a listener before the first `/quit` does.
   */
  lemma {:induction false} GenerationsCountsRestarts(traffic: seq<Incoming>)
    ensures Generations(traffic) == 1 + LeadingTrues(StopKinds(traffic))
    decreases |traffic|
  {
    StopKindsSession(traffic);
    var n := SessionLength(traffic);
    if SessionRestarts(traffic) {
      var rest := traffic[n..];
      GenerationsCountsRestarts(rest);
      assert StopKinds(traffic) == [true] + StopKinds(rest);
      assert ([true] + StopKinds(rest))[1..] == StopKinds(rest);
    }
  }

  /** The entry point leaves the loop exactly when some `/quit` stops a listener. */
  lemma {:induction false} LeavesIffQuit(traffic: seq<Incoming>)
    ensures Leaves(traffic) <==> false in StopKinds(traffic)
    decreases |traffic|
  {
    StopKindsSession(traffic);
    var n := SessionLength(traffic);
    var kinds := StopKinds(traffic);
    if SessionRestarts(traffic) {
      var rest := traffic[n..];
      LeavesIffQuit(rest);
      assert kinds == [true] + StopKinds(rest);
      assert false in kinds <==> false in StopKinds(rest);
    } else if SessionStops(traffic) {
      assert kinds[0] == false;
    } else {
      assert kinds == [];
    }
  }

  /** Without any `/restart` in the traffic, exactly one controller is built. */
  lemma NoRestartOneController(traffic: seq<Incoming>)
    requires forall j :: 0 <= j < |traffic| ==> !AsksRestart(traffic[j].req)
    ensures Generations(traffic) == 1
  {
  }

  /**
   * The entry point (lines 302-306): `built` controllers were constructed,
   * and `left` says whether the loop was left (rather than the last
   * controller still listening). Closing a listener's socket before the next
   * one binds is not modelled.
   */
  method RunProcess(c: Collaborators, traffic: seq<Incoming>) returns (built: nat, left: bool)
    ensures built == Generations(traffic) && left == Leaves(traffic)
    ensures built == 1 + LeadingTrues(StopKinds(traffic))
    ensures left <==> false in StopKinds(traffic)
  {
    var ez := new Controller(c, traffic);
    ghost var start := 0;
    var pos := ez.served;
    built := 1;
    while ez.restart
      invariant start <= pos <= |traffic|
      invariant pos == start + SessionLength(traffic[start..])
      invariant ez.restart == SessionRestarts(traffic[start..])
      invariant ez.stopping == SessionStops(traffic[start..])
      invariant Generations(traffic) == built - 1 + Generations(traffic[start..])
      invariant Leaves(traffic) == Leaves(traffic[start..])
      decreases |traffic| - pos + (if ez.restart then 1 else 0)
    {
      assert traffic[start..][pos - start..] == traffic[pos..];
      start := pos;
      ez := new Controller(c, traffic[pos..]);
      pos := pos + ez.served;
      built := built + 1;
    }
    left := ez.stopping;
    GenerationsCountsRestarts(traffic);
    LeavesIffQuit(traffic);
  }
}
