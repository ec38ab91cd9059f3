// The resumable sync runner: ordered stages, a checkpoint per stage, and runs
// that a failed fetch may cut short at any point.
module SyncRunner {
  import opened Common

  // A fetched page: how many items it holds and where the next page starts;
  // an empty cursor ends the stage.
  datatype Page = Page(items: nat, cursor: string)

  // A stage with a deterministic page source of `pages` pages.
  datatype Stage = Stage(name: string, source: string -> Page, pages: nat)

  datatype Checkpoint = Checkpoint(stage: string, cursor: string, items: nat, complete: bool)

  // A call of a stage's Fetch.
  datatype Call = Call(stage: string, cursor: string)

  // A call, and how many fetches had succeeded before it.
  datatype Attempt = Attempt(call: Call, after: nat)

  // ---------------------------------------------------------------------
  // Pages of a stage

  // The cursor after k pages.
  function Cursor(s: Stage, k: nat): string {
    if k == 0 then "" else s.source(Cursor(s, k - 1)).cursor
  }

  // The items on the first k pages.
  function Items(s: Stage, k: nat): nat {
    if k == 0 then 0 else Items(s, k - 1) + s.source(Cursor(s, k - 1)).items
  }

  // The source ends after exactly `pages` pages.
  ghost predicate Finite(s: Stage) {
    s.pages >= 1 && Cursor(s, s.pages) == "" && forall k :: 0 < k < s.pages ==> Cursor(s, k) != ""
  }

  ghost predicate Valid(stages: seq<Stage>) {
    && (forall i :: 0 <= i < |stages| ==> Finite(stages[i]))
    && (forall i, j :: 0 <= i < j < |stages| ==> stages[i].name != stages[j].name)
  }

  // The calls that fetch the first k pages of a stage.
  function Fetches(s: Stage, k: nat): (calls: seq<Call>)
    ensures |calls| == k && forall i :: 0 <= i < k ==> calls[i] == Call(s.name, Cursor(s, i))
  {
    seq(k, i requires 0 <= i < k => Call(s.name, Cursor(s, i)))
  }

  lemma {:induction false} CursorsRepeat(s: Stage, i: nat, j: nat, n: nat)
    requires Cursor(s, i) == Cursor(s, j)
    ensures Cursor(s, i + n) == Cursor(s, j + n)
  {
    if n > 0 {
      CursorsRepeat(s, i, j, n - 1);
    }
  }

  // A finite deterministic source never asks for the same cursor twice.
  lemma CursorsDistinct(s: Stage, i: nat, j: nat)
    requires Finite(s) && i < j < s.pages
    ensures Cursor(s, i) != Cursor(s, j)
  {
    var k := i + (s.pages - j);
    assert Cursor(s, k) != "" == Cursor(s, s.pages);
    if Cursor(s, i) == Cursor(s, j) {
      CursorsRepeat(s, i, j, s.pages - j);
    }
  }

  // ---------------------------------------------------------------------
  // Positions

  // Stages before `stage` are complete and `page` pages of it are fetched.
  datatype Position = Position(stage: nat, page: nat)

  ghost predicate At(stages: seq<Stage>, p: Position) {
    if p.stage < |stages| then p.page < stages[p.stage].pages else p == Position(|stages|, 0)
  }

  // The call for the next page.
  function NextCall(stages: seq<Stage>, p: Position): Call
    requires p.stage < |stages|
  {
    Call(stages[p.stage].name, Cursor(stages[p.stage], p.page))
  }

  function Step(stages: seq<Stage>, p: Position): Position
    requires p.stage < |stages|
  {
    if p.page + 1 < stages[p.stage].pages then Position(p.stage, p.page + 1) else Position(p.stage + 1, 0)
  }

  // The position after n more successful fetches, or after the last.
  function Advance(stages: seq<Stage>, p: Position, n: nat): Position
    decreases n
  {
    if n == 0 || p.stage >= |stages| then p else Advance(stages, Step(stages, p), n - 1)
  }

  // Every page of the first n stages.
  function Before(stages: seq<Stage>, n: nat): seq<Call>
    requires n <= |stages|
  {
    if n == 0 then [] else Before(stages, n - 1) + Fetches(stages[n - 1], stages[n - 1].pages)
  }

  // All successful fetches up to a position.
  function Fetched(stages: seq<Stage>, p: Position): seq<Call>
    requires p.stage <= |stages|
  {
    Before(stages, p.stage) + if p.stage < |stages| then Fetches(stages[p.stage], p.page) else []
  }

  // What the store holds at a position.
  ghost predicate Saved(stages: seq<Stage>, p: Position, store: map<string, Checkpoint>) {
    forall i :: 0 <= i < |stages| ==> SavedStage(stages[i], store, i < p.stage, if i == p.stage then p.page else 0)
  }

  ghost predicate SavedStage(s: Stage, store: map<string, Checkpoint>, done: bool, k: nat) {
    if done then s.name in store && store[s.name] == Checkpoint(s.name, "", Items(s, s.pages), true)
    else if k == 0 then s.name !in store
    else s.name in store && store[s.name] == Checkpoint(s.name, Cursor(s, k), Items(s, k), false)
  }

  lemma StepStays(stages: seq<Stage>, p: Position)
    requires Valid(stages) && At(stages, p) && p.stage < |stages|
    ensures At(stages, Step(stages, p))
    ensures Fetched(stages, Step(stages, p))
            == Fetched(stages, p) + [NextCall(stages, p)]
  {
  }

  lemma {:induction false} AdvanceStays(stages: seq<Stage>, p: Position, n: nat)
    requires Valid(stages) && At(stages, p)
    ensures At(stages, Advance(stages, p, n))
    decreases n
  {
    if n > 0 && p.stage < |stages| {
      StepStays(stages, p);
      AdvanceStays(stages, Step(stages, p), n - 1);
    }
  }

  lemma {:induction false} AdvanceAdds(stages: seq<Stage>, p: Position, a: nat, b: nat)
    ensures Advance(stages, Advance(stages, p, a), b) == Advance(stages, p, a + b)
    decreases a
  {
    if a > 0 && p.stage < |stages| {
      AdvanceAdds(stages, Step(stages, p), a - 1, b);
    }
  }

  // Saving the checkpoint after one more page.
  lemma SavedStep(stages: seq<Stage>, p: Position, store: map<string, Checkpoint>, cp: Checkpoint)
    requires Valid(stages) && At(stages, p) && p.stage < |stages| && Saved(stages, p, store)
    requires var s, k := stages[p.stage], p.page + 1;
             cp == if k < s.pages then Checkpoint(s.name, Cursor(s, k), Items(s, k), false)
                   else Checkpoint(s.name, "", Items(s, k), true)
    ensures Saved(stages, Step(stages, p), store[stages[p.stage].name := cp])
  {
  }

  // The next page ends the stage exactly when it is the last.
  lemma NextCursor(s: Stage, k: nat)
    requires Finite(s) && k < s.pages
    ensures s.source(Cursor(s, k)) == Page(Items(s, k + 1) - Items(s, k), Cursor(s, k + 1))
    ensures Cursor(s, k + 1) == "" <==> k + 1 == s.pages
  {
  }

  lemma {:induction false} BeforeExtends(stages: seq<Stage>, n: nat, m: nat)
    requires n <= m <= |stages|
    ensures Before(stages, n) <= Before(stages, m)
    decreases m
  {
    if n < m {
      BeforeExtends(stages, n, m - 1);
    }
  }

  lemma FetchedPrefix(stages: seq<Stage>, p: Position)
    requires At(stages, p) && p.stage <= |stages|
    ensures Fetched(stages, p) <= Before(stages, |stages|)
  {
    hide Before, Fetches;
    if p.stage < |stages| {
      StagePrefix(stages, p);
      BeforeExtends(stages, p.stage + 1, |stages|);
      Prefixes(Fetched(stages, p), Before(stages, p.stage + 1), Before(stages, |stages|));
    } else {
      assert Before(stages, |stages|) + [] == Before(stages, |stages|);
    }
  }

  lemma StagePrefix(stages: seq<Stage>, p: Position)
    requires At(stages, p) && p.stage < |stages|
    ensures Fetched(stages, p) <= Before(stages, p.stage + 1)
  {
    PagesPrefix(stages[p.stage], p.page, Before(stages, p.stage));
    hide Fetches;
  }

  lemma Prefixes(a: seq<Call>, b: seq<Call>, c: seq<Call>)
    requires a <= b <= c
    ensures a <= c
  {
  }

  lemma PagesPrefix(s: Stage, k: nat, before: seq<Call>)
    requires k <= s.pages
    ensures before + Fetches(s, k) <= before + Fetches(s, s.pages)
  {
    hide Cursor;
    assert Fetches(s, k) == Fetches(s, s.pages)[..k];
    assert before + Fetches(s, k) == (before + Fetches(s, s.pages))[..|before| + k];
  }

  // The page after those fetched.
  lemma NextPage(stages: seq<Stage>, p: Position)
    requires Valid(stages) && At(stages, p) && p.stage < |stages|
    ensures var n, all := |Fetched(stages, p)|, Before(stages, |stages|);
            n < |all| && all[n] == NextCall(stages, p)
  {
    hide Before, Fetches, Cursor, Finite, Fetched;
    StepStays(stages, p);
    FetchedPrefix(stages, Step(stages, p));
  }

  // Every call, successful or not, asked for the first page not yet fetched.
  ghost predicate Asked(stages: seq<Stage>, calls: seq<Attempt>, fetched: nat) {
    && (forall k :: 0 <= k < |calls| ==>
          && calls[k].after <= fetched
          && calls[k].after < |Before(stages, |stages|)|
          && calls[k].call == Before(stages, |stages|)[calls[k].after])
    && (forall i, j :: 0 <= i < j < |calls| ==> calls[i].after <= calls[j].after)
  }

  // One more call at position p, and possibly its success.
  lemma AskedMore(stages: seq<Stage>, p: Position, calls: seq<Attempt>)
    requires Valid(stages) && At(stages, p) && p.stage < |stages|
    requires Asked(stages, calls, |Fetched(stages, p)|)
    ensures var n, more := |Fetched(stages, p)|, calls + [Attempt(NextCall(stages, p), |Fetched(stages, p)|)];
            Asked(stages, more, n) && Asked(stages, more, n + 1)
  {
    NextPage(stages, p);
    hide Before, Fetched;
  }

  // ---------------------------------------------------------------------
  // The runner

  class Runner {
    const stages: seq<Stage>
    var store: map<string, Checkpoint>
    // Successful fetches, and all calls of Fetch, so far.
    var fetched: seq<Call>
    var calls: seq<Attempt>

    constructor (stages: seq<Stage>)
      ensures this.stages == stages && store == map[] && fetched == [] && calls == []
      ensures Valid(stages) ==> Holds(Position(0, 0))
    {
      this.stages, store, fetched, calls := stages, map[], [], [];
    }

    ghost predicate Holds(p: Position)
      reads this
    {
      && Valid(stages) && At(stages, p) && Saved(stages, p, store)
      && fetched == Fetched(stages, p) && Asked(stages, calls, |fetched|)
    }

    // A run in which the given number of fetches succeed and the next one
    // fails, if it is reached. It ends where that many fetches lead, succeeds
    // exactly if that is the end, and calls no stage that was complete.
    method Run(successes: nat, ghost p: Position) returns (ok: bool)
      requires Holds(p)
      modifies this
      ensures Holds(Advance(stages, p, successes))
      ensures ok <==> Advance(stages, p, successes).stage == |stages|
      ensures old(calls) <= calls
      ensures forall i :: |old(calls)| <= i < |calls| ==>
                calls[i].call.stage !in old(store) || !old(store)[calls[i].call.stage].complete
    {
      hide Saved, Fetched, Asked;
      var left := successes;
      ghost var q := p;
      for j := 0 to |stages|
        invariant Holds(q) && j <= q.stage && p.stage <= q.stage
        invariant j <= p.stage ==> q == p && left == successes && calls == old(calls) && store == old(store)
        invariant j > p.stage ==> q == Position(j, 0)
        invariant Advance(stages, q, left) == Advance(stages, p, successes)
        invariant old(calls) <= calls
        invariant forall i :: |old(calls)| <= i < |calls| ==> Incomplete(stages, p, calls[i].call.stage)
      {
        CompleteWhenPassed(stages, q, store, j);
        if stages[j].name in store && store[stages[j].name].complete {
          continue;
        }
        ghost var n := |calls|;
        left, ok, q := RunStage(j, left, q);
        assert Incomplete(stages, p, stages[j].name);
        if !ok {
          NeverComplete(stages, p, old(store), calls, |old(calls)|);
          return;
        }
      }
      NeverComplete(stages, p, old(store), calls, |old(calls)|);
      return true;
    }

    // The page loop of one stage.
    method RunStage(j: nat, successes: nat, ghost p: Position) returns (left: nat, ok: bool, ghost q: Position)
      requires j < |stages| && Holds(p) && p.stage == j
      modifies this
      ensures Holds(q) && Advance(stages, q, left) == Advance(stages, p, successes)
      ensures if ok then q == Position(j + 1, 0) else left == 0 && q.stage == j
      ensures old(calls) <= calls && forall i :: |old(calls)| <= i < |calls| ==> calls[i].call.stage == stages[j].name
    {
      hide Saved, Fetched, Cursor, Items, Asked, Finite;
      var s := stages[j];
      left, q := successes, p;
      var cp := LoadCheckpoint(j, p);
      var cursor := cp.cursor;
      while true
        invariant Holds(q) && q.stage == j && cursor == cp.cursor
        invariant cp == Checkpoint(s.name, Cursor(s, q.page), Items(s, q.page), false)
        invariant Advance(stages, q, left) == Advance(stages, p, successes)
        invariant old(calls) <= calls && forall i :: |old(calls)| <= i < |calls| ==> calls[i].call.stage == s.name
        decreases left
      {
        AskedMore(stages, q, calls);
        calls := calls + [Attempt(Call(s.name, cursor), |fetched|)];
        if left == 0 {
          return left, false, q;
        }
        left := left - 1;
        var page := s.source(cursor);
        NextCursor(s, q.page);
        StepStays(stages, q);
        fetched := fetched + [Call(s.name, cursor)];
        cp := cp.(items := cp.items + page.items, cursor := page.cursor);
        ghost var before := store;
        store := store[s.name := cp];
        if page.cursor == "" {
          cp := cp.(complete := true, cursor := "");
          SavedStep(stages, q, before, cp);
          store := store[s.name := cp];
          assert store == before[s.name := cp];
          q := Step(stages, q);
          return left, true, q;
        }
        SavedStep(stages, q, before, cp);
        q := Step(stages, q);
        cursor := page.cursor;
      }
    }

    // The stored position of a stage that is not complete, or a fresh one.
    method LoadCheckpoint(j: nat, ghost p: Position) returns (cp: Checkpoint)
      requires j < |stages| && Holds(p) && p.stage == j
      ensures cp == Checkpoint(stages[j].name, Cursor(stages[j], p.page), Items(stages[j], p.page), false)
    {
      assert SavedStage(stages[j], store, false, p.page);
      if stages[j].name in store {
        return store[stages[j].name];
      }
      return Checkpoint(stages[j].name, "", 0, false);
    }
  }

  // The name is that of a stage not yet complete at p.
  ghost predicate Incomplete(stages: seq<Stage>, p: Position, name: string) {
    exists i :: p.stage <= i < |stages| && stages[i].name == name
  }

  lemma CompleteWhenPassed(stages: seq<Stage>, p: Position, store: map<string, Checkpoint>, j: nat)
    requires j < |stages| && Saved(stages, p, store)
    ensures stages[j].name in store && store[stages[j].name].complete <==> j < p.stage
  {
  }

  lemma NeverComplete(stages: seq<Stage>, p: Position, store: map<string, Checkpoint>, calls: seq<Attempt>, from: nat)
    requires Saved(stages, p, store)
    requires forall i :: from <= i < |calls| ==> Incomplete(stages, p, calls[i].call.stage)
    ensures forall i :: from <= i < |calls| ==> calls[i].call.stage !in store || !store[calls[i].call.stage].complete
  {
  }

  // ---------------------------------------------------------------------
  // Any sequence of runs

  // Where a sequence of runs leads, given how many fetches succeed in each.
  function RunAll(stages: seq<Stage>, p: Position, successes: seq<nat>): Position
    decreases |successes|
  {
    if successes == [] then p else RunAll(stages, Advance(stages, p, successes[0]), successes[1..])
  }

  function Sum(ns: seq<nat>): nat {
    if ns == [] then 0 else ns[0] + Sum(ns[1..])
  }

  // However the work is cut into runs, only the number of fetches matters.
  lemma {:induction false} RunsAddUp(stages: seq<Stage>, p: Position, successes: seq<nat>)
    ensures RunAll(stages, p, successes) == Advance(stages, p, Sum(successes))
    decreases |successes|
  {
    if successes != [] {
      RunsAddUp(stages, Advance(stages, p, successes[0]), successes[1..]);
      AdvanceAdds(stages, p, successes[0], Sum(successes[1..]));
    }
  }

  ghost predicate Distinct(calls: seq<Call>) {
    forall i, j :: 0 <= i < j < |calls| ==> calls[i] != calls[j]
  }

  lemma {:induction false} BeforeDistinct(stages: seq<Stage>, n: nat)
    requires Valid(stages) && n <= |stages|
    ensures Distinct(Before(stages, n))
    ensures forall c :: c in Before(stages, n) ==> exists i :: 0 <= i < n && stages[i].name == c.stage
    decreases n
  {
    if n > 0 {
      BeforeDistinct(stages, n - 1);
      var s := stages[n - 1];
      var a, b := Before(stages, n - 1), Fetches(s, s.pages);
      FetchesDistinct(s);
      forall i, j | 0 <= i < |a| && 0 <= j < |b|
        ensures a[i] != b[j]
      {
        assert a[i] in a;
        var k :| 0 <= k < n - 1 && stages[k].name == a[i].stage;
      }
      forall c | c in a + b
        ensures exists i :: 0 <= i < n && stages[i].name == c.stage
      {
        if c in b {
          assert stages[n - 1].name == c.stage;
        }
      }
    }
  }

  lemma FetchesDistinct(s: Stage)
    requires Finite(s)
    ensures Distinct(Fetches(s, s.pages))
  {
    forall i, j | 0 <= i < j < s.pages
      ensures Fetches(s, s.pages)[i] != Fetches(s, s.pages)[j]
    {
      CursorsDistinct(s, i, j);
    }
  }

  // One more run.
  lemma {:induction false} RunAllOneMore(stages: seq<Stage>, p: Position, successes: seq<nat>, n: nat)
    ensures RunAll(stages, p, successes + [n]) == Advance(stages, RunAll(stages, p, successes), n)
    decreases |successes|
  {
    if successes == [] {
      assert RunAll(stages, Advance(stages, p, n), []) == Advance(stages, p, n);
      assert ([] + [n])[1..] == [];
    } else {
      assert (successes + [n])[1..] == successes[1..] + [n];
      RunAllOneMore(stages, Advance(stages, p, successes[0]), successes[1..], n);
    }
  }

  // At the end of all stages everything is fetched once and complete.
  ghost predicate AllDone(stages: seq<Stage>, store: map<string, Checkpoint>, fetched: seq<Call>) {
    && fetched == Before(stages, |stages|)
    && Distinct(fetched)
    && forall i :: 0 <= i < |stages| ==> Done(stages[i], store)
  }

  ghost predicate Done(s: Stage, store: map<string, Checkpoint>) {
    s.name in store && store[s.name] == Checkpoint(s.name, "", Items(s, s.pages), true)
  }

  lemma EndIsAllDone(stages: seq<Stage>, store: map<string, Checkpoint>, fetched: seq<Call>)
    requires Valid(stages) && Saved(stages, Position(|stages|, 0), store)
    requires fetched == Fetched(stages, Position(|stages|, 0))
    ensures AllDone(stages, store, fetched)
  {
    BeforeDistinct(stages, |stages|);
    assert Before(stages, |stages|) + [] == Before(stages, |stages|);
    forall i | 0 <= i < |stages|
      ensures Done(stages[i], store)
    {
      assert i < Position(|stages|, 0).stage;
    }
  }

  // How many pages there are to fetch.
  function Pages(stages: seq<Stage>): nat {
    if stages == [] then 0 else stages[0].pages + Pages(stages[1..])
  }

  lemma {:induction false} AdvanceInStage(stages: seq<Stage>, i: nat, k: nat, n: nat)
    requires i < |stages| && k + n < stages[i].pages
    ensures Advance(stages, Position(i, k), n) == Position(i, k + n)
    decreases n
  {
    if n > 0 {
      AdvanceInStage(stages, i, k + 1, n - 1);
    }
  }

  // The end is reached by exactly as many successful fetches as there are pages.
  lemma {:induction false} EndNeedsAllPages(stages: seq<Stage>, i: nat, n: nat)
    requires Valid(stages) && i <= |stages|
    ensures Advance(stages, Position(i, 0), n).stage == |stages| <==> n >= Pages(stages[i..])
    decreases |stages| - i
  {
    if i < |stages| {
      var s := stages[i];
      assert Finite(s);
      assert stages[i..][0] == s && stages[i..][1..] == stages[i + 1..];
      if n < s.pages {
        AdvanceInStage(stages, i, 0, n);
      } else {
        AdvanceInStage(stages, i, 0, s.pages - 1);
        AdvanceAdds(stages, Position(i, 0), s.pages - 1, n - (s.pages - 1));
        EndNeedsAllPages(stages, i + 1, n - s.pages);
      }
    }
  }

  // Any sequence of runs on a fresh store, each cut short after the given number
  // of successful fetches. The last run succeeds exactly when as many fetches
  // have succeeded in all as there are pages, and then every page of every
  // stage has been fetched exactly once, in order, and every stage is complete
  // with the total number of its items. Until then, what has been fetched is the
  // beginning of that sequence. Every call of Fetch in any run, successful or
  // not, asks for the first page not yet fetched, so never for a page of a
  // completed stage.
  method ResumedRunsFetchOnce(stages: seq<Stage>, successes: seq<nat>)
    returns (ok: bool, store: map<string, Checkpoint>, fetched: seq<Call>, calls: seq<Attempt>)
    requires Valid(stages)
    ensures successes != [] ==> (ok <==> Sum(successes) >= Pages(stages))
    ensures ok ==> AllDone(stages, store, fetched)
    ensures fetched <= Before(stages, |stages|)
    ensures Asked(stages, calls, |fetched|)
  {
    hide Saved, Fetched, Asked;
    var r := new Runner(stages);
    ok := false;
    ghost var p := Position(0, 0);
    for i := 0 to |successes|
      invariant r.stages == stages && r.Holds(p) && p == RunAll(stages, Position(0, 0), successes[..i])
      invariant i > 0 ==> (ok <==> p.stage == |stages|)
      invariant i == 0 ==> !ok
    {
      ok := r.Run(successes[i], p);
      RunAllOneMore(stages, Position(0, 0), successes[..i], successes[i]);
      assert successes[..i + 1] == successes[..i] + [successes[i]];
      p := Advance(stages, p, successes[i]);
    }
    assert successes[..|successes|] == successes;
    RunsAddUp(stages, Position(0, 0), successes);
    EndNeedsAllPages(stages, 0, Sum(successes));
    assert stages[0..] == stages;
    store, fetched, calls := r.store, r.fetched, r.calls;
    FetchedPrefix(stages, p);
    if ok {
      EndIsAllDone(stages, store, fetched);
    }
  }
}
