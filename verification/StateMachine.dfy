// The connection lifecycle: its transition table and the machine that
// validates and records every change.
module StateMachine {
  datatype State =
    | Stopped
    | Starting
    | Connecting
    | Authenticating
    | Syncing
    | Online
    | Degraded
    | Reconnecting
    | Error
    | Stopping

  // The legal transitions from each state.
  function Table(s: State): seq<State> {
    match s
    case Stopped => [Starting, Stopping]
    case Starting => [Connecting, Stopping, Error]
    case Connecting => [Authenticating, Reconnecting, Stopping, Error]
    case Authenticating => [Syncing, Online, Reconnecting, Stopping, Error]
    case Syncing => [Online, Degraded, Reconnecting, Stopping, Error]
    case Online => [Degraded, Reconnecting, Syncing, Stopping, Error]
    case Degraded => [Online, Reconnecting, Syncing, Stopping, Error]
    case Reconnecting => [Connecting, Authenticating, Stopping, Error]
    case Error => [Reconnecting, Starting, Stopping, Stopped]
    case Stopping => [Stopped]
  }

  predicate Can(from: State, to: State) {
    to == from || to in Table(from)
  }

  // The state after Move(to), legal or not.
  function Moved(from: State, to: State): State {
    if Can(from, to) then to else from
  }

  datatype Transition = Transition(from: State, to: State, reason: string)

  // Requests a machine can get, and the transitions they cause in all.
  datatype Request = Move(to: State, reason: string) | Force(to: State, reason: string)

  function Target(s: State, r: Request): State {
    match r
    case Move(to, _) => Moved(s, to)
    case Force(to, _) => to
  }

  function Caused(s: State, r: Request): seq<Transition> {
    if Target(s, r) == s then []
    else [Transition(s, r.to, if r.Force? then "!" + r.reason else r.reason)]
  }

  function StateAfter(s: State, rs: seq<Request>): State
    decreases |rs|
  {
    if rs == [] then s else StateAfter(Target(s, rs[0]), rs[1..])
  }

  function Journal(s: State, rs: seq<Request>): seq<Transition>
    decreases |rs|
  {
    if rs == [] then [] else Caused(s, rs[0]) + Journal(Target(s, rs[0]), rs[1..])
  }

  const MAX_HISTORY := 64

  // The most recent entries the machine keeps.
  function Recent(all: seq<Transition>): seq<Transition> {
    if |all| > MAX_HISTORY then all[|all| - MAX_HISTORY..] else all
  }

  function Record(history: seq<Transition>, s: State, r: Request): seq<Transition> {
    Recent(history + Caused(s, r))
  }

  function HistoryAfter(s: State, history: seq<Transition>, rs: seq<Request>): seq<Transition>
    decreases |rs|
  {
    if rs == [] then history else HistoryAfter(Target(s, rs[0]), Record(history, s, rs[0]), rs[1..])
  }

  // A sequence of transitions that lead from one state to another, each into
  // the next, legal unless marked as forced.
  ghost predicate Path(from: State, ts: seq<Transition>, to: State)
    decreases |ts|
  {
    if ts == [] then from == to
    else
      && ts[0].from == from != ts[0].to
      && (Can(from, ts[0].to) || "!" <= ts[0].reason)
      && Path(ts[0].to, ts[1..], to)
  }

  lemma {:induction false} RecentOfRecent(a: seq<Transition>, b: seq<Transition>)
    ensures Recent(Recent(a) + b) == Recent(a + b)
  {
  }

  // Trimming at every step keeps exactly the last 64 of all transitions made.
  lemma {:induction false} HistoryIsRecentJournal(s: State, before: seq<Transition>, rs: seq<Request>)
    ensures HistoryAfter(s, Recent(before), rs) == Recent(before + Journal(s, rs))
    decreases |rs|
  {
    hide Recent, Caused, Target;
    if rs == [] {
      assert before + [] == before;
    } else {
      RecentOfRecent(before, Caused(s, rs[0]));
      var t := Target(s, rs[0]);
      HistoryIsRecentJournal(t, before + Caused(s, rs[0]), rs[1..]);
      assert Record(Recent(before), s, rs[0]) == Recent(before + Caused(s, rs[0]));
      assert before + Caused(s, rs[0]) + Journal(t, rs[1..]) == before + (Caused(s, rs[0]) + Journal(t, rs[1..]));
    }
  }

  // All transitions made form one connected path to the present state.
  lemma {:induction false} JournalIsPath(s: State, rs: seq<Request>)
    ensures Path(s, Journal(s, rs), StateAfter(s, rs))
    decreases |rs|
  {
    if rs != [] {
      var t := Target(s, rs[0]);
      JournalIsPath(t, rs[1..]);
      if t != s {
        assert Journal(s, rs)[1..] == Journal(t, rs[1..]);
      } else {
        assert Journal(s, rs) == Journal(t, rs[1..]);
      }
    }
  }

  lemma {:induction false} PathTail(from: State, ts: seq<Transition>, to: State, k: nat)
    requires Path(from, ts, to) && k < |ts|
    ensures Path(ts[k].from, ts[k..], to)
    decreases k
  {
    if k > 0 {
      PathTail(ts[0].to, ts[1..], to, k - 1);
      assert ts[1..][k - 1..] == ts[k..];
    } else {
      assert ts[0..] == ts;
    }
  }

  // After any requests, the kept history holds at most 64 entries and is a
  // connected path of legal or forced transitions that ends in the present
  // state.
  lemma HistoryLeadsToState(rs: seq<Request>)
    ensures var h := HistoryAfter(Stopped, [], rs);
            && |h| <= MAX_HISTORY
            && (h == [] ==> StateAfter(Stopped, rs) == Stopped)
            && (h != [] ==> Path(h[0].from, h, StateAfter(Stopped, rs)))
  {
    HistoryIsRecentJournal(Stopped, [], rs);
    JournalIsPath(Stopped, rs);
    assert Recent([]) == [];
    hide HistoryAfter, Journal, StateAfter, Path, Recent;
    assert [] + Journal(Stopped, rs) == Journal(Stopped, rs);
    RecentIsPath(Stopped, Journal(Stopped, rs), StateAfter(Stopped, rs));
  }

  lemma RecentIsPath(from: State, all: seq<Transition>, to: State)
    requires Path(from, all, to)
    ensures |Recent(all)| <= MAX_HISTORY
    ensures Recent(all) == [] ==> to == from
    ensures Recent(all) != [] ==> Path(Recent(all)[0].from, Recent(all), to)
  {
    hide Can;
    if all != [] {
      PathTail(from, all, to, if |all| > MAX_HISTORY then |all| - MAX_HISTORY else 0);
      hide Path;
      assert all[0..] == all;
    }
  }

  // The only ways out of the two shutdown states.
  lemma ShutdownExits(s: State, to: State)
    requires s == Stopping || s == Stopped
    ensures Moved(s, to) == Stopping || Moved(s, to) == Stopped || (s == Stopped && to == Starting)
    ensures Moved(s, Stopped) == Stopped
  {
  }

  class Machine {
    var state: State
    var history: seq<Transition>

    predicate Valid()
      reads this
    {
      |history| <= MAX_HISTORY
    }

    constructor ()
      ensures Valid() && state == Stopped && history == []
    {
      state, history := Stopped, [];
    }

    method CanMove(to: State) returns (ok: bool)
      ensures ok == Can(state, to)
    {
      hide Table;
      if to == state {
        return true;
      }
      var legal := Table(state);
      for i := 0 to |legal|
        invariant to !in legal[..i]
      {
        if legal[i] == to {
          return true;
        }
      }
      assert legal[..|legal|] == legal;
      return false;
    }

    method Apply(to: State, reason: string, forced: bool)
      requires Valid()
      modifies this
      ensures Valid() && state == to
      ensures history == Recent(old(history) + if old(state) == to then []
                                               else [Transition(old(state), to, if forced then "!" + reason else reason)])
    {
      assert history + [] == history;
      if state == to {
        return;
      }
      var tr := Transition(state, to, if forced then "!" + reason else reason);
      state := to;
      history := history + [tr];
      if |history| > MAX_HISTORY {
        history := history[|history| - MAX_HISTORY..];
      }
    }

    // Move refuses exactly the illegal transitions and then changes nothing.
    method Move(to: State, reason: string) returns (ok: bool)
      requires Valid()
      modifies this
      ensures ok == Can(old(state), to)
      ensures state == Target(old(state), Request.Move(to, reason))
      ensures history == Record(old(history), old(state), Request.Move(to, reason))
      ensures Valid()
    {
      hide Can;
      ok := CanMove(to);
      if ok {
        Apply(to, reason, false);
      }
      assert old(history) + [] == old(history);
    }

    method Force(to: State, reason: string)
      requires Valid()
      modifies this
      ensures state == Target(old(state), Request.Force(to, reason))
      ensures history == Record(old(history), old(state), Request.Force(to, reason))
      ensures Valid()
    {
      Apply(to, reason, true);
      assert old(history) + [] == old(history);
    }
  }
}
