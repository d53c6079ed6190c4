/** Blocking pull offers: any number of offerers share a one-slot wake-up channel with the batcher.
    A step machine up to the moment the pipeline starts closing. */
module Intake {

  datatype State = State(
    cap: nat,
    buf: nat,             // records in the buffer
    token: bool,          // a wake-up is in the `space` channel
    took: bool,           // the batcher has taken a record and not yet signalled
    trying: set<nat>,     // offerers about to call tryOffer
    waiting: set<nat>,    // offerers whose tryOffer found the buffer full
    done: set<nat>)       // history: offerers whose record was accepted

  datatype Action =
    | Begin(who: nat)
    | Succeed(who: nat)
    | Fail(who: nat)
    | Wake(who: nat)
    | GiveUp(who: nat)
    | PushRecord
    | TakeRecord
    | Signal

  predicate Enabled(s: State, a: Action) {
    match a
    case Begin(i) => i !in s.trying && i !in s.waiting
    case Succeed(i) => i in s.trying && s.buf < s.cap
    case Fail(i) => i in s.trying && s.buf >= s.cap
    case Wake(i) => i in s.waiting && s.token
    case GiveUp(i) => i in s.waiting
    case PushRecord => s.buf < s.cap
    case TakeRecord => s.buf > 0 && !s.took
    case Signal => s.took
  }

  function Next(s: State, a: Action): State
    requires Enabled(s, a)
  {
    match a
    case Begin(i) => s.(trying := s.trying + {i}, done := s.done - {i})
    case Succeed(i) => s.(buf := s.buf + 1, trying := s.trying - {i}, done := s.done + {i})
    case Fail(i) => s.(trying := s.trying - {i}, waiting := s.waiting + {i})
    case Wake(i) => s.(token := false, waiting := s.waiting - {i}, trying := s.trying + {i})
    case GiveUp(i) => s.(waiting := s.waiting - {i})
    case PushRecord => s.(buf := s.buf + 1)
    case TakeRecord => s.(buf := s.buf - 1, took := true)
    case Signal => s.(token := true, took := false)
  }

  predicate Initial(s: State) {
    s.cap > 0 && s.buf == 0 && !s.token && !s.took && s.trying == {} && s.waiting == {} && s.done == {}
  }

  predicate Fires(s: State, path: seq<Action>)
    decreases |path|
  {
    path == [] || (Enabled(s, path[0]) && Fires(Next(s, path[0]), path[1..]))
  }

  function After(s: State, path: seq<Action>): State
    requires Fires(s, path)
    decreases |path|
  {
    if path == [] then s else After(Next(s, path[0]), path[1..])
  }

  /** Nobody waits without someone responsible for waking them. */
  predicate NotStranded(s: State) {
    s.waiting != {} && !s.token ==> s.buf > 0 || s.took || s.trying != {}
  }

  predicate Good(s: State) { 0 < s.cap && s.buf <= s.cap && s.trying !! s.waiting && NotStranded(s) }

  lemma StepKeeps(s: State, a: Action)
    requires Good(s) && Enabled(s, a)
    ensures Good(Next(s, a))
  {
    if a.Begin? || a.Wake? { assert a.who in Next(s, a).trying; }
  }

  /** For every interleaving of any number of offerers, push sources and the batcher. */
  lemma {:induction false} NoOfferIsStranded(s: State, path: seq<Action>)
    requires Good(s) && Fires(s, path)
    ensures Good(After(s, path))
    decreases |path|
  {
    if path != [] {
      StepKeeps(s, path[0]);
      NoOfferIsStranded(Next(s, path[0]), path[1..]);
    }
  }

  // ---------------------------------------------------------------- wake-ups are paid for

  datatype Tally = Tally(puts: nat, takes: nat, signals: nat, wakes: nat)

  function Count(path: seq<Action>): Tally {
    if path == [] then Tally(0, 0, 0, 0)
    else
      var n := Count(path[1..]);
      match path[0]
      case Succeed(_) => n.(puts := n.puts + 1)
      case PushRecord => n.(puts := n.puts + 1)
      case TakeRecord => n.(takes := n.takes + 1)
      case Signal => n.(signals := n.signals + 1)
      case Wake(_) => n.(wakes := n.wakes + 1)
      case _ => n
  }

  function One(b: bool): nat { if b then 1 else 0 }

  /** Over any interleaving the buffer holds what was put and not taken, the batcher signals once per
      record taken, and no signal wakes two offerers. */
  lemma {:induction false} WakesArePaidFor(s: State, path: seq<Action>)
    requires Fires(s, path)
    ensures var e, n := After(s, path), Count(path);
            && e.buf + n.takes == s.buf + n.puts
            && n.signals + One(e.took) == n.takes + One(s.took)
            && n.wakes + One(e.token) <= n.signals + One(s.token)
    decreases |path|
  {
    if path != [] { WakesArePaidFor(Next(s, path[0]), path[1..]); }
  }

  ghost predicate NoWake(path: seq<Action>, from: int) {
    forall j :: 0 <= j < |path| && from <= j ==> !path[j].Wake?
  }

  ghost predicate SignalLeft(path: seq<Action>, i: int) {
    0 <= i < |path| && path[i].Signal? && NoWake(path, i + 1)
  }

  ghost predicate Left(path: seq<Action>) { exists i :: SignalLeft(path, i) }

  lemma NoWakeTail(path: seq<Action>, from: nat)
    requires path != []
    ensures NoWake(path, from + 1) <==> NoWake(path[1..], from)
  {
    if NoWake(path[1..], from) {
      forall j | from + 1 <= j < |path| ensures !path[j].Wake? { assert !path[1..][j - 1].Wake?; }
    }
  }

  lemma LeftTail(path: seq<Action>)
    requires path != []
    ensures Left(path) <==> Left(path[1..]) || (path[0].Signal? && NoWake(path[1..], 0))
  {
    var rest := path[1..];
    NoWakeTail(path, 0);
    if Left(path) {
      var i :| SignalLeft(path, i);
      if i > 0 {
        NoWakeTail(path, i);
        assert SignalLeft(rest, i - 1);
      }
    }
    if Left(rest) {
      var i :| SignalLeft(rest, i);
      NoWakeTail(path, i + 1);
      assert SignalLeft(path, i + 1);
    }
    assert path[0].Signal? && NoWake(rest, 0) ==> SignalLeft(path, 0);
  }

  /** The token is there exactly if a signal was given, to a waiting offerer or ahead of one, that
      nobody has consumed. */
  lemma {:induction false} TokenIsUnusedSignal(s: State, path: seq<Action>)
    requires Fires(s, path)
    ensures After(s, path).token <==> Left(path) || (s.token && NoWake(path, 0))
    decreases |path|
  {
    if path != [] {
      TokenIsUnusedSignal(Next(s, path[0]), path[1..]);
      LeftTail(path);
      NoWakeTail(path, 0);
      hide Left;
    }
  }

  // ---------------------------------------------------------------- a waiting offer can complete

  lemma Then(s: State, a: Action, rest: seq<Action>)
    requires Enabled(s, a) && Fires(Next(s, a), rest)
    ensures Fires(s, [a] + rest) && After(s, [a] + rest) == After(Next(s, a), rest)
  {
    assert ([a] + rest)[1..] == rest;
  }

  /** Only the batcher and offerers that are already there move. */
  ghost predicate Helps(path: seq<Action>) {
    forall i :: 0 <= i < |path| ==> !path[i].Begin? && !path[i].PushRecord? && !path[i].GiveUp?
  }

  /** An awake offerer completes: at once, or after the batcher makes room. */
  lemma AwakeCompletes(s: State, w: nat) returns (path: seq<Action>)
    requires Good(s) && w in s.trying
    ensures Fires(s, path) && Helps(path) && |path| <= 3 && w in After(s, path).done
  {
    if s.buf < s.cap {
      path := [Succeed(w)];
      Then(s, Succeed(w), []);
    } else if s.took {
      var s1 := Next(s, Signal);
      path := MakeRoom(s1, w);
      Then(s, Signal, path);
      path := [Signal] + path;
    } else {
      path := MakeRoom(s, w);
    }
  }

  lemma MakeRoom(s: State, w: nat) returns (path: seq<Action>)
    requires s.cap > 0 && w in s.trying && s.buf == s.cap && !s.took
    ensures Fires(s, path) && Helps(path) && |path| == 2 && w in After(s, path).done
  {
    var s1 := Next(s, TakeRecord);
    Then(s1, Succeed(w), []);
    Then(s, TakeRecord, [Succeed(w)]);
    path := [TakeRecord] + [Succeed(w)];
  }

  lemma TokenCompletes(s: State, w: nat) returns (path: seq<Action>)
    requires Good(s) && w in s.waiting && s.token
    ensures Fires(s, path) && Helps(path) && |path| <= 4 && w in After(s, path).done
  {
    StepKeeps(s, Wake(w));
    var rest := AwakeCompletes(Next(s, Wake(w)), w);
    Then(s, Wake(w), rest);
    path := [Wake(w)] + rest;
  }

  lemma BusyCompletes(s: State, w: nat) returns (path: seq<Action>)
    requires Good(s) && w in s.waiting && (s.took || s.buf > 0)
    ensures Fires(s, path) && Helps(path) && |path| <= 6 && w in After(s, path).done
  {
    if s.took {
      StepKeeps(s, Signal);
      var rest := TokenCompletes(Next(s, Signal), w);
      Then(s, Signal, rest);
      path := [Signal] + rest;
    } else {
      var s1 := Next(s, TakeRecord);
      StepKeeps(s, TakeRecord);
      StepKeeps(s1, Signal);
      var rest := TokenCompletes(Next(s1, Signal), w);
      Then(s1, Signal, rest);
      Then(s, TakeRecord, [Signal] + rest);
      path := [TakeRecord] + ([Signal] + rest);
    }
  }

  /** From every reachable state, every waiting offerer can still get its record in within seven
      steps of the batcher and of offerers already there: no new arrival is needed. */
  lemma WaitingOfferCanComplete(s0: State, before: seq<Action>, w: nat) returns (path: seq<Action>)
    requires Initial(s0) && Fires(s0, before) && w in After(s0, before).waiting
    ensures var s := After(s0, before);
            Fires(s, path) && Helps(path) && |path| <= 7 && w in After(s, path).done
  {
    NoOfferIsStranded(s0, before);
    var s := After(s0, before);
    if s.token {
      path := TokenCompletes(s, w);
    } else if s.took || s.buf > 0 {
      path := BusyCompletes(s, w);
    } else {
      var i :| i in s.trying;
      StepKeeps(s, Succeed(i));
      var rest := BusyCompletes(Next(s, Succeed(i)), w);
      Then(s, Succeed(i), rest);
      path := [Succeed(i)] + rest;
    }
  }
}
