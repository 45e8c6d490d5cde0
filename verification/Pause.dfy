/** Plugin.cpp: pausing the frontend, with a deadline that is only noticed when somebody asks. */
module Pause {
  import opened Strings

  // Times are in microseconds; a second clock rounds down.
  const SECOND := 1000000

  function SecondClock(now: nat): nat {
    now - now % SECOND
  }

  datatype PauseState = PauseState(paused: bool, deadline: Option<int>)

  /** A request parameter: not given, not readable (the parser throws), or a value. */
  datatype Param = Absent | Bad | Given(value: int)

  /** What a client of the admin interface may do, and when. */
  datatype Operation =
    | RequestPause(time: Param, duration: Param)
    | RequestContinue(time: Param, duration: Param)
    | IsPaused

  datatype Timed = Timed(now: nat, op: Operation)

  function PauseUntil(deadline: int): PauseState {
    PauseState(true, Some(deadline))
  }

  function AfterPause(s: PauseState, now: nat, time: Param, duration: Param): PauseState {
    if time.Given? then PauseUntil(time.value)
    else if time.Bad? then s
    else if duration.Given? then PauseUntil(SecondClock(now) + duration.value)
    else if duration.Bad? then s
    else PauseState(true, None)
  }

  /** A time alone is of no use here: the pause it sets is cleared again, unless reading the duration fails. */
  function AfterContinue(s: PauseState, now: nat, time: Param, duration: Param): PauseState {
    if time.Bad? then s
    else if duration.Given? then PauseUntil(SecondClock(now) + duration.value)
    else if duration.Bad? then if time.Given? then PauseUntil(time.value) else s
    else PauseState(false, None)
  }

  /** The answer of isPaused by the clock. */
  predicate PausedAt(s: PauseState, now: nat) {
    s.paused && (s.deadline.None? || now < s.deadline.value)
  }

  /** isPaused as it is: an expired deadline ends the pause for good. */
  function AfterQuery(s: PauseState, now: nat): PauseState {
    if s.paused && !PausedAt(s, now) then PauseState(false, None) else s
  }

  function AfterCommand(s: PauseState, t: Timed): PauseState {
    match t.op
    case RequestPause(time, duration) => AfterPause(s, t.now, time, duration)
    case RequestContinue(time, duration) => AfterContinue(s, t.now, time, duration)
    case IsPaused => s
  }

  function After(s: PauseState, t: Timed): PauseState {
    if t.op.IsPaused? then AfterQuery(s, t.now) else AfterCommand(s, t)
  }

  const RUNNING := PauseState(false, None)

  /** The state the plugin is in after these operations. */
  function Actual(ops: seq<Timed>): PauseState {
    if ops == [] then RUNNING else After(Actual(ops[..|ops| - 1]), ops[|ops| - 1])
  }

  /** The last effective command, as if nobody had ever asked. */
  function Commanded(ops: seq<Timed>): PauseState {
    if ops == [] then RUNNING else AfterCommand(Commanded(ops[..|ops| - 1]), ops[|ops| - 1])
  }

  predicate Chronological(ops: seq<Timed>, now: nat) {
    && (forall i, j :: 0 <= i < j < |ops| ==> ops[i].now <= ops[j].now)
    && (forall i :: 0 <= i < |ops| ==> ops[i].now <= now)
  }

  /** Queries change the state only after the answer had already become no for good. */
  lemma {:induction false} ActualVersusCommanded(ops: seq<Timed>, now: nat)
    requires Chronological(ops, now)
    ensures Actual(ops) == Commanded(ops)
            || (Actual(ops) == RUNNING && Commanded(ops).deadline.Some? && Commanded(ops).deadline.value <= now)
  {
    if ops != [] {
      var init, last := ops[..|ops| - 1], ops[|ops| - 1];
      ActualVersusCommanded(init, last.now);
    }
  }

  /**
   * At any time, the plugin answers whether the last effective command paused it and has no deadline
   * or one still ahead, however often and whenever it was asked before.
   */
  lemma {:induction false} LazyExpiryIsInvisible(ops: seq<Timed>, now: nat)
    requires Chronological(ops, now)
    ensures PausedAt(Actual(ops), now) <==> PausedAt(Commanded(ops), now)
  {
    ActualVersusCommanded(ops, now);
  }

  /** The plugin says yes from now until that moment, and no from then on. */
  predicate SaysYesUntil(answer: bool, later: nat, deadline: int) {
    answer <==> later < deadline
  }

  /**
   * What isPaused answers at any later time, the deadline and the times around it included, if this was
   * the last command: a deadline counts as passed as soon as it is reached, and a duration starts at the
   * full second. A command with a parameter that cannot be read leaves the answer as it was, except that
   * continuing pauses until its time before it fails on its duration.
   */
  lemma AnswerAfterCommand(ops: seq<Timed>, t: Timed, later: nat)
    requires Chronological(ops + [t], later)
    ensures
      var before, answer := PausedAt(Actual(ops), later), PausedAt(Actual(ops + [t]), later);
      match t.op
      case RequestPause(Given(x), _) => SaysYesUntil(answer, later, x)
      case RequestPause(Bad, _) => answer <==> before
      case RequestPause(Absent, Given(d)) => SaysYesUntil(answer, later, t.now - t.now % 1000000 + d)
      case RequestPause(Absent, Bad) => answer <==> before
      case RequestPause(Absent, Absent) => answer
      case RequestContinue(Bad, _) => answer <==> before
      case RequestContinue(_, Given(d)) => SaysYesUntil(answer, later, t.now - t.now % 1000000 + d)
      case RequestContinue(Given(x), Bad) => SaysYesUntil(answer, later, x)
      case RequestContinue(Absent, Bad) => answer <==> before
      case RequestContinue(_, Absent) => !answer
      case IsPaused => answer <==> before
  {
    var longer := ops + [t];
    assert longer[..|ops|] == ops && longer[|ops|] == t;
  }

  /** A plugin that was never told anything is running. */
  lemma RunsAtFirst(now: nat)
    ensures !PausedAt(Actual([]), now)
  {
  }

  function WithoutQueries(ops: seq<Timed>): seq<Timed> {
    if ops == [] then []
    else
      var init := WithoutQueries(ops[..|ops| - 1]);
      if ops[|ops| - 1].op.IsPaused? then init else init + [ops[|ops| - 1]]
  }

  lemma {:induction false} QueriesAreIgnored(ops: seq<Timed>)
    ensures Commanded(WithoutQueries(ops)) == Commanded(ops)
  {
    if ops != [] {
      QueriesAreIgnored(ops[..|ops| - 1]);
      var init := WithoutQueries(ops[..|ops| - 1]);
      assert (init + [ops[|ops| - 1]])[..|init|] == init;
    }
  }

  lemma {:induction false} WithoutQueriesChronological(ops: seq<Timed>, now: nat)
    requires Chronological(ops, now)
    ensures Chronological(WithoutQueries(ops), now) && forall t :: t in WithoutQueries(ops) ==> t in ops
  {
    if ops != [] {
      var init, last := ops[..|ops| - 1], ops[|ops| - 1];
      WithoutQueriesChronological(init, last.now);
      assert last in ops;
    }
  }

  /** Asking never changes a later answer. */
  lemma {:induction false} QueriesChangeNothing(ops: seq<Timed>, now: nat)
    requires Chronological(ops, now)
    ensures PausedAt(Actual(ops), now) <==> PausedAt(Actual(WithoutQueries(ops)), now)
  {
    WithoutQueriesChronological(ops, now);
    QueriesAreIgnored(ops);
    LazyExpiryIsInvisible(ops, now);
    LazyExpiryIsInvisible(WithoutQueries(ops), now);
  }

  /**
   * Continuing with a time takes two critical sections, and others may act in between. They are a pause
   * until that time and a continuation without it, so runs in which others do are runs of these operations.
   */
  lemma ContinueIsTwoSections(ops: seq<Timed>, now: nat, time: int, duration: Param)
    ensures Actual(ops + [Timed(now, RequestContinue(Given(time), duration))]) ==
            Actual(ops + [Timed(now, RequestPause(Given(time), Absent)), Timed(now, RequestContinue(Absent, duration))])
  {
    var pause, go := Timed(now, RequestPause(Given(time), Absent)), Timed(now, RequestContinue(Absent, duration));
    assert (ops + [pause, go])[..|ops| + 1] == ops + [pause];
    assert (ops + [pause])[..|ops|] == ops;
    assert (ops + [Timed(now, RequestContinue(Given(time), duration))])[..|ops|] == ops;
  }

  class Plugin {
    var itsPaused: bool
    var itsPauseDeadLine: Option<int>

    function View(): PauseState
      reads this
    {
      PauseState(itsPaused, itsPauseDeadLine)
    }

    constructor ()
      ensures View() == RUNNING
    {
      itsPaused, itsPauseDeadLine := false, None;
    }

    method SetPauseUntil(deadline: int)
      modifies this
      ensures View() == PauseUntil(deadline)
    {
      itsPaused := true;
      itsPauseDeadLine := Some(deadline);
    }

    /** Fails where a parameter cannot be read. */
    method DoRequestPause(now: nat, time: Param, duration: Param) returns (ok: bool)
      modifies this
      ensures View() == After(old(View()), Timed(now, RequestPause(time, duration)))
      ensures ok <==> !time.Bad? && !(time.Absent? && duration.Bad?)
    {
      if time != Absent {
        if time.Bad? {
          return false;
        }
        SetPauseUntil(time.value);
        return true;
      }
      if duration != Absent {
        if duration.Bad? {
          return false;
        }
        SetPauseUntil(SecondClock(now) + duration.value);
        return true;
      }
      itsPaused := true;
      itsPauseDeadLine := None;
      return true;
    }

    method DoRequestContinue(now: nat, time: Param, duration: Param) returns (ok: bool)
      modifies this
      ensures View() == After(old(View()), Timed(now, RequestContinue(time, duration)))
      ensures ok <==> !time.Bad? && !duration.Bad?
    {
      if time != Absent {
        if time.Bad? {
          return false;
        }
        SetPauseUntil(time.value);
      }
      if duration != Absent {
        if duration.Bad? {
          return false;
        }
        SetPauseUntil(SecondClock(now) + duration.value);
        return true;
      }
      itsPaused := false;
      itsPauseDeadLine := None;
      return true;
    }

    method DoIsPaused(now: nat) returns (paused: bool)
      modifies this
      ensures View() == After(old(View()), Timed(now, IsPaused))
      ensures paused == old(PausedAt(View(), now))
    {
      if !itsPaused {
        return false;
      }
      if itsPauseDeadLine.None? {
        return true;
      }
      if now < itsPauseDeadLine.value {
        return true;
      }
      itsPaused := false;
      itsPauseDeadLine := None;
      return false;
    }
  }
}
