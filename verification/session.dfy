/**
 * The session's activity event log, the collaborator that the help command
 * reports its lifecycle to. Only the two operations the help command calls are
 * modelled; timestamps and the rest of the session are not part of this model.
 */
module SessionLog {

  /** The kind tag of an activity. Only the help activity is visible here. */
  datatype ActivityKind = Help | Other(name: string)

  /** The outcome code carried by an end event. */
  datatype ExitCode = Success | NonSuccess

  /** One lifecycle event: an activity started, or ended with an outcome. */
  datatype Event = Start(kind: ActivityKind) | End(kind: ActivityKind, code: ExitCode)

  /** Number of start events of `kind` in `events`. */
  ghost function Starts(events: seq<Event>, kind: ActivityKind): nat
  {
    if events == [] then 0
    else (if events[0] == Start(kind) then 1 else 0) + Starts(events[1..], kind)
  }

  /** Number of end events of `kind` in `events`, whatever their outcome. */
  ghost function Ends(events: seq<Event>, kind: ActivityKind): nat
  {
    if events == [] then 0
    else (if events[0].End? && events[0].kind == kind then 1 else 0) + Ends(events[1..], kind)
  }

  /** No prefix of the log has ended an activity kind more often than it started it. */
  ghost predicate NoEarlyEnd(events: seq<Event>)
  {
    forall i, kind :: 0 <= i <= |events| ==> Ends(events[..i], kind) <= Starts(events[..i], kind)
  }

  /**
   * Every end follows a start of its kind, and every kind of activity has been
   * ended as many times as it was started.
   */
  ghost predicate Balanced(events: seq<Event>)
  {
    NoEarlyEnd(events) && forall kind :: Starts(events, kind) == Ends(events, kind)
  }

  /** An end recorded before its start is not balanced, although the counts agree. */
  lemma EndBeforeStartUnbalanced(code: ExitCode)
    ensures !Balanced([End(Help, code), Start(Help)])
  {
    var log := [End(Help, code), Start(Help)];
    assert log[..1] == [End(Help, code)];
    assert log[..1][1..] == [];
    assert Ends(log[..1], Help) == 1 && Starts(log[..1], Help) == 0;
  }

  /** Counting start events distributes over concatenation of logs. */
  lemma {:induction false} StartsAppend(s: seq<Event>, t: seq<Event>, kind: ActivityKind)
    ensures Starts(s + t, kind) == Starts(s, kind) + Starts(t, kind)
  {
    if s != [] {
      assert (s + t)[1..] == s[1..] + t;
      StartsAppend(s[1..], t, kind);
    } else {
      assert s + t == t;
    }
  }

  /** Counting end events distributes over concatenation of logs. */
  lemma {:induction false} EndsAppend(s: seq<Event>, t: seq<Event>, kind: ActivityKind)
    ensures Ends(s + t, kind) == Ends(s, kind) + Ends(t, kind)
  {
    if s != [] {
      assert (s + t)[1..] == s[1..] + t;
      EndsAppend(s[1..], t, kind);
    } else {
      assert s + t == t;
    }
  }

  /**
   * Appending a start of `kind` followed by an end of `kind` adds one start and
   * one end of `kind` and leaves every other kind's counts unchanged, so a
   * balanced log stays balanced.
   */
  lemma PairKeepsBalance(log: seq<Event>, kind: ActivityKind, code: ExitCode)
    ensures forall k :: Starts(log + [Start(kind), End(kind, code)], k)
                        == Starts(log, k) + (if k == kind then 1 else 0)
    ensures forall k :: Ends(log + [Start(kind), End(kind, code)], k)
                        == Ends(log, k) + (if k == kind then 1 else 0)
    ensures Balanced(log) ==> Balanced(log + [Start(kind), End(kind, code)])
  {
    var pair := [Start(kind), End(kind, code)];
    forall k
      ensures Starts(log + pair, k) == Starts(log, k) + (if k == kind then 1 else 0)
      ensures Ends(log + pair, k) == Ends(log, k) + (if k == kind then 1 else 0)
    {
      StartsAppend(log, pair, k);
      EndsAppend(log, pair, k);
      assert pair[1..] == [End(kind, code)] && pair[1..][1..] == [];
      assert Starts(pair[1..], k) == 0 && Ends(pair[1..], k) == (if k == kind then 1 else 0);
      assert Starts(pair, k) == (if k == kind then 1 else 0);
      assert Ends(pair, k) == (if k == kind then 1 else 0);
    }
    if Balanced(log) {
      var full := log + pair;
      forall i, k | 0 <= i <= |full|
        ensures Ends(full[..i], k) <= Starts(full[..i], k)
      {
        if i <= |log| {
          assert full[..i] == log[..i];
        } else if i == |log| + 1 {
          assert full[..i] == log + [Start(kind)];
          StartsAppend(log, [Start(kind)], k);
          EndsAppend(log, [Start(kind)], k);
          assert [Start(kind)][1..] == [];
        } else {
          assert full[..i] == full;
        }
      }
    }
  }

  /** The session: an append-only log of activity events. */
  class Session {
    var events: seq<Event>

    constructor ()
      ensures events == []
    {
      events := [];
    }

    /** Records that an activity of `kind` started. */
    method AddEventStart(kind: ActivityKind)
      modifies this
      ensures events == old(events) + [Start(kind)]
    {
      events := events + [Start(kind)];
    }

    /** Records that an activity of `kind` ended with outcome `code`. */
    method AddEventEnd(kind: ActivityKind, code: ExitCode)
      modifies this
      ensures events == old(events) + [End(kind, code)]
    {
      events := events + [End(kind, code)];
    }
  }
}
