/** The human-in-the-loop action panel. A click records the action as
    executing and arms a 1500 ms timer; when the timer fires the parent's
    `onAction` is called with that action and the panel is free again. Only
    the "Mark False Positive" button (action `ignore`) is rendered, and it is
    disabled while an action is executing, so a disabled button delivers no
    click. */
module ActionControlPanel {
  import opened Wrappers

  const Ignore: string := "ignore"

  class Panel {
    var executingState: Option<string>
    /** Armed timers, each holding the action it will report. */
    var timers: seq<string>
    /** The `onAction` calls made so far, oldest first. */
    var calls: seq<string>

    /** Every action that can be pending or reported is `ignore`. */
    predicate OnlyIgnore()
      reads this
    {
      (forall i :: 0 <= i < |timers| ==> timers[i] == Ignore)
      && (forall i :: 0 <= i < |calls| ==> calls[i] == Ignore)
      && (executingState.Some? ==> executingState.value == Ignore)
    }

    constructor ()
      ensures executingState.None? && timers == [] && calls == []
      ensures OnlyIgnore()
    {
      executingState := None;
      timers := [];
      calls := [];
    }

    /** `disabled={!!executingState}`. */
    function Disabled(): (d: bool)
      reads this
      ensures d <==> executingState.Some?
    {
      executingState.Some?
    }

    /** `handleAction(actionType)`. */
    method HandleAction(actionType: string)
      modifies this
      ensures executingState == Some(actionType) && timers == old(timers) + [actionType]
      ensures calls == old(calls)
    {
      executingState := Some(actionType);
      timers := timers + [actionType];
    }

    /** A click on "Mark False Positive"; nothing happens while it is disabled. */
    method ClickMarkFalsePositive()
      requires OnlyIgnore()
      modifies this
      ensures OnlyIgnore()
      ensures old(Disabled()) ==> executingState == old(executingState) && timers == old(timers) && calls == old(calls)
      ensures !old(Disabled()) ==> executingState == Some(Ignore) && timers == old(timers) + [Ignore]
      ensures calls == old(calls)
    {
      if !Disabled() {
        HandleAction(Ignore);
      }
    }

    /** Timer `i` fires: the parent hears its action and the panel is freed. */
    method TimerFired(i: int) returns (reported: string)
      requires 0 <= i < |timers|
      requires OnlyIgnore()
      modifies this
      ensures OnlyIgnore()
      ensures reported == old(timers[i]) && reported == Ignore
      ensures calls == old(calls) + [reported]
      ensures timers == old(timers[..i] + timers[i + 1..])
      ensures executingState.None?
    {
      reported := timers[i];
      calls := calls + [reported];
      timers := timers[..i] + timers[i + 1..];
      executingState := None;
    }
  }

  /** One click, the timer, then the button is usable again; a second click
      while busy is swallowed, so only one action is reported. */
  method DoubleClickReportsOnce() returns (calls: seq<string>, disabledAfter: bool)
    ensures calls == [Ignore] && !disabledAfter
  {
    var p := new Panel();
    p.ClickMarkFalsePositive();
    p.ClickMarkFalsePositive();
    var r := p.TimerFired(0);
    calls, disabledAfter := p.calls, p.Disabled();
  }
}
