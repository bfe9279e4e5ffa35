/** What one iteration leaves behind: the log lines written through the
    logger and, for stating the order of the stages, the calls made to the
    collaborators (metrics fetch, forecaster, cluster, metric publisher). */
module Logs {

  datatype Level = Info | Error

  /** A call to a collaborator, with the values passed to it. */
  datatype Call =
    | FetchHistory
    | Forecast(series: seq<real>)
    | Scale(predicted: int)
    | Publish(podCount: int, predicted: int, lastMinute: int)

  datatype Event = Log(level: Level, text: string) | Called(call: Call)

  /** The calls among the events, in the order they were made. */
  function Calls(events: seq<Event>): (cs: seq<Call>)
    ensures |cs| <= |events|
  {
    if events == [] then []
    else (if events[0].Called? then [events[0].call] else []) + Calls(events[1..])
  }

  lemma {:induction false} CallsAppend(events: seq<Event>, more: seq<Event>)
    ensures Calls(events + more) == Calls(events) + Calls(more)
  {
    if events == [] {
      assert events + more == more;
    } else {
      var whole := events + more;
      assert whole[0] == events[0] && whole[1..] == events[1..] + more;
      assert Calls(whole) == (if events[0].Called? then [events[0].call] else []) + Calls(whole[1..]);
      CallsAppend(events[1..], more);
    }
  }

  /** The log: `logger.log_action` appends one line; the model also appends one
      event per collaborator call. */
  class Recorder {
    var events: seq<Event>

    constructor ()
      ensures events == []
    {
      events := [];
    }

    method LogAction(level: Level, text: string)
      modifies this
      ensures events == old(events) + [Log(level, text)]
    {
      events := events + [Log(level, text)];
    }

    method Enter(call: Call)
      modifies this
      ensures events == old(events) + [Called(call)]
    {
      events := events + [Called(call)];
    }
  }
}
