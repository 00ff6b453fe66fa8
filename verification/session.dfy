/**
 * The per-session conversation memory of the `/chat` endpoint: a store that
 * maps each session id to its log of turns, created lazily, extended by the
 * user's turn before the upstream call, and then either committed (the
 * assistant's turn is appended) or rolled back (the user's turn is popped),
 * unless the request is cancelled while it awaits the call.
 */
module Session {
  import opened Wrappers
  import opened JsonValues
  import opened History
  import opened Reply
  import Digits

  /**
   * The log of a session after one exchange that started from `log`. A
   * cancelled exchange leaves the user's turn in place: neither the commit
   * nor the rollback runs.
   */
  function Exchanged(log: seq<Turn>, message: string, outcome: Outcome): (r: seq<Turn>)
    ensures Commits(outcome) ==>
              |r| == |log| + 2 && r[..|log|] == log &&
              r[|log|] == UserTurn(message) && r[|log| + 1] == AssistantTurn(Resolve(outcome).value)
    ensures RollsBack(outcome) ==> r == log
    ensures outcome.Cancelled? ==> |r| == |log| + 1 && r[..|log|] == log && r[|log|] == UserTurn(message)
  {
    if outcome.Cancelled? then log + [UserTurn(message)]
    else
      match Resolve(outcome)
      case Success(reply) => log + [UserTurn(message), AssistantTurn(reply)]
      case Failure(_) => log
  }

  /** One call of the endpoint on a given session. */
  datatype Request = Request(message: string, outcome: Outcome)

  /** The log after a series of exchanges on one session, in order. */
  function Replay(log: seq<Turn>, requests: seq<Request>): seq<Turn>
    decreases |requests|
  {
    if requests == [] then log
    else Replay(Exchanged(log, requests[0].message, requests[0].outcome), requests[1..])
  }

  /** How many of the requests end with a committed reply. */
  function Successes(requests: seq<Request>): (n: nat)
    ensures n <= |requests|
    decreases |requests|
  {
    if requests == [] then 0
    else (if Commits(requests[0].outcome) then 1 else 0) + Successes(requests[1..])
  }

  /**
   * How many of the requests were cancelled while awaiting the upstream call;
   * a request is never both committed and cancelled.
   */
  function Cancellations(requests: seq<Request>): (n: nat)
    ensures n + Successes(requests) <= |requests|
    decreases |requests|
  {
    if requests == [] then 0
    else (if requests[0].outcome.Cancelled? then 1 else 0) + Cancellations(requests[1..])
  }

  /**
   * A series of exchanges only ever adds to the log: the old log stays as a
   * prefix, each successful exchange adds exactly two turns, each failed one
   * adds none, and each cancelled one leaves its user turn behind.
   */
  lemma {:induction false} ReplayGrowth(log: seq<Turn>, requests: seq<Request>)
    ensures |Replay(log, requests)| == |log| + 2 * Successes(requests) + Cancellations(requests)
    ensures Replay(log, requests)[..|log|] == log
    decreases |requests|
  {
    if requests != [] {
      var next := Exchanged(log, requests[0].message, requests[0].outcome);
      ReplayGrowth(next, requests[1..]);
      assert Replay(log, requests)[..|log|] == Replay(next, requests[1..])[..|next|][..|log|];
    }
  }

  /** Failed exchanges leave no trace, however many there are. */
  lemma {:induction false} FailuresLeaveNoTrace(log: seq<Turn>, requests: seq<Request>)
    requires forall k :: 0 <= k < |requests| ==> RollsBack(requests[k].outcome)
    ensures Replay(log, requests) == log
    decreases |requests|
  {
    if requests != [] {
      FailuresLeaveNoTrace(log, requests[1..]);
    }
  }

  /**
   * A fresh session after three successful exchanges holds six turns, and the
   * next payload, built after the fourth message is appended, is that whole
   * seven-turn log.
   */
  lemma ThreeExchangesFromFresh(requests: seq<Request>, next: string)
    requires |requests| == 3 && Successes(requests) == 3
    ensures |Replay([], requests)| == 6
    ensures Window(Replay([], requests) + [UserTurn(next)]) == Replay([], requests) + [UserTurn(next)]
  {
    ReplayGrowth([], requests);
    assert Cancellations(requests) == 0;
  }

  /**
   * A session holding 14 turns grows to 16 after a successful exchange; the
   * payload of the following call (17 turns once that message is appended)
   * is the first two turns followed by the last ten, which include the whole
   * previous exchange and the new message.
   */
  lemma LongSessionKeepsLatestExchange(log: seq<Turn>, message: string, outcome: Outcome, next: string)
    requires |log| == 14 && Commits(outcome)
    ensures |Exchanged(log, message, outcome)| == 16
    ensures var w := Window(Exchanged(log, message, outcome) + [UserTurn(next)]);
            |w| == 12 && w[..2] == log[..2] &&
            w[9] == UserTurn(message) && w[10] == AssistantTurn(Resolve(outcome).value) &&
            w[11] == UserTurn(next)
  {
    var after := Exchanged(log, message, outcome) + [UserTurn(next)];
    var w := Window(after);
    assert w[0] == log[0] && w[1] == log[1];
    assert w[9] == after[14] && w[10] == after[15] && w[11] == after[16];
  }

  /**
   * The payload is built after the user's turn is appended, so it always ends
   * with that turn and never exceeds twelve turns.
   */
  lemma PayloadEndsWithMessage(log: seq<Turn>, message: string)
    ensures var w := Window(log + [UserTurn(message)]);
            0 < |w| <= Limit && w[|w| - 1] == UserTurn(message)
  {
  }

  /** A 500 response is reported with its code and leaves the log as it was. */
  lemma ServerErrorScenario(log: seq<Turn>, message: string, body: Result<Json, string>)
    ensures ReplyValue(Resolve(Response(500, body))) == JStr("**Error " + "500" + ":** Unable to fetch data.")
    ensures Exchanged(log, message, Response(500, body)) == log
  {
    PrintsFiveHundred();
  }

  /** `str(500)` is "500". */
  lemma PrintsFiveHundred()
    ensures Digits.Decimal(500) == "500"
  {
    assert Digits.DigitChar(5) == '5' && Digits.DigitChar(0) == '0';
    assert Digits.NatDigits(5) == "5";
    assert Digits.NatDigits(50) == "5" + "0";
    assert Digits.NatDigits(500) == "50" + "0";
  }

  /** The in-memory session store (`session_storage`) and the chat exchange that updates it. */
  class SessionStore {
    var sessions: map<string, seq<Turn>>

    constructor ()
      ensures sessions == map[]
    {
      sessions := map[];
    }

    /** The stored log of a session; an unseen id has none yet. */
    function LogOf(sessionId: string): seq<Turn>
      reads this
    {
      if sessionId in sessions then sessions[sessionId] else []
    }

    /** `session_storage[session_id].append(turn)` on an existing entry. */
    method AppendTurn(sessionId: string, turn: Turn)
      requires sessionId in sessions
      modifies this
      ensures sessions == old(sessions)[sessionId := old(sessions[sessionId]) + [turn]]
    {
      sessions := sessions[sessionId := sessions[sessionId] + [turn]];
    }

    /** Creates an empty log for an unseen id, then appends the user's turn to the session's log. */
    method RecordUserTurn(sessionId: string, message: string)
      modifies this
      ensures sessions == old(sessions)[sessionId := old(LogOf(sessionId)) + [UserTurn(message)]]
    {
      if sessionId !in sessions {
        sessions := sessions[sessionId := []];
      }
      AppendTurn(sessionId, UserTurn(message));
    }

    /** `session_storage[session_id].pop()` on a non-empty entry. */
    method PopTurn(sessionId: string) returns (popped: Turn)
      requires sessionId in sessions && |sessions[sessionId]| > 0
      modifies this
      ensures sessionId in sessions && old(sessions[sessionId]) == sessions[sessionId] + [popped]
      ensures sessions == old(sessions)[sessionId := old(sessions[sessionId])[..|old(sessions[sessionId])| - 1]]
    {
      var log := sessions[sessionId];
      popped := log[|log| - 1];
      sessions := sessions[sessionId := log[..|log| - 1]];
    }

    /**
     * The part of a `/chat` request after the upstream call returned or
     * raised one of the caught exceptions: on a usable 200 response the
     * assistant's turn is appended, otherwise the session's last turn (the
     * user's, appended on top of `before`) is popped. Returns the `reply` value.
     */
    method Settle(sessionId: string, ghost before: seq<Turn>, message: string, outcome: Outcome)
      returns (reply: Json)
      requires sessionId in sessions && sessions[sessionId] == before + [UserTurn(message)]
      requires !outcome.Cancelled?
      modifies this
      ensures sessions == old(sessions)[sessionId := Exchanged(before, message, outcome)]
      ensures reply == ReplyValue(Resolve(outcome))
    {
      // The status check, `response.json()` and reply extraction (main.py:112-119)
      // are folded into Resolve; a Failure is one of the three caught paths.
      match Resolve(outcome) {
        case Success(botReply) =>
          AppendTurn(sessionId, AssistantTurn(botReply));
          assert before + [UserTurn(message)] + [AssistantTurn(botReply)]
              == before + [UserTurn(message), AssistantTurn(botReply)];
          reply := botReply;
        case Failure(failure) =>
          var _ := PopTurn(sessionId);
          assert (before + [UserTurn(message)])[..|before|] == before;
          reply := JStr(ErrorText(failure));
      }
    }

    /**
     * One `/chat` request: make sure the session has a log, append the user's
     * turn, build the payload from the log, then commit the assistant's turn
     * on a usable 200 response or pop the user's turn on every caught error.
     * Returns the payload that is posted upstream and the `reply` value; a
     * cancelled request returns no reply and leaves its user turn behind.
     */
    method ChatExchange(sessionId: string, message: string, outcome: Outcome)
      returns (payload: seq<Turn>, reply: Option<Json>)
      modifies this
      ensures sessions == old(sessions)[sessionId := Exchanged(old(LogOf(sessionId)), message, outcome)]
      ensures payload == Window(old(LogOf(sessionId)) + [UserTurn(message)])
      ensures outcome.Cancelled? ==> reply == None
      ensures !outcome.Cancelled? ==> reply == Some(ReplyValue(Resolve(outcome)))
    {
      ghost var before := LogOf(sessionId);
      RecordUserTurn(sessionId, message);
      var history := sessions[sessionId];
      payload := Window(history);

      if outcome.Cancelled? {
        // The CancelledError propagates out of the handler past both `except` clauses.
        assert Exchanged(before, message, outcome) == before + [UserTurn(message)];
        reply := None;
        return;
      }
      var answer := Settle(sessionId, before, message, outcome);
      reply := Some(answer);
    }
  }
}
