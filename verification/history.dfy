/**
 * Conversation turns and the context-pinning window applied to a session's
 * log before it is posted upstream: a log longer than twelve turns is sent as
 * its first two turns followed by its last ten; a shorter log is sent whole.
 */
module History {
  import opened JsonValues

  datatype Role = User | Assistant

  /** One `{"role": ..., "content": ...}` entry of a session log. */
  datatype Turn = Turn(role: Role, content: Json)

  function UserTurn(message: string): Turn {
    Turn(User, JStr(message))
  }

  function AssistantTurn(reply: Json): Turn {
    Turn(Assistant, reply)
  }

  /** Number of earliest turns pinned in every window. */
  const Pinned: nat := 2
  /** Number of most recent turns kept in a window. */
  const Recent: nat := 10
  /** Longest window ever sent. */
  const Limit: nat := Pinned + Recent

  /** The outbound payload for a log: `history[:2] + history[-10:]` once the log exceeds twelve turns. */
  function Window(log: seq<Turn>): (w: seq<Turn>)
    ensures |w| == if |log| <= Limit then |log| else Limit
    ensures |log| <= Limit ==> w == log
    ensures |log| > Limit ==> forall i :: 0 <= i < Pinned ==> w[i] == log[i]
    ensures |log| > Limit ==> forall i :: Pinned <= i < Limit ==> w[i] == log[|log| - Limit + i]
    ensures |log| > 0 ==> w[|w| - 1] == log[|log| - 1]
  {
    if |log| > Limit then log[..Pinned] + log[|log| - Recent..] else log
  }

  /** The positions of a log of length `n` that its window keeps, in increasing order. */
  function Kept(n: nat): (idx: seq<nat>)
    ensures |idx| == if n <= Limit then n else Limit
    ensures forall k :: 0 <= k < |idx| ==> idx[k] < n
    ensures forall j, k :: 0 <= j < k < |idx| ==> idx[j] < idx[k]
  {
    if n <= Limit then seq(n, i => i)
    else seq(Pinned, i => i) + seq(Recent, i => n - Recent + i)
  }

  /** The entries of `log` at the given positions, in the order given. */
  function Pick(log: seq<Turn>, idx: seq<nat>): (r: seq<Turn>)
    requires forall k :: 0 <= k < |idx| ==> idx[k] < |log|
    ensures |r| == |idx|
    ensures forall k :: 0 <= k < |r| ==> r[k] == log[idx[k]]
    decreases |idx|
  {
    if idx == [] then [] else [log[idx[0]]] + Pick(log, idx[1..])
  }

  /**
   * The window is a subsequence of the log: it takes the turns at strictly
   * increasing positions, so order is kept and no turn is sent twice, and
   * those positions are the first two and the last ten.
   */
  lemma WindowIsSubsequence(log: seq<Turn>)
    ensures Window(log) == Pick(log, Kept(|log|))
  {
    var idx := Kept(|log|);
    var w, p := Window(log), Pick(log, idx);
    forall k | 0 <= k < |w| ensures w[k] == p[k] {
      WindowAt(log, k);
    }
  }

  /** The `k`-th turn of the window is the turn at the `k`-th kept position. */
  lemma WindowAt(log: seq<Turn>, k: nat)
    requires k < |Window(log)|
    ensures k < |Kept(|log|)| && Window(log)[k] == log[Kept(|log|)[k]]
  {
    KeptAt(|log|, k);
  }

  /** Which position of the log the `k`-th turn of the window comes from. */
  lemma KeptAt(n: nat, k: nat)
    requires k < |Kept(n)|
    ensures Kept(n)[k] == if n <= Limit || k < Pinned then k else n - Limit + k
  {
  }

  /**
   * The two pinned turns never move: once a log holds two turns, every window
   * of any log that extends it starts with those same two turns.
   */
  lemma PinnedTurnsStable(log: seq<Turn>, later: seq<Turn>)
    requires |log| >= Pinned
    ensures Window(log + later)[..Pinned] == log[..Pinned]
  {
    var w := Window(log + later);
    forall k | 0 <= k < Pinned ensures w[k] == log[k] {
    }
  }
}
