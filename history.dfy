/** The conversation history: a list of `{"role": ..., "content": ...}` records. */
module History {

  datatype Role = User | Assistant

  datatype Turn = Turn(role: Role, content: string)

  /** The text stored under the record's `"role"` key. */
  function RoleName(role: Role): string {
    match role
    case User => "user"
    case Assistant => "assistant"
  }

  /** Every assistant turn answers the user turn right before it. Both routers
      keep this, whatever path a message takes and whether it raises. */
  ghost predicate WellFormed(h: seq<Turn>) {
    forall i :: 0 <= i < |h| && h[i].role == Assistant ==> 0 < i && h[i - 1].role == User
  }

  /** The history is a sequence of complete (user, assistant) exchanges. */
  ghost predicate Paired(h: seq<Turn>)
    decreases |h|
  {
    h == [] || (|h| >= 2 && h[|h| - 2].role == User && h[|h| - 1].role == Assistant && Paired(h[..|h| - 2]))
  }

  /** In a paired history, even positions hold user turns and odd positions
      assistant turns. */
  lemma {:induction false} PairedAlternates(h: seq<Turn>)
    requires Paired(h)
    ensures |h| % 2 == 0
    ensures forall i :: 0 <= i < |h| ==> h[i].role == (if i % 2 == 0 then User else Assistant)
    decreases |h|
  {
    if h != [] {
      var init := h[..|h| - 2];
      PairedAlternates(init);
      forall i | 0 <= i < |h|
        ensures h[i].role == (if i % 2 == 0 then User else Assistant)
      {
        if i < |h| - 2 {
          assert h[i] == init[i];
        }
      }
    }
  }

  /** Appending a user turn, optionally answered, keeps the history well formed. */
  lemma ExchangeKeepsWellFormed(h: seq<Turn>, user: string, answer: seq<Turn>)
    requires WellFormed(h)
    requires |answer| <= 1 && forall t :: t in answer ==> t.role == Assistant
    ensures WellFormed(h + [Turn(User, user)] + answer)
  {
    var h' := h + [Turn(User, user)] + answer;
    forall i | 0 <= i < |h'| && h'[i].role == Assistant
      ensures 0 < i && h'[i - 1].role == User
    {
      if i > |h| {
        assert answer[i - |h| - 1] in answer;
      }
    }
  }

  /** A complete exchange appended to complete exchanges leaves them complete. */
  lemma ExchangeKeepsPaired(h: seq<Turn>, user: string, reply: string)
    requires Paired(h)
    ensures Paired(h + [Turn(User, user)] + [Turn(Assistant, reply)])
  {
    assert (h + [Turn(User, user)] + [Turn(Assistant, reply)])[..|h|] == h;
  }
}
