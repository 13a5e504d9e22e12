/** Chat turns and histories, as the pipeline stores them: each history is a
    list of `{role, content}` turns that a round extends and then edits in
    place at its last position. */
module Chat {

  datatype Option<T> = None | Some(value: T)

  datatype Role = User | Assistant

  /** One `{role, content}` entry of a history. */
  datatype Turn = Turn(role: Role, content: string)

  type History = seq<Turn>

  /** The fixed text a failing source leaves in its placeholder. */
  const ErrorMessage: string := "Model error occurred."

  /** The turn a round appends for the user's query. */
  function UserTurn(query: string): Turn
  {
    Turn(User, query)
  }

  /** The empty assistant turn a round appends and then overwrites. */
  const Placeholder: Turn := Turn(Assistant, "")

  /** `hist[-1]["content"] = text`: only the content of the last turn changes;
      its role and every earlier turn stay as they were. */
  function SetContent(h: History, text: string): (r: History)
    requires |h| > 0
    ensures |r| == |h|
    ensures r[..|h| - 1] == h[..|h| - 1]
    ensures r[|h| - 1].role == h[|h| - 1].role && r[|h| - 1].content == text
  {
    h[|h| - 1 := h[|h| - 1].(content := text)]
  }

  /** `hist[:-2]`: the history without the two turns the round appended. */
  function PriorOf(h: History): (r: History)
    requires |h| >= 2
    ensures |r| == |h| - 2 && forall k :: 0 <= k < |r| ==> r[k] == h[k]
  {
    h[..|h| - 2]
  }

  /** Slicing off the two appended turns gives back the history as it stood
      before the round. */
  lemma PriorOfPrepared(h: History, query: string)
    ensures PriorOf(h + [UserTurn(query), Placeholder]) == h
  {
    assert (h + [UserTurn(query), Placeholder])[..|h|] == h;
  }
}
