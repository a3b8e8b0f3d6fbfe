/**
 * The UI state record of `helixflow-core/src/state.rs`: an identifier and
 * the id of the backlog currently shown, set builder-style.
 */
module UiState {
  import opened Wrappers
  import opened Entities

  /** `State`; both fields are private in the source and read through `VisibleBacklogId`. */
  datatype State = State(visibleBacklog: Option<Uuid>, id: string)

  /** `State::visible_backlog_id`: the id of the backlog currently shown, if any. */
  function VisibleBacklogId(s: State): (r: Option<Uuid>)
    ensures r == s.visibleBacklog
  {
    s.visibleBacklog
  }

  /** `State::new`: a state with the given id and, as `Default` gives, no visible backlog. */
  function NewState(id: string): (s: State)
    ensures s.id == id
    ensures VisibleBacklogId(s) == None
  {
    State(None, id)
  }

  /**
   * `State::visible_backlog`: remember `backlog` as the visible one. Only its
   * id is kept; the state's own id is untouched.
   */
  function SetVisibleBacklog(s: State, backlog: TaskList): (s': State)
    ensures s'.id == s.id
    ensures VisibleBacklogId(s') == Some(backlog.id)
  {
    s.(visibleBacklog := Some(backlog.id))
  }

  /** Setting the visible backlog twice keeps only the last one. */
  lemma LastBacklogWins(s: State, first: TaskList, second: TaskList)
    ensures SetVisibleBacklog(SetVisibleBacklog(s, first), second) == SetVisibleBacklog(s, second)
  {
  }

  /** Setting the same backlog again changes nothing. */
  lemma SetVisibleBacklogIdempotent(s: State, backlog: TaskList)
    ensures SetVisibleBacklog(SetVisibleBacklog(s, backlog), backlog) == SetVisibleBacklog(s, backlog)
  {
  }

  /** Two backlogs with the same id (whatever their names) leave the same state. */
  lemma OnlyBacklogIdMatters(s: State, a: TaskList, b: TaskList)
    requires a.id == b.id
    ensures SetVisibleBacklog(s, a) == SetVisibleBacklog(s, b)
  {
  }
}
