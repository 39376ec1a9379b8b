/**
 * The error boundary (src/components/ErrorBoundary.tsx): a component whose
 * state says whether a descendant has thrown, and which renders either its
 * children or a fallback accordingly.
 */
module Boundary {
  import opened Values

  /** A rendered tree, known only by a label. */
  type ReactNode = string

  /** A thrown error, known only by its message. */
  type Error = string

  /** The component's props; a `fallback` that is absent or falsy is None. */
  datatype Props = Props(children: ReactNode, fallback: Option<ReactNode>)

  /** The component's `state`. */
  datatype BoundaryState = BoundaryState(hasError: bool, error: Option<Error>)

  /** What `render` returns: the children, the `fallback` prop, or the built-in error panel with its retry button. */
  datatype View = Children(children: ReactNode) | Fallback(fallback: ReactNode) | ErrorPanel

  const InitialState: BoundaryState := BoundaryState(false, None)

  /** The state the boundary takes on once `error` has been caught. */
  function GetDerivedStateFromError(error: Error): (st: BoundaryState)
    ensures st.hasError && st.error == Some(error)
  {
    BoundaryState(true, Some(error))
  }

  /** `this.setState({ hasError: false })`: a shallow merge, so the recorded error is kept. */
  function AfterRetry(st: BoundaryState): (r: BoundaryState)
    ensures !r.hasError && r.error == st.error
  {
    st.(hasError := false)
  }

  /** `render`: the children exactly when no error is recorded. */
  function Render(st: BoundaryState, props: Props): (v: View)
    ensures v == Children(props.children) <==> !st.hasError
    ensures st.hasError && props.fallback.Some? ==> v == Fallback(props.fallback.value)
    ensures st.hasError && props.fallback.None? ==> v == ErrorPanel
  {
    if st.hasError then
      if props.fallback.Some? then Fallback(props.fallback.value) else ErrorPanel
    else
      Children(props.children)
  }

  /** The retry button is on screen only in the built-in panel, that is, after an error and without a fallback prop. */
  lemma RetryOnlyOnPanel(st: BoundaryState, props: Props)
    ensures Render(st, props) == ErrorPanel <==> st.hasError && props.fallback.None?
  {
  }

  /** Whatever the state before, an error makes the boundary stop rendering its children. */
  lemma ErrorHidesChildren(props: Props, error: Error)
    ensures Render(GetDerivedStateFromError(error), props) != Children(props.children)
  {
  }

  /** Retrying after an error brings the children back. */
  lemma RetryRestoresChildren(props: Props, error: Error)
    ensures Render(AfterRetry(GetDerivedStateFromError(error)), props) == Children(props.children)
  {
  }

  /** The mounted boundary: its props and its `state` field. */
  class ErrorBoundary {
    const props: Props
    var state: BoundaryState

    constructor (props: Props)
      ensures this.props == props && state == InitialState
      ensures !state.hasError
    {
      this.props := props;
      state := InitialState;
    }

    /** A descendant threw: React merges the derived state into `state`. */
    method CatchError(error: Error)
      modifies this
      ensures state == GetDerivedStateFromError(error)
      ensures state.hasError && state.error == Some(error)
    {
      state := GetDerivedStateFromError(error);
    }

    /** The retry button's click handler. */
    method Retry()
      modifies this
      ensures state == AfterRetry(old(state))
      ensures !state.hasError
    {
      state := state.(hasError := false);
    }

    /** `render()` on the current state and props. */
    function RenderNow(): (v: View)
      reads this
      ensures v == Children(props.children) <==> !state.hasError
      ensures state.hasError ==> v == if props.fallback.Some? then Fallback(props.fallback.value) else ErrorPanel
    {
      Render(state, props)
    }
  }
}
