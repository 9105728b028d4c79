/** The guard around the super-admin page. */
module AdminRoute {
  import opened Wrappers
  import opened AuthContext

  /** What the guard does: redirect to the sign-in page, redirect to the notes, or render the
      guarded page. */
  datatype Guard = ToLogin | ToNotes | Render

  /** The guard for a session flag `isAuthenticated` and a context value `isAdmin`, which is
      `None` when the context does not provide it (`undefined`, which is falsy). */
  function Decide(isAuthenticated: bool, isAdmin: Option<bool>): (g: Guard)
    ensures !isAuthenticated <==> g == ToLogin
    ensures isAuthenticated && !(isAdmin == Some(true)) <==> g == ToNotes
    ensures g == Render <==> isAuthenticated && isAdmin == Some(true)
  {
    if !isAuthenticated then ToLogin
    else if !(isAdmin == Some(true)) then ToNotes
    else Render
  }

  /** The context value has no `isAdmin` entry, so the guard reads `undefined` and never
      renders: every signed-in user is sent to the notes. */
  lemma NeverRenders(isAuthenticated: bool)
    ensures "isAdmin" !in ContextKeys
    ensures Decide(isAuthenticated, None) == if isAuthenticated then ToNotes else ToLogin
  {
  }
}
