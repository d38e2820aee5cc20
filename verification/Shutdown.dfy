/** Closing: what Close has reached follows from its program counter. */
module Shutdown {
  import opened State
  import opened Steps

  ghost predicate CloseOk(s: State)
  {
    && (s.close.Open? <==> !s.closed)
    && (s.cancelled ==> s.closed)
    && (s.drained ==> s.closed && s.live == {})
    && (s.forced <==> s.close.Forcing? || s.close == Closed(false))
    && (s.close == Closed(true) ==> s.drained)
    && (forall n :: 0 <= n < |s.nodes| && s.nodes[n].ready ==>
         if !s.closed then n in s.members
         else s.nodes[n].closed || ((s.close.Cancelling? || s.close.Shutting?) && n in s.close.members))
  }
}
