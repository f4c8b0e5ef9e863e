/** References to daemon profiles, and when one satisfies another. */
module ProfileRefs {
  import opened Text

  datatype ProfileRef = ProfileRef(id: string, name: string, username: string) {

    predicate Empty() {
      TrimSpace(id) == "" && TrimSpace(name) == "" && TrimSpace(username) == ""
    }

    /** The handle put into daemon requests: the id when there is one, else the display name. */
    function Handle(): string {
      if TrimSpace(id) != "" then TrimSpace(id) else TrimSpace(name)
    }

    predicate MatchesDesired(desired: ProfileRef) {
      && (TrimSpace(desired.id) != "" ==> TrimSpace(id) == TrimSpace(desired.id))
      && (TrimSpace(desired.name) != "" ==> TrimSpace(name) == TrimSpace(desired.name))
      && (TrimSpace(desired.username) != "" ==> TrimSpace(username) == TrimSpace(desired.username))
    }

    function Trim(): ProfileRef {
      ProfileRef(TrimSpace(id), TrimSpace(name), TrimSpace(username))
    }

    predicate IsTrim() {
      Trim() == this
    }
  }

  const NO_PROFILE := ProfileRef("", "", "")

  lemma TrimFixed(r: ProfileRef)
    ensures r.Trim().IsTrim()
    ensures forall d: ProfileRef :: r.Trim().MatchesDesired(d) == r.MatchesDesired(d) == r.MatchesDesired(d.Trim())
    ensures r.Trim().Handle() == r.Handle()
    ensures r.Trim().Empty() == r.Empty()
  {
    TrimSpaceIdempotent(r.id);
    TrimSpaceIdempotent(r.name);
    TrimSpaceIdempotent(r.username);
    forall d: ProfileRef
      ensures r.Trim().MatchesDesired(d) == r.MatchesDesired(d) == r.MatchesDesired(d.Trim())
    {
      TrimSpaceIdempotent(d.id);
      TrimSpaceIdempotent(d.name);
      TrimSpaceIdempotent(d.username);
    }
  }

  /** Satisfying is a partial order on references without surrounding blanks. */
  lemma MatchesIsPartialOrder(r: ProfileRef, q: ProfileRef, p: ProfileRef)
    ensures r.MatchesDesired(r)
    ensures r.MatchesDesired(q) && q.MatchesDesired(p) ==> r.MatchesDesired(p)
    ensures r.MatchesDesired(q) && q.MatchesDesired(r) ==> r.Trim() == q.Trim()
  {
  }
}
