/** Which sessions refer to a workspace, and whether it was kept when the last one left. */
module WorkspaceManifests {
  import opened Options

  type SessionId = nat
  type Name = string

  /** A retention record; when it was made is left out. */
  datatype Retention = Retention(name: Name)

  datatype Manifest = Manifest(sessions: set<SessionId>, retention: Option<Retention>)

  predicate WellFormed(m: Manifest) { m.retention.Some? ==> m.sessions == {} }

  /** The manifest of a workspace kept without sessions. An earlier record keeps its name; a
      new one needs an acceptable name, `None` being one that trims to nothing or is longer
      than 200 characters. */
  function Retained(name: Option<Name>, previous: Option<Retention>): Option<Manifest> {
    match previous
    case Some(retention) => Some(Manifest({}, previous))
    case None => if name.Some? then Some(Manifest({}, Some(Retention(name.value)))) else None
  }
}
