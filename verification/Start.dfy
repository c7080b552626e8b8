/** The starts of one container: a session's, and the one a tick makes. */
module Start {
  import opened Collections
  import opened Runtime
  import opened Mounts

  /**
   A session's start. resolved is what the mounts of the registration check out to now, or None, and
   ready whether everything else that is asked before a container is made was in order.
   */
  method StartProcess(h: Host, id: Id, name: Name, resolved: Option<seq<Resolved>>, ready: bool) returns (ok: bool)
    requires h.Valid()
    modifies h
    ensures h.Valid() && h.pods == old(h.pods)
    ensures ok <==> ready && resolved != None && name !in old(h.containers) && h.against == old(h.against)
    ensures ok ==>
      && resolved != None && name !in old(h.containers)
      && id in h.rows && Placed(h.containers, name, resolved.value, h.rows[id])
      && h.containers == old(h.containers)[name := h.containers[name]]
    ensures !ok ==> Refused(old(h.containers), old(h.log), old(h.misses), h, name)
    ensures h.rows - {id} == old(h.rows) - {id}
    ensures resolved == None || !ready ==> !ok && h.containers == old(h.containers) && h.rows == old(h.rows)
  {
    if !ready || resolved == None {
      return false;
    }
    var token := h.NewToken();
    var minted := h.Register(id, token);
    if !minted {
      return false;
    }
    var written := h.WriteEnvFile();
    if !written {
      return false;
    }
    // The four steps, which the source spells out here and names createVerifiedContainer elsewhere.
    ok := CreateVerified(h, name, token, resolved.value);
  }

  datatype Tick = Begun(hash: Token) | FailedToStart | Gone

  /** What an earlier run left under the name is gone, or counted as left behind. */
  method RemovePrevious(h: Host, name: Name)
    requires h.Valid()
    modifies h`containers, h`misses, h`against
    ensures h.against >= old(h.against)
    ensures h.against == old(h.against) ==> h.containers == old(h.containers) - {name}
    ensures h.Valid() && NoWriteMissed(old(h.misses), h.misses)
    ensures h.containers == old(h.containers) - {name}
      || (h.containers == old(h.containers) && Left(old(h.misses), h.misses))
  {
    var err := h.Remove(name);
    if err != None && err != Some(NoContainer) {
      h.LeaveBehind();
    }
  }

  /** The start of one run, under the action lock. The row is written before anything is made. */
  method StartRun(h: Host, id: Id, name: Name, resolved: Option<seq<Resolved>>, ready: bool) returns (tick: Tick)
    requires h.Valid()
    modifies h
    ensures h.Valid() && h.pods == old(h.pods)
    ensures h.rows.Keys == old(h.rows.Keys)
    ensures h.against == old(h.against) ==>
      && (tick.Begun? <==> ready && resolved != None && id in old(h.rows))
      && (tick.Gone? <==> ready && resolved != None && id !in old(h.rows))
    ensures tick.Begun? ==>
      && id in old(h.rows) && h.rows == old(h.rows)[id := tick.hash]
      && resolved != None && Placed(h.containers, name, resolved.value, tick.hash)
      && h.containers - {name} == old(h.containers) - {name}
    ensures !tick.Begun? ==>
      || Refused(old(h.containers) - {name}, old(h.log), old(h.misses), h, name)
      || (Left(old(h.misses), h.misses) && Refused(old(h.containers), old(h.log), old(h.misses), h, name))
    ensures tick.Gone? ==> id !in h.rows
  {
    RemovePrevious(h, name);
    if !ready || resolved == None {
      return FailedToStart;
    }
    var token := h.NewToken();
    var wrote, held := h.UpdateRun(id, token);
    if !wrote {
      return FailedToStart;
    }
    if !held {
      return Gone;
    }
    var written := h.WriteEnvFile();
    if !written {
      return FailedToStart;
    }
    var made := CreateVerified(h, name, token, resolved.value);
    tick := if made then Begun(token) else FailedToStart;
  }
}
