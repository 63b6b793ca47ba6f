/** The access checks written inline in the task handlers. */
module Policy {
  import opened TaskSchema

  /** The caller owns the task or its e-mail is among the shared members:
      the visibility clause of the list query and the guard of update and delete. */
  predicate OwnerOrShared(c: Caller, t: Task) {
    t.userId == c.id || c.email in t.sharedWith
  }

  /** The caller owns the task: the guard of share. An owner has every right
      of a shared member, and ownership is exactly the access that remains
      when the share list is empty. */
  predicate IsOwner(c: Caller, t: Task): (r: bool)
    ensures r ==> OwnerOrShared(c, t)
    ensures r <==> OwnerOrShared(c, t.(sharedWith := []))
  {
    t.userId == c.id
  }

  /** Appending an e-mail to the share list, as share does, keeps every
      caller's access, grants access to the holder of that e-mail and to no
      one else, and changes nobody's ownership. */
  lemma ShareGrantsAccess(c: Caller, t: Task, e: Email)
    ensures var u := t.(sharedWith := t.sharedWith + [e]);
            (OwnerOrShared(c, u) <==> OwnerOrShared(c, t) || c.email == e) &&
            (IsOwner(c, u) <==> IsOwner(c, t))
  {
  }

  /** Access depends on the owner and the share list alone: two tasks that
      agree on both give every caller the same rights, whatever their title,
      status or other fields. */
  lemma AccessIgnoresContent(c: Caller, t: Task, u: Task)
    requires t.userId == u.userId && t.sharedWith == u.sharedWith
    ensures OwnerOrShared(c, t) <==> OwnerOrShared(c, u)
    ensures IsOwner(c, t) <==> IsOwner(c, u)
  {
  }
}
