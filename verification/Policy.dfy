/**
 reconcileDERPMap: read the policy, patch it, and write it back under the ETag that was read, against a
 server that other writers use at the same time.
 */
module Policy {
  import opened Basics
  import opened Json
  import D = DerpMap
  import DT = DerpMapTheorems

  /** What one call wants done to the document. */
  datatype Change = Publish(cfg: D.Config, ep: D.Endpoint) | Withdraw(cfg: D.Config)

  function Patch(change: Change, doc: Json): Result<Json, D.Problem> {
    match change
    case Publish(cfg, ep) => D.Publish(doc, cfg, ep)
    case Withdraw(cfg) => D.Withdraw(doc, cfg)
  }

  datatype Reply = Written | Conflict | Refused

  datatype Outcome = Done | ReadFailed | NotPatched(why: D.Problem) | WriteConflict | WriteFailed
                   | Cancelled | TooManyConflicts

  const Attempts: nat := 3

  /** The policy as the server stores it: every document it ever held, in order. The ETag of a document is its
      position, so a write is conditional on the document being the last one (If-Match, section 13.1.1 of
      RFC 9110). `own` says which documents this program wrote, and as which change. */
  class PolicyServer {
    var history: seq<Json>
    ghost var own: map<nat, Change>
    ghost var replies: seq<Reply>           // to the writes of this program

    /** Nothing is lost: every document of this program is exactly the patch of the document it replaced. */
    ghost predicate Valid()
      reads this
    {
      history != [] && forall i :: i in own ==> 0 < i < |history| && Patch(own[i], history[i - 1]) == Ok(history[i])
    }

    constructor (first: Json)
      ensures Valid() && history == [first] && own == map[] && replies == []
    {
      history, own, replies := [first], map[], [];
    }

    /** Any number of writes by others. */
    method OthersWrite()
      requires Valid()
      modifies this`history
      ensures Valid() && old(history) <= history
    {
      var more: seq<Json> := *;
      history := history + more;
    }

    method Read() returns (doc: Json, etag: nat)
      requires Valid()
      ensures etag + 1 == |history| && doc == history[etag]
    {
      return history[|history| - 1], |history| - 1;
    }

    /** A conditional write. A reply may also get lost after the write took effect. */
    method Write(doc: Json, etag: nat, ghost change: Change) returns (reply: Reply)
      requires Valid() && etag < |history| && Patch(change, history[etag]) == Ok(doc)
      modifies this
      ensures Valid() && old(history) <= history && replies == old(replies) + [reply]
      ensures reply.Written? ==>
        old(|history|) == etag + 1 && history == old(history) + [doc] && own == old(own)[etag + 1 := change]
      ensures old(|history|) != etag + 1 ==> history == old(history) && own == old(own) && !reply.Written?
      ensures reply.Conflict? ==> history == old(history) && own == old(own)
      ensures (history == old(history) && own == old(own))
           || (old(|history|) == etag + 1 && history == old(history) + [doc] && own == old(own)[etag + 1 := change])
    {
      hide Patch;
      var stored: bool := *;
      var answered: bool := *;
      var conflict: bool := *;
      if etag + 1 != |history| {
        reply := if answered then Conflict else Refused;
      } else if stored {
        history, own := history + [doc], own[etag + 1 := change];
        reply := if answered then Written else Refused;
      } else {
        reply := if conflict then Conflict else Refused;
      }
      replies := replies + [reply];
    }
  }

  /** The document was a fixed point of the patch, or had just been replaced by its patch. */
  ghost predicate Settled(history: seq<Json>, own: map<nat, Change>, change: Change, i: nat) {
    i < |history| && (Patch(change, history[i]) == Ok(history[i]) || (i in own && own[i] == change))
  }

  /** The replies to one call: all but the last are conflicts, at most three. */
  predicate Retried(replies: seq<Reply>) {
    |replies| <= 3 && forall i :: 0 <= i < |replies| - 1 ==> replies[i].Conflict?
  }

  /** How a call ends, by the replies it got: a write that took or failed decides, so does a third conflict; otherwise
      the read failed, the document was refused or was settled already, or the call was cancelled while it waited. */
  predicate EndsAs(r: Outcome, replies: seq<Reply>, readable: nat -> bool, cancelled: nat -> bool) {
    var n := |replies|;
    if n > 0 && replies[n - 1].Written? then r.Done?
    else if n > 0 && replies[n - 1].Refused? then r.WriteFailed?
    else if n == 3 then r.WriteConflict?
    else if n > 0 && cancelled(n - 1) then r.Cancelled?
    else if !readable(n) then r.ReadFailed?
    else r.Done? || r.NotPatched?
  }

  /** This program wrote nothing, or one document, since `before`. */
  ghost predicate WroteAtMostOne(before: map<nat, Change>, own: map<nat, Change>, change: Change, from: nat, to: nat) {
    own == before || exists i :: i in own && from <= i < to && own == before[i := change]
  }

  datatype Tried = Unread | Unpatched(why: D.Problem) | Unchanged | Sent(reply: Reply)

  /** One attempt: read, patch, and write if that changes the document. `at` is the document that was read, or that
      was written. */
  method TryOnce(server: PolicyServer, change: Change, readable: bool) returns (r: Tried, ghost at: nat)
    requires server.Valid()
    modifies server
    ensures server.Valid() && old(server.history) <= server.history
    ensures r.Unread? <==> !readable
    ensures r.Sent? ==> server.replies == old(server.replies) + [r.reply]
    ensures !r.Sent? ==> server.replies == old(server.replies)
    ensures r.Unpatched? ==>
      old(|server.history|) - 1 <= at < |server.history| && Patch(change, server.history[at]) == Err(r.why)
    ensures r.Unchanged? || r == Sent(Written) ==>
      old(|server.history|) - 1 <= at && Settled(server.history, server.own, change, at)
    ensures !r.Sent? || r.reply.Conflict? ==> server.own == old(server.own)
    ensures WroteAtMostOne(old(server.own), server.own, change, old(|server.history|), |server.history|)
  {
    hide Patch;
    server.OthersWrite();
    at := 0;
    if !readable {
      return Unread, at;
    }
    var doc, etag := server.Read();
    var patched := Patch(change, doc);
    if patched.Err? {
      return Unpatched(patched.error), etag;
    }
    if patched.value == doc {
      return Unchanged, etag;
    }
    server.OthersWrite();
    var reply := server.Write(patched.value, etag, change);
    return Sent(reply), etag + 1;
  }

  /** `at` is the position of the document that decided a call that succeeded or was refused the document. Whether
      the policy can be read, and whether the caller gives up waiting, is asked once for each attempt. */
  method Reconcile(server: PolicyServer, change: Change, readable: nat -> bool, cancelled: nat -> bool)
    returns (r: Outcome, ghost at: nat, writes: nat, ghost replies: seq<Reply>)
    requires server.Valid()
    modifies server
    ensures server.Valid()
    ensures old(server.history) <= server.history
    ensures writes <= 3 && !r.TooManyConflicts?
    ensures server.replies == old(server.replies) + replies && |replies| == writes
    ensures Retried(replies) && EndsAs(r, replies, readable, cancelled)
    ensures r.NotPatched? ==>
      old(|server.history|) - 1 <= at < |server.history| && Patch(change, server.history[at]) == Err(r.why)
    ensures r.Done? ==> old(|server.history|) - 1 <= at && Settled(server.history, server.own, change, at)
    ensures r.WriteConflict? ==> writes == 3
    ensures WroteAtMostOne(old(server.own), server.own, change, old(|server.history|), |server.history|)
  {
    hide Patch, Settled;
    r, at, writes, replies := TooManyConflicts, 0, 0, [];
    for attempt := 0 to Attempts
      invariant server.Valid() && old(server.history) <= server.history
      invariant attempt < Attempts && writes == attempt && server.own == old(server.own)
      invariant server.replies == old(server.replies) + replies && |replies| == writes
      invariant forall i :: 0 <= i < |replies| ==> replies[i].Conflict?
      invariant attempt > 0 ==> !cancelled(attempt - 1)
    {
      var tried;
      tried, at := TryOnce(server, change, readable(attempt));
      if tried.Unread? {
        return ReadFailed, at, writes, replies;
      }
      if tried.Unpatched? {
        return NotPatched(tried.why), at, writes, replies;
      }
      if tried.Unchanged? {
        return Done, at, writes, replies;
      }
      writes, replies := writes + 1, replies + [tried.reply];
      if tried.reply.Written? {
        return Done, at, writes, replies;
      }
      if tried.reply.Refused? {
        return WriteFailed, at, writes, replies;
      }
      if attempt + 1 == Attempts {
        return WriteConflict, at, writes, replies;
      }
      if cancelled(attempt) {
        return Cancelled, at, writes, replies;
      }
    }
    assert false;
  }

  /** What a document must look like for its patch to be a fixed point of the patch. */
  ghost predicate Stable(change: Change, doc: Json) {
    match change
    case Publish(cfg, ep) => DT.DropsOnce(DT.NodeFields(DT.NodesOf(doc, cfg), cfg), cfg, ep)
    case Withdraw(cfg) => DT.HoldsNode(doc, cfg) ==> DT.ClearBehind(doc, cfg)
  }

  /** So a call that wrote has left a fixed point, exactly when the document it replaced held no field to drop
      twice, or nothing of this program's behind what was withdrawn. */
  lemma WrittenIsFixedPointIff(change: Change, before: Json, after: Json)
    requires Patch(change, before) == Ok(after)
    ensures Patch(change, after) == Ok(after) <==> Stable(change, before)
  {
    hide D.Publish, D.Withdraw, DT.DropsOnce, DT.ClearBehind, DT.HoldsNode;
    match change
    case Publish(cfg, ep) => DT.PublishTwiceIff(before, cfg, ep);
    case Withdraw(cfg) => DT.WithdrawTwiceIff(before, cfg);
  }
}
