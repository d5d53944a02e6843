/** The plugin state: each method is one critical section of the Go manager, tied to a step of the
    execution registry and of the session cache. */
module Manager {
  import opened Text
  import opened Registry
  import Ids = SessionIds

  /** `C` stands for the configuration, which these methods only store. */
  class Manager<C> {
    const defaultConfig: C
    var cfg: C
    var warnedAuths: set<string>
    var sessionIds: Ids.Cache
    var nativeRequests: map<string, Execution>
    // The contexts that have been cancelled, and the serial of the next execution.
    var cancelled: set<Execution>
    var serials: nat
    ghost var issued: map<Execution, string>
    ghost var cleanup: map<Execution, Cleanup>

    ghost function Requests(): State
      reads this
    {
      State(nativeRequests, cancelled, issued, cleanup)
    }

    ghost predicate Valid()
      reads this
    {
      && Invariant(Requests())
      && (forall e <- issued :: e.serial < serials)
      && Ids.Issued(sessionIds)
    }

    constructor (defaults: C)
      ensures Valid() && Requests() == EMPTY
      ensures cfg == defaultConfig == defaults && warnedAuths == {} && sessionIds == map[]
    {
      defaultConfig, cfg := defaults, defaults;
      warnedAuths, sessionIds := {}, map[];
      nativeRequests, cancelled, serials := map[], {}, 0;
      issued, cleanup := map[], map[];
    }

    /** `cancelNativeRequests`: ranges over the table in arbitrary order, deleting as it goes. */
    method CancelNativeRequests()
      requires Valid()
      modifies this`nativeRequests, this`cancelled
      ensures Requests() == Next(old(Requests()), CancelAll)
      ensures Valid()
    {
      hide Invariant;
      ghost var before := Requests();
      while nativeRequests != map[]
        invariant nativeRequests.Keys <= before.requests.Keys
        invariant forall id <- nativeRequests :: nativeRequests[id] == before.requests[id]
        invariant cancelled == before.cancelled +
                  (set id | id in before.requests && id !in nativeRequests :: before.requests[id])
        decreases nativeRequests.Keys
      {
        AnyKey(nativeRequests);
        var id :| id in nativeRequests;
        cancelled := cancelled + {nativeRequests[id]};
        nativeRequests := nativeRequests - {id};
      }
      assert cancelled == before.cancelled + before.requests.Values;
      InvariantKept(before, CancelAll);
    }

    /** `nativeContext`: cancels and replaces whatever runs under the id. */
    method NativeContext(id: string) returns (execution: Execution)
      requires Valid()
      modifies this`nativeRequests, this`cancelled, this`serials, this`issued, this`cleanup
      ensures Enabled(old(Requests()), Register(id, execution))
      ensures Requests() == Next(old(Requests()), Register(id, execution))
      ensures Valid()
    {
      hide Invariant;
      ghost var before := Requests();
      execution := Execution(serials);
      InvariantKept(before, Register(id, execution));
      serials := serials + 1;
      if id in nativeRequests {
        cancelled := cancelled + {nativeRequests[id]};
      }
      nativeRequests := nativeRequests[id := execution];
      issued, cleanup := issued[execution := id], cleanup[execution := Pending];
      assert Requests() == Next(before, Register(id, execution));
    }

    /** The first half of the cleanup closure, outside the lock. */
    method CleanupCancels(execution: Execution)
      requires Valid() && Enabled(Requests(), CleanupCancel(execution))
      modifies this`cancelled, this`cleanup
      ensures Requests() == Next(old(Requests()), CleanupCancel(execution))
      ensures Valid()
    {
      hide Invariant;
      ghost var before := Requests();
      cancelled := cancelled + {execution};
      cleanup := cleanup[execution := Cancelling];
      InvariantKept(before, CleanupCancel(execution));
    }

    /** The second half, under the lock: the entry goes only if it is still this execution. */
    method CleanupDeletes(id: string, execution: Execution)
      requires Valid() && Enabled(Requests(), CleanupDelete(execution)) && issued[execution] == id
      modifies this`nativeRequests, this`cleanup
      ensures Requests() == Next(old(Requests()), CleanupDelete(execution))
      ensures Valid()
    {
      hide Invariant;
      ghost var before := Requests();
      if id in nativeRequests && nativeRequests[id] == execution {
        nativeRequests := nativeRequests - {id};
      }
      cleanup := cleanup[execution := Done];
      InvariantKept(before, CleanupDelete(execution));
    }

    /** The `request.complete` case. */
    method RequestComplete(id: string)
      requires Valid()
      modifies this`nativeRequests, this`cancelled
      ensures Requests() == Next(old(Requests()), Complete(id))
      ensures Valid()
    {
      hide Invariant;
      ghost var before := Requests();
      if id in nativeRequests {
        cancelled := cancelled + {nativeRequests[id]};
        nativeRequests := nativeRequests - {id};
      }
      assert nativeRequests == before.requests - {id};
      InvariantKept(before, Complete(id));
    }

    /** `plugin.shutdown` and `plugin.quiesce`. */
    method Shutdown()
      requires Valid()
      modifies this
      ensures Valid() && Requests() == Next(old(Requests()), CancelAll)
      ensures cfg == defaultConfig && warnedAuths == {} && sessionIds == map[]
    {
      CancelNativeRequests();
      cfg := defaultConfig;
      warnedAuths := {};
      sessionIds := map[];
    }

    /** `handleLifecycle`, where `config` is what loading and validation gave: a rejected
        configuration leaves everything as it is, an accepted one keeps the session ids. */
    method HandleLifecycle(config: Option<C>) returns (ok: bool)
      requires Valid()
      modifies this
      ensures Valid() && sessionIds == old(sessionIds)
      ensures ok <==> config.Some?
      ensures ok ==> cfg == config.value && warnedAuths == {} && Requests() == Next(old(Requests()), CancelAll)
      ensures !ok ==> cfg == old(cfg) && warnedAuths == old(warnedAuths) && Requests() == old(Requests())
    {
      match config {
        case None => return false;
        case Some(c) =>
          CancelNativeRequests();
          cfg := c;
          warnedAuths := {};
          return true;
      }
    }

    /** `shapeSessionID` at time `ms`. */
    method ShapeSessionId(sha: Ids.Sha, identity: string, ms: nat) returns (id: string)
      requires Valid() && Ids.Is256(sha)
      modifies this`sessionIds
      ensures (sessionIds, id) == Ids.Shaped(old(sessionIds), Ids.Digest(sha, identity), ms)
      ensures var digest := sha("ses_" + identity);
              && id == (if digest in old(sessionIds) then old(sessionIds)[digest] else Ids.NewId(digest, ms))
              && sessionIds == old(sessionIds)[digest := id]
      ensures Valid() && Ids.Extends(old(sessionIds), sessionIds) && Ids.IsSessionId(id)
    {
      hide Invariant, Ids.IsSessionId, Ids.BigEndian, Ids.Base62, Ids.Complement;
      var digest := Ids.Digest(sha, identity);
      Ids.ShapedKeeps(sessionIds, digest, ms);
      Ids.ShapedByDigest(sha, sessionIds, identity, ms);
      if digest in sessionIds && sessionIds[digest] != "" {
        id := sessionIds[digest];
      } else {
        var hex := Ids.TimeHexFrom(Ids.Complement(Ids.Clock(ms)));
        var tail := Ids.Base62From(digest[..14]);
        id := Ids.PREFIX + hex + tail;
        sessionIds := sessionIds[digest := id];
      }
      assert Ids.IssuedFor(digest, id);
      Ids.IssuedHasShape(digest, id);
    }

    /** `warnGlueRequirement`, with the switch of the configuration: says whether this call logs. */
    method WarnGlueRequirement(authId: string, warns: bool) returns (logs: bool)
      modifies this`warnedAuths
      ensures !warns ==> !logs && warnedAuths == old(warnedAuths)
      ensures warns ==> warnedAuths == old(warnedAuths) +
                        {if TrimSpace(authId) == "" then "(unknown auth)" else TrimSpace(authId)}
      ensures logs <==> warnedAuths != old(warnedAuths)
    {
      if !warns {
        return false;
      }
      var key := WarningKey(authId);
      if key in warnedAuths {
        assert warnedAuths == warnedAuths + {key};
        return false;
      }
      warnedAuths := warnedAuths + {key};
      return true;
    }
  }

  function WarningKey(authId: string): string {
    if TrimSpace(authId) == "" then "(unknown auth)" else TrimSpace(authId)
  }

  lemma AnyKey<K, V>(m: map<K, V>)
    requires m != map[]
    ensures exists k :: k in m
  {
    assert m.Keys != {};
  }
}
