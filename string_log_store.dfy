/** The first revision of the access-log store (app/.../StoredAccessLogManagemer.kt):
    a persisted list of log texts that every write rebuilds from a `HashSet`. */
module StringLogStore {
  import opened Collections

  /** `addAllLogs(existingLogs)`: lists a hash set in its iteration order, which the
      model leaves open: any order may come out, each element exactly once. */
  method ListSet(s: set<string>) returns (r: seq<string>)
    ensures ToSet(r) == s
    ensures NoDuplicates(r)
    ensures |r| == |s|
  {
    r := [];
    var rest := s;
    while rest != {}
      invariant ToSet(r) + rest == s
      invariant ToSet(r) !! rest
      invariant NoDuplicates(r)
      invariant |r| + |rest| == |s|
      decreases rest
    {
      var x :| x in rest;
      ListStep(r, rest, s, x);
      r := r + [x];
      rest := rest - {x};
    }
  }

  /** Moving one element from the set still to be listed onto the end of the list. */
  lemma ListStep(r: seq<string>, rest: set<string>, s: set<string>, x: string)
    requires ToSet(r) + rest == s && ToSet(r) !! rest && NoDuplicates(r)
    requires |r| + |rest| == |s| && x in rest
    ensures ToSet(r + [x]) + (rest - {x}) == s && ToSet(r + [x]) !! (rest - {x})
    ensures NoDuplicates(r + [x])
    ensures |r + [x]| + |rest - {x}| == |s|
  {
    ToSetAppend(r, [x]);
    AppendNoDuplicates(r, [x]);
  }

  /** The store behind `accessLogsDataStore`'s `logsList`. */
  class Store {
    var logs: seq<string>

    constructor()
      ensures logs == []
    {
      logs := [];
    }

    /** `addAccessLog`: the stored set gains `entry` and loses nothing; the list is
        rewritten from a hash set, so it never holds a duplicate. */
    method AddAccessLog(entry: string)
      modifies this
      ensures ToSet(logs) == ToSet(old(logs)) + {entry}
      ensures entry in old(logs) ==> ToSet(logs) == ToSet(old(logs))
      ensures NoDuplicates(logs)
      ensures HasAccessLog(entry)
    {
      var existing := ToSet(logs);
      existing := existing + {entry};
      logs := ListSet(existing);
    }

    /** `hasAccessLog`. */
    predicate HasAccessLog(entry: string)
      reads this
    {
      entry in logs
    }

    /** `getAllAccessLogs`. */
    function GetAllAccessLogs(): (r: set<string>)
      reads this
      ensures forall e :: e in r <==> HasAccessLog(e)
    {
      ToSet(logs)
    }

    /** `clearAccessLogs`: back to the empty default record. */
    method ClearAccessLogs()
      modifies this
      ensures logs == []
      ensures forall e :: !HasAccessLog(e)
    {
      logs := [];
    }
  }
}
