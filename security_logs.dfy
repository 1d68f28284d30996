/**
 * The log list of the dashboard (src/components/SecurityLogs.tsx): the
 * de-duplication of fetched access logs by request id, and the counts shown
 * above the list.
 *
 * `deduplicateByRequestId` fills a JavaScript `Map`, which keeps its keys in
 * first-insertion order and overwrites a value in place; the map is modelled
 * as a sequence of slots in that order.
 */
module SecurityLogs {

  import opened Base

  /** An access log as far as de-duplication and the counts read it; `requestId` is "" when it is missing. */
  datatype AccessLog = AccessLog(id: string, requestId: string, isSafe: bool)

  /** The map key: the request id when there is one, else `String(id)`. */
  function Key(log: AccessLog): string
  {
    if log.requestId != "" then log.requestId else log.id
  }

  /** `log.request_id` is falsy: the log is keyed by its id and overwrites. */
  predicate IdKeyed(log: AccessLog)
  {
    log.requestId == ""
  }

  function LogKeys(logs: seq<AccessLog>): (ks: seq<string>)
    ensures |ks| == |logs|
    ensures forall i :: 0 <= i < |logs| ==> ks[i] == Key(logs[i])
  {
    seq(|logs|, i requires 0 <= i < |logs| => Key(logs[i]))
  }

  /** One entry of the `Map`. */
  datatype Slot = Slot(key: string, log: AccessLog)

  function KeysOf(slots: seq<Slot>): (ks: seq<string>)
    ensures |ks| == |slots|
    ensures forall i :: 0 <= i < |slots| ==> ks[i] == slots[i].key
  {
    seq(|slots|, i requires 0 <= i < |slots| => slots[i].key)
  }

  /** `Array.from(seen.values())` */
  function ValuesOf(slots: seq<Slot>): (vs: seq<AccessLog>)
    ensures |vs| == |slots|
    ensures forall i :: 0 <= i < |slots| ==> vs[i] == slots[i].log
  {
    seq(|slots|, i requires 0 <= i < |slots| => slots[i].log)
  }

  /** `seen.get(key)` */
  function Get(slots: seq<Slot>, key: string): (r: Option<AccessLog>)
    ensures r.None? <==> key !in KeysOf(slots)
  {
    match Position(KeysOf(slots), key)
    case None => None
    case Some(i) => Some(slots[i].log)
  }

  predicate UniqueKeys(slots: seq<Slot>)
  {
    forall i, j :: 0 <= i < j < |slots| ==> slots[i].key != slots[j].key
  }

  /** One turn of the loop: a request-id log is set only when its key is new; an id-keyed log is always set. */
  function Insert(slots: seq<Slot>, log: AccessLog): seq<Slot>
  {
    var k := Key(log);
    match Position(KeysOf(slots), k)
    case None => slots + [Slot(k, log)]
    case Some(i) => if IdKeyed(log) then slots[i := Slot(k, log)] else slots
  }

  /** The map after the loop has run over `logs`. */
  function Seen(logs: seq<AccessLog>): (slots: seq<Slot>)
    ensures |slots| <= |logs|
  {
    if logs == [] then [] else Insert(Seen(logs[..|logs| - 1]), logs[|logs| - 1])
  }

  /** `deduplicateByRequestId` */
  method Deduplicate(logs: seq<AccessLog>) returns (unique: seq<AccessLog>)
    ensures unique == ValuesOf(Seen(logs))
    ensures |unique| <= |logs|
  {
    var seen: seq<Slot> := [];
    for i := 0 to |logs|
      invariant seen == Seen(logs[..i])
    {
      var log := logs[i];
      var key := Key(log);
      var at := Position(KeysOf(seen), key);
      if log.requestId != "" {
        if at.None? {
          seen := seen + [Slot(key, log)];
        }
      } else if at.None? {
        seen := seen + [Slot(key, log)];
      } else {
        seen := seen[at.value := Slot(key, log)];
      }
      assert logs[..i + 1][..i] == logs[..i];
    }
    assert logs[..|logs|] == logs;
    unique := ValuesOf(seen);
  }

  // ---------------------------------------------------------------------
  // What one turn does
  // ---------------------------------------------------------------------

  /** A turn keeps the keys unique, and the slot for each key changes only as `Map.set` would. */
  lemma InsertEffect(slots: seq<Slot>, log: AccessLog, k: string)
    requires UniqueKeys(slots)
    ensures UniqueKeys(Insert(slots, log))
    ensures Get(Insert(slots, log), k)
            == if Key(log) != k then Get(slots, k)
               else if IdKeyed(log) || Get(slots, k).None? then Some(log)
               else Get(slots, k)
    ensures KeysOf(Insert(slots, log)) == if Key(log) in KeysOf(slots) then KeysOf(slots) else KeysOf(slots) + [Key(log)]
  {
    var after := Insert(slots, log);
    var key := Key(log);
    match Position(KeysOf(slots), key)
    case None =>
      assert KeysOf(after) == KeysOf(slots) + [key];
      FirstPositionKept(KeysOf(slots), key, k);
    case Some(i) =>
      assert KeysOf(after) == KeysOf(slots);
      if k == key {
        assert Position(KeysOf(after), k) == Some(i);
      }
  }

  // ---------------------------------------------------------------------
  // What the whole loop does
  // ---------------------------------------------------------------------

  /**
   * The output has one slot per distinct key of the input, with no key twice,
   * in the order in which each key first occurs.
   */
  lemma {:induction false} SeenKeys(logs: seq<AccessLog>)
    ensures UniqueKeys(Seen(logs))
    ensures forall k :: k in KeysOf(Seen(logs)) <==> k in LogKeys(logs)
    ensures forall a, b :: 0 <= a < b < |Seen(logs)| ==>
              Position(LogKeys(logs), Seen(logs)[a].key).value < Position(LogKeys(logs), Seen(logs)[b].key).value
  {
    if logs != [] {
      var init := logs[..|logs| - 1];
      var last := logs[|logs| - 1];
      assert logs == init + [last];
      SeenKeys(init);
      var before := Seen(init);
      InsertEffect(before, last, Key(last));
      assert LogKeys(logs) == LogKeys(init) + [Key(last)];
      var after := Seen(logs);
      forall k
        ensures k in KeysOf(after) <==> k in LogKeys(logs)
      {
      }
      forall a, b | 0 <= a < b < |after|
        ensures Position(LogKeys(logs), after[a].key).value < Position(LogKeys(logs), after[b].key).value
      {
        FirstPositionKept(LogKeys(init), Key(last), after[a].key);
        FirstPositionKept(LogKeys(init), Key(last), after[b].key);
        if b < |before| {
          assert after[a].key == before[a].key && after[b].key == before[b].key;
        } else {
          assert after[a].key == before[a].key;
          assert after[a].key in KeysOf(before);
          assert after[b].key == Key(last) && Key(last) !in LogKeys(init);
        }
      }
    }
  }

  /** Appending a key leaves the first position of a key already present unchanged. */
  lemma FirstPositionKept(xs: seq<string>, x: string, k: string)
    ensures k in xs ==> Position(xs + [x], k) == Position(xs, k)
    ensures k !in xs && k == x ==> Position(xs + [x], k) == Some(|xs|)
  {
    if k in xs {
      assert (xs + [x])[Position(xs, k).value] == k;
    } else if k == x {
      assert (xs + [x])[|xs|] == k;
    }
  }

  /** When no log with key `k` lacks a request id, the slot for `k` holds the first log with that key. */
  lemma {:induction false} FirstRequestIdKept(logs: seq<AccessLog>, k: string)
    requires forall j :: 0 <= j < |logs| && Key(logs[j]) == k ==> !IdKeyed(logs[j])
    ensures Get(Seen(logs), k) == match Position(LogKeys(logs), k) case None => None case Some(j) => Some(logs[j])
  {
    if logs != [] {
      var init := logs[..|logs| - 1];
      var last := logs[|logs| - 1];
      assert logs == init + [last];
      assert LogKeys(logs) == LogKeys(init) + [Key(last)];
      FirstRequestIdKept(init, k);
      SeenKeys(init);
      InsertEffect(Seen(init), last, k);
      FirstPositionKept(LogKeys(init), Key(last), k);
      if k in LogKeys(init) {
        var j := Position(LogKeys(init), k).value;
        assert logs[j] == init[j];
      }
    }
  }

  /** An id-keyed log that no later id-keyed log with the same id follows is the one its slot holds. */
  lemma {:induction false} LastIdKeyedWins(logs: seq<AccessLog>, j: nat)
    requires j < |logs| && IdKeyed(logs[j])
    requires forall m :: j < m < |logs| ==> !(IdKeyed(logs[m]) && logs[m].id == logs[j].id)
    ensures Get(Seen(logs), logs[j].id) == Some(logs[j])
  {
    var init := logs[..|logs| - 1];
    var last := logs[|logs| - 1];
    assert logs == init + [last];
    SeenKeys(init);
    InsertEffect(Seen(init), last, logs[j].id);
    if j < |logs| - 1 {
      assert init[j] == logs[j];
      LastIdKeyedWins(init, j);
    }
  }

  /** Every output log is an input log, stored under its own key. */
  lemma {:induction false} SeenFromInput(logs: seq<AccessLog>)
    ensures forall i :: 0 <= i < |Seen(logs)| ==> Seen(logs)[i].log in logs && Key(Seen(logs)[i].log) == Seen(logs)[i].key
  {
    if logs != [] {
      var init := logs[..|logs| - 1];
      var last := logs[|logs| - 1];
      assert logs == init + [last];
      SeenFromInput(init);
      var before := Seen(init);
      var after := Seen(logs);
      forall i | 0 <= i < |after|
        ensures after[i].log in logs && Key(after[i].log) == after[i].key
      {
        if i < |before| && after[i] == before[i] {
          assert before[i].log in init;
        }
      }
    }
  }

  // ---------------------------------------------------------------------
  // The counts
  // ---------------------------------------------------------------------

  /** The `stats` object above the list: a safe-page decision counts as denied. */
  datatype Stats = Stats(total: nat, allowed: nat, denied: nat)

  function StatsOf(logs: seq<AccessLog>): (s: Stats)
    ensures s.total == |logs| && s.allowed <= s.total && s.denied <= s.total
  {
    Stats(|logs|, CountIf(logs, (l: AccessLog) => !l.isSafe), CountIf(logs, (l: AccessLog) => l.isSafe))
  }

  /** Every log is either allowed or denied, never both. */
  lemma {:induction false} StatsAddUp(logs: seq<AccessLog>)
    ensures StatsOf(logs).total == StatsOf(logs).allowed + StatsOf(logs).denied
  {
    if logs != [] {
      StatsAddUp(logs[1..]);
    }
  }
}
