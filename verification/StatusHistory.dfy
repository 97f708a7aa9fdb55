/** Last observed status per host or port, with the time it last changed. Keys are addresses for
    hosts and (address, port) pairs for ports; both tables follow the same rule. */
module StatusHistory {
  import opened Wrappers

  datatype Status = Online | Offline | Unknown

  datatype Stamp = Stamp(status: Status, changedAt: int)

  function Get<K, V>(m: map<K, V>, k: K): Option<V> {
    if k in m then Some(m[k]) else None
  }

  /** The timestamp advances only when the status differs from the last one stored. */
  function ResolveStatusChange(previous: Option<Stamp>, status: Status, now: int): int {
    if previous.None? || previous.value.status != status then now else previous.value.changedAt
  }

  function Stamped(previous: Option<Stamp>, status: Status, now: int): Stamp {
    Stamp(status, ResolveStatusChange(previous, status, now))
  }

  /** The stamps one scan writes for the statuses it observed. */
  function Writes<K>(stored: map<K, Stamp>, seen: map<K, Status>, now: int): map<K, Stamp> {
    map k | k in seen :: Stamped(Get(stored, k), seen[k], now)
  }

  datatype Observation<K> = Observation(now: int, seen: map<K, Status>)

  /** The table after a run of scans, starting empty. */
  function Replay<K>(scans: seq<Observation<K>>): map<K, Stamp> {
    if scans == [] then map[]
    else
      var stored := Replay(scans[..|scans| - 1]);
      var last := scans[|scans| - 1];
      stored + Writes(stored, last.seen, last.now)
  }

  predicate Observed<K(==)>(scans: seq<Observation<K>>, k: K, i: int) {
    0 <= i < |scans| && k in scans[i].seen
  }

  /** Scan `i` is the first observation of `k` in the latest unbroken run with status `s`: nothing
      else was observed from then on, and the observation just before it, if any, differs. */
  ghost predicate StartsLatestRun<K>(scans: seq<Observation<K>>, k: K, i: int, s: Status) {
    && Observed(scans, k, i)
    && (forall j :: i <= j && Observed(scans, k, j) ==> scans[j].seen[k] == s)
    && (forall j :: j < i && Observed(scans, k, j) && scans[j].seen[k] == s ==>
          exists d :: j < d < i && Observed(scans, k, d) && scans[d].seen[k] != s)
  }

  /** A stored stamp carries the clock reading of the scan that started the latest run of its
      status; a key is stored exactly when some scan observed it. */
  lemma {:induction false} StampMarksLatestRun<K>(scans: seq<Observation<K>>, k: K)
    ensures k in Replay(scans) <==> exists i :: Observed(scans, k, i)
    ensures k in Replay(scans) ==>
              exists i :: StartsLatestRun(scans, k, i, Replay(scans)[k].status)
                          && scans[i].now == Replay(scans)[k].changedAt
  {
    if scans != [] {
      var n := |scans| - 1;
      var front, last := scans[..n], scans[n];
      StampMarksLatestRun(front, k);
      assert forall j :: Observed(front, k, j) <==> j < n && Observed(scans, k, j);
      if k in last.seen {
        assert Observed(scans, k, n);
        LastObservation(scans, k);
      } else if k in Replay(front) {
        var s := Replay(front)[k].status;
        var i :| StartsLatestRun(front, k, i, s) && front[i].now == Replay(front)[k].changedAt;
        CarryOver(scans, k, i, s);
      }
    }
  }

  /** A run start of the earlier scans stays one when the last scan does not contradict it. */
  lemma CarryOver<K>(scans: seq<Observation<K>>, k: K, i: int, s: Status)
    requires scans != [] && StartsLatestRun(scans[..|scans| - 1], k, i, s)
    requires k in scans[|scans| - 1].seen ==> scans[|scans| - 1].seen[k] == s
    ensures StartsLatestRun(scans, k, i, s)
  {
    var front := scans[..|scans| - 1];
    assert forall j :: Observed(front, k, j) ==> Observed(scans, k, j) && front[j] == scans[j];
    forall j | j < i && Observed(scans, k, j) && scans[j].seen[k] == s
      ensures exists d :: j < d < i && Observed(scans, k, d) && scans[d].seen[k] != s
    {
      assert Observed(front, k, j);
      var d :| j < d < i && Observed(front, k, d) && front[d].seen[k] != s;
      assert Observed(scans, k, d);
    }
    forall j | i <= j && Observed(scans, k, j)
      ensures scans[j].seen[k] == s
    {
      if j < |front| {
        assert Observed(front, k, j);
      }
    }
  }

  lemma LastObservation<K>(scans: seq<Observation<K>>, k: K)
    requires scans != [] && k in scans[|scans| - 1].seen
    requires var front := scans[..|scans| - 1];
             && (k in Replay(front) <==> exists i :: Observed(front, k, i))
             && (k in Replay(front) ==>
                  exists i :: StartsLatestRun(front, k, i, Replay(front)[k].status)
                              && front[i].now == Replay(front)[k].changedAt)
    ensures exists i :: StartsLatestRun(scans, k, i, Replay(scans)[k].status)
                        && scans[i].now == Replay(scans)[k].changedAt
  {
    var n := |scans| - 1;
    var front, s := scans[..n], scans[n].seen[k];
    assert Replay(scans)[k] == Stamped(Get(Replay(front), k), s, scans[n].now);
    if k in Replay(front) {
      var t := Replay(front)[k].status;
      var i :| StartsLatestRun(front, k, i, t) && front[i].now == Replay(front)[k].changedAt;
      if s == t {
        CarryOver(scans, k, i, s);
      } else {
        assert Observed(scans, k, i) && scans[i].seen[k] != s;
        forall j | j < n && Observed(scans, k, j) && scans[j].seen[k] == s
          ensures exists d :: j < d < n && Observed(scans, k, d) && scans[d].seen[k] != s
        {
          assert Observed(front, k, j);
          assert j < i;
        }
        assert StartsLatestRun(scans, k, n, s);
      }
    } else {
      assert forall j :: j < n && Observed(scans, k, j) ==> Observed(front, k, j);
      assert StartsLatestRun(scans, k, n, s);
    }
  }

  /** A key no scan observed keeps whatever was stored. */
  lemma UnobservedIsUnchanged<K>(scans: seq<Observation<K>>, k: K)
    requires scans != [] && k !in scans[|scans| - 1].seen
    ensures Get(Replay(scans), k) == Get(Replay(scans[..|scans| - 1]), k)
  {}

  /** The two status tables of one device. */
  class HostStatusTable {
    var hosts: map<int, Stamp>
    var ports: map<(int, int), Stamp>

    constructor ()
      ensures hosts == map[] && ports == map[]
    {
      hosts, ports := map[], map[];
    }

    method SetHostStatuses(statuses: map<int, Stamp>)
      modifies this`hosts
      ensures hosts == old(hosts) + statuses
    {
      if statuses == map[] {
        return;
      }
      hosts := hosts + statuses;
    }

    method SetPortStatuses(statuses: map<(int, int), Stamp>)
      modifies this`ports
      ensures ports == old(ports) + statuses
    {
      if statuses == map[] {
        return;
      }
      ports := ports + statuses;
    }
  }
}
