/** The status watcher calls back only when update_engine's operation changes. */
module Statuses {
  import opened Lists
  import opened Nodes
  import opened Protocol

  /** The operation reported just before position j. */
  function Previous(stream: seq<UpdateStatus>, j: nat): string
    requires j <= |stream|
  {
    if j == 0 then "" else stream[j - 1].operation
  }

  /** The stream without each status whose operation repeats the one before it,
      the first being compared with the empty operation. */
  function Changes(stream: seq<UpdateStatus>): seq<UpdateStatus> {
    if stream == [] then []
    else
      var k := |stream| - 1;
      Changes(stream[..k]) + (if stream[k].operation != Previous(stream, k) then [stream[k]] else [])
  }

  /** watchUpdateStatus, with the statuses it hands to its callback. */
  method WatchUpdateStatus(stream: seq<UpdateStatus>) returns (reported: seq<UpdateStatus>)
    ensures reported == Changes(stream)
  {
    reported := [];
    var oldOperation := "";
    for j := 0 to |stream|
      invariant reported == Changes(stream[..j])
      invariant oldOperation == Previous(stream, j)
    {
      assert stream[..j + 1][..j] == stream[..j];
      if stream[j].operation != oldOperation {
        reported := reported + [stream[j]];
        oldOperation := stream[j].operation;
      }
    }
    assert stream[..|stream|] == stream;
  }

  predicate Occurs(stream: seq<UpdateStatus>, op: string) {
    exists j :: 0 <= j < |stream| && stream[j].operation == op
  }

  lemma OccursSnoc(stream: seq<UpdateStatus>, op: string)
    requires stream != []
    ensures var k := |stream| - 1;
      Occurs(stream, op) <==> Occurs(stream[..k], op) || stream[k].operation == op
  {
    var k := |stream| - 1;
    if j :| 0 <= j < |stream| && stream[j].operation == op {
      if j < k {
        assert stream[..k][j].operation == op;
      }
    }
    if j :| 0 <= j < k && stream[..k][j].operation == op {
      assert stream[j].operation == op;
    }
  }

  /** No two neighbours report the same operation, the first is not empty, and
      the last is the stream's last operation. */
  lemma {:induction false} ChangesExact(stream: seq<UpdateStatus>)
    ensures var c := Changes(stream);
      && (forall j :: 0 < j < |c| ==> c[j - 1].operation != c[j].operation)
      && (c != [] ==> c[0].operation != "")
      && (if c == [] then "" else c[|c| - 1].operation) == Previous(stream, |stream|)
  {
    if stream != [] {
      var k := |stream| - 1;
      ChangesExact(stream[..k]);
      assert Previous(stream[..k], k) == Previous(stream, k);
    }
  }

  /** And no operation is lost. */
  lemma {:induction false} ChangesKeep(stream: seq<UpdateStatus>, op: string)
    requires op != ""
    ensures Occurs(Changes(stream), op) <==> Occurs(stream, op)
  {
    if stream != [] {
      var k := |stream| - 1;
      var front := Changes(stream[..k]);
      ChangesKeep(stream[..k], op);
      OccursSnoc(stream, op);
      if stream[k].operation != Previous(stream, k) {
        assert (front + [stream[k]])[..|front|] == front;
        OccursSnoc(front + [stream[k]], op);
      } else {
        assert Changes(stream) == front;
        if stream[k].operation == op {
          assert stream[..k][k - 1].operation == op;
        }
      }
    }
  }

  predicate Differs(stream: seq<UpdateStatus>, j: nat)
    requires j < |stream|
  {
    stream[j].operation != if j == 0 then "" else stream[j - 1].operation
  }

  /** These are the positions where the operation is not the one before. */
  ghost predicate Turns(stream: seq<UpdateStatus>, ids: seq<nat>) {
    && Ascending(ids)
    && (forall j: nat :: j in ids <==> j < |stream| && Differs(stream, j))
  }

  lemma TurnsSnoc(stream: seq<UpdateStatus>, front: seq<nat>)
    requires stream != [] && Turns(stream[..|stream| - 1], front)
    ensures var k := |stream| - 1; Turns(stream, if Differs(stream, k) then front + [k] else front)
  {
    var k := |stream| - 1;
    forall j: nat ensures j in front <==> j < k && Differs(stream, j) {
      assert j < k ==> Differs(stream[..k], j) == Differs(stream, j);
    }
    assert forall a :: 0 <= a < |front| ==> front[a] in front;
  }

  /** The statuses handed on are those at these positions, each of them, unchanged
      and in their order. */
  lemma {:induction false} ChangesAre(stream: seq<UpdateStatus>) returns (ids: seq<nat>)
    ensures Turns(stream, ids) && |ids| == |Changes(stream)|
    ensures forall a :: 0 <= a < |ids| ==> ids[a] < |stream| && Changes(stream)[a] == stream[ids[a]]
  {
    ids := [];
    if stream != [] {
      var k := |stream| - 1;
      var front := ChangesAre(stream[..k]);
      TurnsSnoc(stream, front);
      ids := if Differs(stream, k) then front + [k] else front;
    }
  }

  /** The callback's writes to the node, in order. */
  function Report(n: Node, reported: seq<UpdateStatus>): Node {
    if reported == [] then n
    else StatusNode(Report(n, reported[..|reported| - 1]), reported[|reported| - 1])
  }

  lemma {:induction false} ReportNeeds(n: Node, reported: seq<UpdateStatus>)
    ensures Needed(Report(n, reported)) <==> Needed(n) || Occurs(reported, NEED_REBOOT)
  {
    if reported != [] {
      ReportNeeds(n, reported[..|reported| - 1]);
      OccursSnoc(reported, NEED_REBOOT);
    }
  }

  /** A run of the agent marks its node as needing a reboot exactly when the
      stream calls for one. */
  lemma NeededByStream(n: Node, stream: seq<UpdateStatus>)
    ensures Needed(Report(n, Changes(stream))) <==>
      Needed(n) || exists j :: 0 <= j < |stream| && stream[j].operation == "UPDATE_STATUS_UPDATED_NEED_REBOOT"
  {
    assert |NEED_REBOOT| > 0;
    ChangesKeep(stream, NEED_REBOOT);
    ReportNeeds(n, Changes(stream));
  }

  /** Nothing is handed on while the operation stays the same. */
  lemma {:induction false} LastReported(stream: seq<UpdateStatus>, j: nat, n: nat)
    requires j < n <= |stream| && stream[j].operation != Previous(stream, j)
    requires forall k :: j <= k < n ==> stream[k].operation == stream[j].operation
    ensures var c := Changes(stream[..n]); c != [] && c[|c| - 1] == stream[j]
  {
    assert stream[..n][..n - 1] == stream[..n - 1] && stream[..n][n - 1] == stream[n - 1];
    assert Previous(stream[..n], n - 1) == Previous(stream, n - 1);
    if j + 1 < n {
      LastReported(stream, j, n - 1);
    }
  }

  /** If the last change of operation is at j, the status annotation shows that
      operation, which is still the stream's last, and the other two annotations
      what came with it then. */
  lemma StatusReflects(n: Node, stream: seq<UpdateStatus>, j: nat)
    requires j < |stream| && stream[j].operation != (if j == 0 then "" else stream[j - 1].operation)
    requires forall k :: j <= k < |stream| ==> stream[k].operation == stream[j].operation
    ensures var r := Report(n, Changes(stream));
      && r.status == Text(stream[|stream| - 1].operation)
      && r.lastChecked == Text(stream[j].lastChecked) && r.newVersion == Text(stream[j].newVersion)
  {
    LastReported(stream, j, |stream|);
    assert stream[..|stream|] == stream;
  }
}
