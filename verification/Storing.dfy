/** What the application has stored when a node stops (include/yaraft/ready.h, src/raft.cc `newReady`,
    src/raw_node.cc): the entries and the hard state of every Ready, stored before its messages leave.
    Starting from that is what a run of the cluster calls a restart. */
module Storing {
  import opened Types
  import opened Logs
  import opened RaftLogs
  import opened Readies
  import opened Nodes
  import opened NodeLocal
  import opened History
  import opened Invariants
  import opened Cluster
  import R = ReadRuns

  datatype Disk = Disk(log: Log, hard: HardState)

  /** Node i of a run at time `now`, and its application: what is on disk, where the entries begin that are
      not declared stable, the cursors of the cycle, the Ready that has not been handed in again, and the
      time when the last Ready was made and stored. */
  datatype Keeper = Keeper(
    now: nat,
    disk: Disk,
    offset: nat,
    applied: nat,
    prev: HardState,
    out: Option<Ready>,
    at: nat)

  /** The disk below the offset and the node's own entries from there on are the log. */
  ghost predicate TwoStores(log: Log, stable: Log, offset: nat) {
    && 1 <= offset <= |log| + 1 && offset <= |stable| + 1
    && stable[..offset - 1] == log[..offset - 1]
    && (offset == |log| + 1 ==> stable == log)
  }

  /** Which is what the two-store log keeps through everything that is done to it. */
  lemma CoherentStores(compacted: Log, ents: seq<Entry>, offset: nat, entries: seq<Entry>)
    requires Coherent(compacted, ents, offset, entries)
    ensures TwoStores(Joined(compacted, ents, offset, entries), Stable(compacted, ents), offset)
    ensures Joined(compacted, ents, offset, entries)[offset - 1..] == entries
  {
    var low := Stable(compacted, ents);
    assert |low[..offset - 1]| == offset - 1;
    if entries == [] { assert low[..offset - 1] + [] == low; }
  }

  /** The disk once a Ready is stored. */
  function Saved(d: Disk, rd: Ready): Disk {
    Disk(if rd.entries == [] || !(1 <= rd.entries[0].index <= |d.log| + 1) then d.log
         else d.log[..rd.entries[0].index - 1] + rd.entries,
         if rd.hardState == EMPTY_STATE then d.hard else rd.hardState)
  }

  /** Where the entries that are not stable begin after the last of these has been declared stable. */
  function StableFrom(log: Log, offset: nat, entries: seq<Entry>): nat {
    if entries == [] then offset
    else
      var e := entries[|entries| - 1];
      if offset <= e.index && 1 <= e.index <= |log| && log[e.index - 1].term == e.term then e.index + 1 else offset
  }

  ghost predicate At(cs: seq<System>, i: NodeId, k: nat) {
    k < |cs| && i in cs[k].nodes
  }

  ghost function State(cs: seq<System>, i: NodeId, max: nat, s: Keeper): RawState
    requires At(cs, i, s.now)
  {
    NodeState(cs[s.now].nodes[i], s.applied, s.prev, max)
  }

  /** The Ready that the node makes now. */
  ghost function Made(cs: seq<System>, i: NodeId, max: nat, s: Keeper): Ready
    requires At(cs, i, s.now)
    requires var n := cs[s.now].nodes[i]; s.applied <= n.committed <= |n.log| && 1 <= s.offset <= |n.log| + 1
  {
    NewReady(State(cs, i, max, s), cs[s.now].nodes[i].log[s.offset - 1..])
  }

  /** A Ready is made and stored. */
  ghost predicate Stores(cs: seq<System>, i: NodeId, max: nat, s: Keeper, s': Keeper) {
    && At(cs, i, s.now) && s.out.None?
    && (var n := cs[s.now].nodes[i]; s.applied <= n.committed <= |n.log| && 1 <= s.offset <= |n.log| + 1)
    && var rd := Made(cs, i, max, s); s' == s.(out := Some(rd), disk := Saved(s.disk, rd), at := s.now)
  }

  /** It is handed in again. */
  ghost predicate HandsIn(cs: seq<System>, i: NodeId, max: nat, s: Keeper, s': Keeper) {
    && At(cs, i, s.now) && s.out.Some?
    && var c := CommitReady(State(cs, i, max, s), s.out.value);
       s' == s.(prev := c.prev, applied := c.applied, out := None,
                offset := StableFrom(cs[s.now].nodes[i].log, s.offset, s.out.value.entries))
  }

  /** The run goes on, without a restart of the node, and the two stores still are its log. */
  ghost predicate GoesOn(cs: seq<System>, i: NodeId, s: Keeper, s': Keeper) {
    && At(cs, i, s.now) && At(cs, i, s.now + 1) && RunsOn(cs, s.now, i)
    && s' == s.(now := s.now + 1, offset := s'.offset)
    && TwoStores(cs[s.now + 1].nodes[i].log, s.disk.log, s'.offset)
  }

  ghost predicate KeeperStep(cs: seq<System>, i: NodeId, max: nat, s: Keeper, s': Keeper) {
    Stores(cs, i, max, s, s') || HandsIn(cs, i, max, s, s') || GoesOn(cs, i, s, s')
  }

  /** The cycle of a node that starts with this disk; an empty one counts as new. */
  function Anew(now: nat, d: Disk, applied: nat): Keeper {
    Keeper(now, d, |d.log| + 1, applied, if d.log == [] then EMPTY_STATE else d.hard, None, now)
  }

  /** A node that has just been started from what is on disk, for the first time or again. */
  ghost predicate Begins(cs: seq<System>, i: NodeId, s: Keeper) {
    && At(cs, i, s.now) && s == Anew(s.now, s.disk, s.applied) && s.applied <= s.disk.hard.commit
    && var n := cs[s.now].nodes[i];
       n.log == s.disk.log && n.term == s.disk.hard.term && n.vote == s.disk.hard.vote && n.committed == s.disk.hard.commit
  }

  ghost predicate KeeperRun(cs: seq<System>, i: NodeId, max: nat, ss: seq<Keeper>) {
    && Run(cs) && |ss| > 0 && Begins(cs, i, ss[0])
    && forall k {:trigger KeptAt(cs, i, max, ss, k)} :: 0 <= k < |ss| - 1 ==> KeptAt(cs, i, max, ss, k)
  }

  ghost predicate KeptAt(cs: seq<System>, i: NodeId, max: nat, ss: seq<Keeper>, k: nat)
    requires k < |ss| - 1
  {
    KeeperStep(cs, i, max, ss[k], ss[k + 1])
  }

  // ---------------------------------------------------------------- votes stay

  lemma NodeVote(c: System, h: Hist, i: NodeId)
    requires Inv(c, h) && i in c.nodes
    ensures VoteLink(h, i, c.nodes[i].term, c.nodes[i].vote)
  {
    hide HistInv, Local, NetInv;
    assert NodeOK(h, i, c.nodes[i]);
  }

  lemma VoteStep(c: System, h: Hist, j: NodeId, a: Action, i: NodeId)
    requires Inv(c, h) && j in c.nodes && i in c.nodes && Enabled(c, j, a)
    ensures var n, n' := c.nodes[i], After(c, j, a).nodes[i];
      n'.term == n.term && n.vote != NONE ==> n'.vote == n.vote
  {
    hide Inv, Enabled, Act, Good;
    var h' := AfterInv(c, h, j, a);
    NodeVote(c, h, i);
    NodeVote(After(c, j, a), h', i);
  }

  /** A node never changes its vote within a term, not even when it is restarted. */
  lemma {:induction false} VoteStays(cs: seq<System>, hs: seq<Hist>, a: nat, b: nat, i: NodeId)
    requires Run(cs) && Chronicle(cs, hs) && a <= b < |cs| && i in cs[a].nodes
    ensures i in cs[b].nodes
    ensures cs[b].nodes[i].term == cs[a].nodes[i].term && cs[a].nodes[i].vote != NONE ==>
      cs[b].nodes[i].vote == cs[a].nodes[i].vote
    decreases b - a
  {
    hide Inv, Enabled, After, Init, ReignsGrow;
    RunRises(cs, hs, a, b, i);
    if a < b {
      RunRises(cs, hs, a, b - 1, i);
      RunRises(cs, hs, b - 1, b, i);
      VoteStays(cs, hs, a, b - 1, i);
      var c := cs[b - 1];
      assert Inv(c, hs[b - 1]);
      assert Linked(cs, b - 1);
      var j, x :| j in c.nodes && Enabled(c, j, x) && cs[b] == After(c, j, x);
      VoteStep(c, hs[b - 1], j, x, i);
    }
  }

  // ---------------------------------------------------------------- the disk is the node

  /** The last Ready that was made, with its hard state as it was stored. */
  ghost predicate Cursor(s: Keeper) {
    if s.out.Some? && s.out.value.hardState != EMPTY_STATE then s.out.value.hardState == s.disk.hard
    else s.prev == EMPTY_STATE || s.prev == s.disk.hard
  }

  /** How much has been handed to the application. */
  function Delivered(s: Keeper): nat {
    s.applied + if s.out.Some? then |s.out.value.committedEntries| else 0
  }

  /** What is on disk is the log, the term and the vote that the node had when its last Ready was made, and
      a commit index that it had reached then and that covers all that was handed out. */
  ghost predicate OnDisk(s: Keeper, n: Node) {
    && s.disk.log == n.log && s.disk.hard.term == n.term && s.disk.hard.vote == n.vote
    && Delivered(s) <= s.disk.hard.commit <= n.committed <= |n.log|
  }

  /** The entries of a Ready end where the log ended. */
  ghost predicate Ends(log: Log, entries: seq<Entry>) {
    entries != [] ==> log != [] && entries[|entries| - 1] == log[|log| - 1] && log[|log| - 1].index == |log|
  }

  ghost predicate Kept(cs: seq<System>, i: NodeId, s: Keeper) {
    && s.at <= s.now && At(cs, i, s.at) && At(cs, i, s.now) && NoRestart(cs, s.at, s.now, i)
    && TwoStores(cs[s.now].nodes[i].log, s.disk.log, s.offset)
    && OnDisk(s, cs[s.at].nodes[i]) && Cursor(s)
    && (s.out.Some? ==> Ends(s.disk.log, s.out.value.entries))
  }

  lemma BeginKept(cs: seq<System>, i: NodeId, s: Keeper)
    requires Run(cs) && Begins(cs, i, s)
    ensures Kept(cs, i, s)
  {
    hide Run;
    TermsReal(cs, s.now, i);
  }

  /** A new node begins so. */
  lemma NewBegins(cs: seq<System>, i: NodeId)
    requires Run(cs) && i in cs[0].nodes
    ensures Begins(cs, i, Anew(0, Disk([], EMPTY_STATE), 0))
  {
  }

  /** Until the node has made another Ready, what it has done since only adds to what is on disk. */
  lemma Since(cs: seq<System>, i: NodeId, max: nat, s: Keeper)
    requires Run(cs) && Kept(cs, i, s)
    ensures var n, m := cs[s.at].nodes[i], cs[s.now].nodes[i];
      && n.term <= m.term && n.committed <= m.committed <= |m.log| && WellIndexed(m.log)
      && (n.term == m.term && n.vote != NONE ==> m.vote == n.vote)
      && Proper(State(cs, i, max, s).(prev := s.disk.hard))
  {
    hide Run, NoRestart, TwoStores, Ends, Cursor;
    NodeEvolves(cs, s.at, s.now, i);
    var hs := Chronicled(cs);
    VoteStays(cs, hs, s.at, s.now, i);
  }

  lemma SavedLog(log: Log, d: Disk, offset: nat, rd: Ready)
    requires TwoStores(log, d.log, offset) && WellIndexed(log) && rd.entries == log[offset - 1..]
    ensures Saved(d, rd).log == log && Ends(log, rd.entries) && TwoStores(log, log, offset)
  {
    if rd.entries != [] {
      assert rd.entries[0] == log[offset - 1];
      assert log[..offset - 1] + log[offset - 1..] == log;
    }
  }

  /** The hard state on disk is the node's, whether or not one is reported. */
  lemma SavedHard(n: Node, d: Disk, applied: nat, prev: HardState, max: nat, unstable: seq<Entry>)
    requires Proper(NodeState(n, applied, prev, max)) && (prev == EMPTY_STATE || prev == d.hard)
    requires applied <= d.hard.commit <= n.committed && d.hard.term <= n.term
    requires d.hard.term == n.term && d.hard.vote != NONE ==> n.vote == d.hard.vote
    ensures var rd := NewReady(NodeState(n, applied, prev, max), unstable);
      var hard := Saved(d, rd).hard;
      && hard.term == n.term && hard.vote == n.vote
      && applied + |rd.committedEntries| <= hard.commit <= n.committed
      && (rd.hardState != EMPTY_STATE ==> rd.hardState == hard)
      && (rd.hardState == EMPTY_STATE ==> hard == d.hard && prev == HardState(n.term, n.vote, n.committed))
  {
    hide NewReady;
    HardReported(NodeState(n, applied, prev, max), unstable);
  }

  lemma StoreKeeps(cs: seq<System>, i: NodeId, max: nat, s: Keeper, s': Keeper)
    requires Run(cs) && Kept(cs, i, s) && Stores(cs, i, max, s, s')
    ensures Kept(cs, i, s')
  {
    hide Run, TwoStores, NewReady, Saved, Ends, NoRestart, RunsOn;
    Since(cs, i, max, s);
    var n, rd := cs[s.now].nodes[i], Made(cs, i, max, s);
    HardReported(State(cs, i, max, s), n.log[s.offset - 1..]);
    SavedLog(n.log, s.disk, s.offset, rd);
    SavedHard(n, s.disk, s.applied, s.prev, max, n.log[s.offset - 1..]);
    NowStays(cs, i, s.now);
  }

  lemma NowStays(cs: seq<System>, i: NodeId, k: nat)
    requires k < |cs|
    ensures NoRestart(cs, k, k, i)
  {
  }

  /** By log matching, what was stored and is still in the log at its end is the log up to there. */
  lemma StableKeeps(log: Log, stable: Log, offset: nat, entries: seq<Entry>)
    requires TwoStores(log, stable, offset) && Ends(stable, entries) && Matching(stable, log)
    ensures TwoStores(log, stable, StableFrom(log, offset, entries))
  {
    var k := StableFrom(log, offset, entries);
    if k != offset {
      assert k == |stable| + 1 && TermAt(stable, |stable|) == TermAt(log, |stable|);
      AgreePrefix(stable, log, |stable|);
      if k == |log| + 1 { assert stable[..|stable|] == stable && log[..|log|] == log; }
    }
  }

  lemma AgreePrefix(a: Log, b: Log, k: nat)
    requires Agree(a, b, k)
    ensures k <= |a| && k <= |b| && a[..k] == b[..k]
  {
  }

  lemma HandInKeeps(cs: seq<System>, i: NodeId, max: nat, s: Keeper, s': Keeper)
    requires Run(cs) && Kept(cs, i, s) && HandsIn(cs, i, max, s, s')
    ensures Kept(cs, i, s')
  {
    hide Run, TwoStores, Ends, NoRestart, RunsOn, StableFrom, Matching;
    LogsMatch(cs, s.at, i, s.now, i);
    StableKeeps(cs[s.now].nodes[i].log, s.disk.log, s.offset, s.out.value.entries);
  }

  lemma GoOnKeeps(cs: seq<System>, i: NodeId, s: Keeper, s': Keeper)
    requires Run(cs) && Kept(cs, i, s) && GoesOn(cs, i, s, s')
    ensures Kept(cs, i, s')
  {
    hide Run, TwoStores, Ends, RunsOn;
  }

  lemma {:induction false} KeeperInv(cs: seq<System>, i: NodeId, max: nat, ss: seq<Keeper>, k: nat)
    requires KeeperRun(cs, i, max, ss) && k < |ss|
    ensures Kept(cs, i, ss[k])
    decreases k
  {
    hide Run, Begins, Stores, HandsIn, GoesOn, Kept;
    if k == 0 {
      BeginKept(cs, i, ss[0]);
    } else {
      KeeperInv(cs, i, max, ss, k - 1);
      assert KeptAt(cs, i, max, ss, k - 1);
      var s, s' := ss[k - 1], ss[k];
      if Stores(cs, i, max, s, s') {
        StoreKeeps(cs, i, max, s, s');
      } else if HandsIn(cs, i, max, s, s') {
        HandInKeeps(cs, i, max, s, s');
      } else {
        GoOnKeeps(cs, i, s, s');
      }
    }
  }

  /** A Ready without a hard state says that nothing has changed since the last one that had one. */
  lemma NothingNew(cs: seq<System>, i: NodeId, max: nat, ss: seq<Keeper>, k: nat)
    requires KeeperRun(cs, i, max, ss) && k < |ss| - 1 && Stores(cs, i, max, ss[k], ss[k + 1])
    requires ss[k + 1].out.value.hardState == EMPTY_STATE
    ensures var n := cs[ss[k].now].nodes[i]; ss[k].prev == HardState(n.term, n.vote, n.committed)
  {
    hide Run, TwoStores, NewReady, Saved, Ends, NoRestart, RunsOn, Begins, KeeperStep;
    var s := ss[k];
    KeeperInv(cs, i, max, ss, k);
    Since(cs, i, max, s);
    var n := cs[s.now].nodes[i];
    SavedHard(n, s.disk, s.applied, s.prev, max, n.log[s.offset - 1..]);
  }

  /** A node that starts from what is on disk. */
  ghost function FromDisk(cfg: Config, d: Disk, applied: nat): Node {
    Started(cfg, Stored(d.log, d.hard.term, d.hard.vote, d.hard.commit, applied))
  }

  /** Whenever a node stops, what is on disk is the log, the term and the vote it had when its last Ready
      was stored, the stored commit index covers all that was handed out, and to start from it is to
      restart that node. */
  lemma StoredIsRestart(cs: seq<System>, i: NodeId, max: nat, ss: seq<Keeper>, k: nat, applied: nat)
    requires KeeperRun(cs, i, max, ss) && k < |ss| && applied <= ss[k].disk.hard.commit
    ensures var s := ss[k];
      && At(cs, i, s.at) && Delivered(s) <= s.disk.hard.commit
      && (var n := cs[s.at].nodes[i];
          && s.disk.log == n.log && s.disk.hard.term == n.term && s.disk.hard.vote == n.vote
          && FromDisk(n.cfg, s.disk, applied) == Rebooted(n, applied, s.disk.hard.commit))
      && Enabled(cs[s.at], i, Restart(applied, s.disk.hard.commit))
  {
    hide Run, Started, Rebooted, Begins, KeeperStep;
    KeeperInv(cs, i, max, ss, k);
    var s := ss[k];
    RunNodes(cs, s.at, i);
    RebootIsStart(cs[s.at].nodes[i], applied, s.disk.hard.commit);
  }

  // ---------------------------------------------------------------- stopping at any time

  /** The messages on the network at time b except those that node i has sent since time a. */
  ghost function Left(cs: seq<System>, acts: seq<(NodeId, Action)>, i: NodeId, a: nat, b: nat): set<Message>
    requires R.RunBy(cs, acts) && a <= b <= |acts|
    decreases b
  {
    if a == b then cs[a].net
    else
      var (j, x) := acts[b - 1];
      assert R.ByStep(cs, acts, b - 1);
      Left(cs, acts, i, a, b - 1) + if j == i then {} else Sent(Act(cs[b - 1].nodes[j], x))
  }

  /** Nothing that node i has sent since time a has reached anyone by time b. */
  ghost predicate Withheld(cs: seq<System>, acts: seq<(NodeId, Action)>, i: NodeId, a: nat, b: nat)
    requires R.RunBy(cs, acts) && b <= |acts|
  {
    forall k {:trigger acts[k]} :: a <= k < b && acts[k].0 != i && acts[k].1.Deliver? ==>
      acts[k].1.m in Left(cs, acts, i, a, k)
  }

  lemma PrefixRuns(cs: seq<System>, k: nat)
    requires Run(cs) && k < |cs|
    ensures Run(cs[..k + 1])
  {
    hide Init, Next;
    var ds := cs[..k + 1];
    forall x {:trigger Linked(ds, x)} | 0 <= x < |ds| - 1
      ensures Linked(ds, x)
    {
      assert Linked(cs, x);
    }
  }

  /** What a node did and nobody has heard of can be taken out of the run. */
  lemma {:induction false} Undone(cs: seq<System>, acts: seq<(NodeId, Action)>, i: NodeId, a: nat, b: nat)
    returns (us: seq<System>)
    requires R.RunBy(cs, acts) && a <= b <= |acts| && i in cs[a].nodes && Withheld(cs, acts, i, a, b)
    ensures us != [] && Run(us) && us[|us| - 1] == System(cs[b].nodes[i := cs[a].nodes[i]], Left(cs, acts, i, a, b))
    ensures i in cs[b].nodes
    decreases b
  {
    hide Run, R.RunBy, Act, Sent, Enabled, Withheld;
    if a == b {
      RunByRun(cs, acts);
      PrefixRuns(cs, a);
      us := cs[..a + 1];
      assert cs[a].nodes[i := cs[a].nodes[i]] == cs[a].nodes;
      assert us[|us| - 1] == cs[a];
    } else {
      WithheldBefore(cs, acts, i, a, b);
      us := Undone(cs, acts, i, a, b - 1);
      RunByStep(cs, acts, b - 1);
      var (j, x) := acts[b - 1];
      var c, u, n := cs[b - 1], us[|us| - 1], cs[a].nodes[i];
      LeftStep(cs, acts, i, a, b);
      if j == i {
        assert c.nodes[i := n] == cs[b].nodes[i := n];
      } else {
        StillEnabled(cs, acts, i, a, b - 1, u);
        RunExtends(us, j, x);
        assert (c.nodes[i := n])[j := Act(c.nodes[j], x).(msgs := [])] == cs[b].nodes[i := n];
        us := us + [After(u, j, x)];
      }
    }
  }

  lemma RunByRun(cs: seq<System>, acts: seq<(NodeId, Action)>)
    requires R.RunBy(cs, acts)
    ensures Run(cs) && |cs| == |acts| + 1
  {
    hide Run;
    R.RunByRuns(cs, acts);
  }

  lemma RunByStep(cs: seq<System>, acts: seq<(NodeId, Action)>, k: nat)
    requires R.RunBy(cs, acts) && k < |acts|
    ensures |cs| == |acts| + 1 && acts[k].0 in cs[k].nodes && Enabled(cs[k], acts[k].0, acts[k].1)
    ensures cs[k + 1] == After(cs[k], acts[k].0, acts[k].1)
  {
    hide Enabled, After, Init;
    assert R.ByStep(cs, acts, k);
  }

  lemma LeftStep(cs: seq<System>, acts: seq<(NodeId, Action)>, i: NodeId, a: nat, b: nat)
    requires R.RunBy(cs, acts) && a < b <= |acts| && acts[b - 1].0 in cs[b - 1].nodes
    ensures Left(cs, acts, i, a, b) ==
      Left(cs, acts, i, a, b - 1) +
      if acts[b - 1].0 == i then {} else Sent(Act(cs[b - 1].nodes[acts[b - 1].0], acts[b - 1].1))
  {
    hide Act, Sent, R.RunBy;
  }

  lemma WithheldBefore(cs: seq<System>, acts: seq<(NodeId, Action)>, i: NodeId, a: nat, b: nat)
    requires R.RunBy(cs, acts) && a < b <= |acts| && Withheld(cs, acts, i, a, b)
    ensures Withheld(cs, acts, i, a, b - 1)
    ensures acts[b - 1].0 != i && acts[b - 1].1.Deliver? ==> acts[b - 1].1.m in Left(cs, acts, i, a, b - 1)
  {
    hide Left, R.RunBy;
  }

  lemma StillEnabled(cs: seq<System>, acts: seq<(NodeId, Action)>, i: NodeId, a: nat, k: nat, u: System)
    requires R.RunBy(cs, acts) && a <= k < |acts| && acts[k].0 in cs[k].nodes && acts[k].0 != i
    requires Enabled(cs[k], acts[k].0, acts[k].1) && i in cs[a].nodes
    requires acts[k].1.Deliver? ==> acts[k].1.m in Left(cs, acts, i, a, k)
    requires u == System(cs[k].nodes[i := cs[a].nodes[i]], Left(cs, acts, i, a, k))
    ensures Enabled(u, acts[k].0, acts[k].1)
  {
    hide Left, R.RunBy;
  }

  /** A node may stop at any time, as long as messages leave it only once its Ready is stored. Started again
      from what is on disk, it and the others are in a state that a run of the cluster reaches with a
      restart, and storing begins anew from there. */
  lemma CrashIsRestart(cs: seq<System>, acts: seq<(NodeId, Action)>, i: NodeId, max: nat, ss: seq<Keeper>, k: nat,
                       applied: nat)
    returns (us: seq<System>)
    requires R.RunBy(cs, acts) && KeeperRun(cs, i, max, ss) && k < |ss| && applied <= ss[k].disk.hard.commit
    requires ss[k].at <= ss[k].now <= |acts| && Withheld(cs, acts, i, ss[k].at, ss[k].now)
    ensures var s := ss[k];
      && us != [] && Run(us) && At(cs, i, s.at) && At(cs, i, s.now)
      && us[|us| - 1].nodes == cs[s.now].nodes[i := FromDisk(cs[s.at].nodes[i].cfg, s.disk, applied)]
      && us[|us| - 1].net == Left(cs, acts, i, s.at, s.now)
      && Begins(us, i, Anew(|us| - 1, s.disk, applied))
  {
    hide Run, R.RunBy, Act, Enabled, Withheld, KeeperRun, FromDisk, Rebooted, Begins;
    var s := ss[k];
    var x := Restart(applied, s.disk.hard.commit);
    RunByRun(cs, acts);
    StoredIsRestart(cs, i, max, ss, k, applied);
    us := Undone(cs, acts, i, s.at, s.now);
    var u := us[|us| - 1];
    SameRestart(cs[s.at], u, i, applied, s.disk.hard.commit);
    RunExtends(us, i, x);
    RunNodes(cs, s.at, i);
    RestartAfter(u, i, applied, s.disk.hard.commit);
    us := us + [After(u, i, x)];
    FromDiskFields(u.nodes[i].cfg, s.disk, applied);
    BeginsAgain(us, i, s.disk, applied);
  }

  lemma SameRestart(c: System, u: System, i: NodeId, applied: nat, committed: nat)
    requires i in c.nodes && i in u.nodes && u.nodes[i] == c.nodes[i] && Enabled(c, i, Restart(applied, committed))
    ensures Enabled(u, i, Restart(applied, committed))
  {
  }

  lemma RestartAfter(u: System, i: NodeId, applied: nat, committed: nat)
    requires i in u.nodes && u.nodes[i].msgs == []
    ensures After(u, i, Restart(applied, committed)) ==
      System(u.nodes[i := Rebooted(u.nodes[i], applied, committed)], u.net)
  {
    var n := Rebooted(u.nodes[i], applied, committed);
    assert n.(msgs := []) == n && u.net + {} == u.net;
    assert Sent(n) == {};
  }

  lemma FromDiskFields(cfg: Config, d: Disk, applied: nat)
    ensures var n := FromDisk(cfg, d, applied);
      n.log == d.log && n.term == d.hard.term && n.vote == d.hard.vote && n.committed == d.hard.commit
  {
  }

  lemma BeginsAgain(us: seq<System>, i: NodeId, d: Disk, applied: nat)
    requires us != [] && i in us[|us| - 1].nodes && applied <= d.hard.commit
    requires var n := us[|us| - 1].nodes[i];
      n.log == d.log && n.term == d.hard.term && n.vote == d.hard.vote && n.committed == d.hard.commit
    ensures Begins(us, i, Anew(|us| - 1, d, applied))
  {
  }
}
