/** How a leader brings a follower's log in line with its own (src/raft.cc, src/progress.cc): append
    messages, rejections with a hint, the next index that moves back and then forward, and the window
    of messages that may be under way. Leader and follower are nodes that step, joined by two
    channels that keep the order of messages and lose none. */
module Repair {
  import opened Types
  import opened Logs
  import opened Progresses
  import opened Nodes
  import opened NodeLocal
  import opened RaftLogs
  import C = Cluster

  // ---------------------------------------------------------------- two nodes and their channels

  /** A leader, a follower, and the messages under way between them, oldest first. */
  datatype Link = Link(l: Node, f: Node, toF: seq<Message>, toL: seq<Message>)

  /** The messages that replication is made of; others do not touch the log or the leader's record. */
  predicate Replicates(k: MsgType) {
    k.MsgApp? || k.MsgAppResp? || k.MsgHeartbeat? || k.MsgHeartbeatResp?
  }

  /** Those of the messages that are addressed to a node, in order. */
  function Out(ms: seq<Message>, to: NodeId): seq<Message> {
    if ms == [] then []
    else
      var rest := Out(ms[..|ms| - 1], to);
      if ms[|ms| - 1].to == to && Replicates(ms[|ms| - 1].kind) then rest + [ms[|ms| - 1]] else rest
  }

  /** The follower takes the oldest message that is under way to it. */
  function ToFollower(x: Link): Link
    requires x.toF != []
  {
    var f := Step(x.f, x.toF[0]);
    Link(x.l, f.(msgs := []), x.toF[1..], x.toL + Out(f.msgs, x.l.cfg.id))
  }

  /** The leader takes the oldest message that is under way to it. */
  function ToLeader(x: Link): Link
    requires x.toL != []
  {
    var l := Step(x.l, x.toL[0]);
    Link(l.(msgs := []), x.f, x.toF + Out(l.msgs, x.f.cfg.id), x.toL[1..])
  }

  /** One delivery, if there is anything to deliver; when there is in both directions, the schedule
      says which comes first. */
  function Turn(x: Link, follower: bool): Link {
    if x.toF != [] && (follower || x.toL == []) then ToFollower(x) else if x.toL != [] then ToLeader(x) else x
  }

  function Turns(x: Link, sched: nat -> bool, n: nat): Link {
    if n == 0 then x else Turn(Turns(x, sched, n - 1), sched(n - 1))
  }

  predicate Idle(x: Link) {
    x.toF == [] && x.toL == []
  }

  /** Once nothing is under way, nothing happens any more. */
  lemma {:induction false} IdleStays(x: Link, sched: nat -> bool, n: nat, n': nat)
    requires n <= n' && Idle(Turns(x, sched, n))
    ensures Turns(x, sched, n') == Turns(x, sched, n)
    decreases n'
  {
    hide ToFollower, ToLeader;
    if n < n' { IdleStays(x, sched, n, n' - 1); }
  }

  /** The leader sends the follower an append message, as it does when it has something to announce. */
  function Kick(x: Link): Link {
    var l := SendAppend(x.l, x.f.cfg.id);
    Link(l.(msgs := []), x.f, x.toF + Out(l.msgs, x.f.cfg.id), x.toL)
  }

  // ---------------------------------------------------------------- what is given

  /** What does not change: the two nodes, the leader's term and its log. */
  datatype Line = Line(i: NodeId, j: NodeId, term: nat, log: Log)

  /** The leader's log has real terms. */
  ghost predicate LeaderLog(log: Log) {
    && WellIndexed(log) && log != []
    && forall x :: 0 <= x < |log| ==> log[x].term > 0
  }

  /** A leader between two steps that is not handing over to the follower. */
  ghost predicate Leads(c: Line, l: Node) {
    && Local(l) && l.role.Leader? && l.cfg.id == c.i && c.i != c.j && c.j in l.prs && l.term == c.term && l.log == c.log
    && l.leadTransferee != c.j && l.msgs == [] && Pr(l, c.j).next <= |c.log| + 1 && LeaderLog(c.log)
  }

  /** What the exchange sees of the follower. */
  datatype Peer = Peer(log: Log, committed: nat)

  function View(f: Node): Peer {
    Peer(f.log, f.committed)
  }

  /** The follower agrees with the leader on what it has committed and, by log matching, on whatever
      has the same term; it has the leader's log, or lacks the leader's last entry. */
  ghost predicate Behind(log: Log, p: Peer) {
    && WellIndexed(p.log) && p.committed <= |p.log| && Agree(log, p.log, p.committed)
    && Matching(p.log, log)
    && (p.log == log || TermAt(p.log, |log|) != LastTerm(log))
  }

  /** A node that will listen to the leader. */
  ghost predicate Listens(c: Line, f: Node) {
    && f.cfg.id == c.j && f.term <= c.term && (f.term == c.term ==> !f.role.Leader?) && f.msgs == []
    && Behind(c.log, View(f))
  }

  ghost predicate Linked(c: Line, x: Link) {
    Leads(c, x.l) && Listens(c, x.f) && Agree(c.log, x.f.log, Pr(x.l, c.j).matched)
  }

  /** Nothing is under way, and what is recorded as matched is. */
  ghost predicate Ready(c: Line, x: Link) {
    Linked(c, x) && Idle(x)
  }

  ghost predicate Repaired(c: Line, x: Link) {
    x.f.log == c.log && Pr(x.l, c.j).matched == |c.log|
  }

  // ---------------------------------------------------------------- the follower

  /** What the exchange sees of an answer to an append message. */
  datatype Reply = Reply(index: nat, reject: bool, hint: nat)

  /** `handleAppendEntries`. */
  function Receive(p: Peer, index: nat, logTerm: nat, commit: nat, ents: seq<Entry>): (Peer, Reply) {
    if index < p.committed then (p, Reply(p.committed, false, 0))
    else
      var r := MaybeAppend(p.log, p.committed, index, logTerm, commit, ents);
      if r.ok then (Peer(r.log, r.committed), Reply(r.last, false, 0)) else (p, Reply(index, true, |p.log|))
  }

  /** The handler of a node does to its log, and answers, exactly this. */
  lemma ReceiveIsHandler(n: Node, m: Message)
    ensures var n' := HandleAppendEntries(n, m);
      var (p, r) := Receive(View(n), m.index, m.logTerm, m.commit, m.entries);
      && View(n') == p && n'.cfg == n.cfg && n'.term == n.term && n'.role == n.role
      && n'.msgs == n.msgs + [
           Stamped(n, Blank(MsgAppResp, m.from).(index := r.index, reject := r.reject, rejectHint := r.hint))]
  {
    hide MaybeAppend, Send, Stamped;
    var r := MaybeAppend(n.log, n.committed, m.index, m.logTerm, m.commit, m.entries);
    RefusalKeeps(n.log, n.committed, m.index, m.logTerm, m.commit, m.entries);
    Answered(n, n, Blank(MsgAppResp, m.from).(index := n.committed));
    var n1 := (if r.panic then Panic(n) else n).(log := r.log, committed := r.committed);
    Answered(n, n1, Blank(MsgAppResp, m.from).(index := r.last));
    Answered(n, n1, Blank(MsgAppResp, m.from).(index := m.index, reject := true, rejectHint := LastIndex(n)));
  }

  lemma RefusalKeeps(log: Log, committed: nat, index: nat, logTerm: nat, commit: nat, ents: seq<Entry>)
    ensures var r := MaybeAppend(log, committed, index, logTerm, commit, ents);
      !r.ok ==> r.log == log && r.committed == committed
  {
  }

  lemma Answered(n: Node, n1: Node, m: Message)
    requires n1.cfg == n.cfg && n1.term == n.term && n1.msgs == n.msgs && n1.role == n.role && !BadTerm(m)
    ensures var n' := Send(n1, m);
      && n'.msgs == n.msgs + [Stamped(n, m)] && View(n') == View(n1)
      && n'.cfg == n.cfg && n'.term == n.term && n'.role == n.role
  {
  }

  /** The answer as it travels. */
  function Answer(c: Line, r: Reply): Message {
    Message(MsgAppResp, c.i, c.j, c.term, 0, r.index, [], 0, r.reject, r.hint, "")
  }

  /** Whatever its role, a node of the same or an earlier term takes a leader's append message by its
      handler, and follows that leader from then on. */
  lemma FollowerAnswers(c: Line, f: Node, m: Message)
    requires Listens(c, f) && m.kind.MsgApp? && m.from == c.i && m.term == c.term && c.term > 0
    ensures var (p, r) := Receive(View(f), m.index, m.logTerm, m.commit, m.entries);
      var f' := Step(f, m);
      && View(f') == p && f'.cfg == f.cfg && f'.term == c.term && f'.role.Follower? && f'.msgs == [Answer(c, r)]
  {
    hide Behind, HandleAppendEntries, Receive, Reset;
    FollowFrame(f, c.term, c.i);
    var n := if m.term == f.term && f.role.Follower? then f.(electionElapsed := 0, lead := m.from)
             else BecomeFollower(f, c.term, c.i);
    StepIsHandler(c, f, m, n);
    ReceiveIsHandler(n, m);
  }

  lemma FollowFrame(n: Node, term: nat, lead: NodeId)
    ensures var n' := BecomeFollower(n, term, lead);
      && n'.cfg == n.cfg && View(n') == View(n) && n'.msgs == n.msgs && n'.role.Follower? && n'.term == term
      && n'.lead == lead && n'.electionElapsed == 0
  {
  }

  lemma StepIsHandler(c: Line, f: Node, m: Message, n: Node)
    requires m.kind.MsgApp? && m.from == c.i && m.term == c.term && c.term > 0
    requires f.term <= c.term && (f.term == c.term ==> !f.role.Leader?)
    requires n == if m.term == f.term && f.role.Follower? then f.(electionElapsed := 0, lead := m.from)
                  else BecomeFollower(f, c.term, c.i)
    ensures Step(f, m) == HandleAppendEntries(n, m)
  {
    hide HandleAppendEntries, Reset;
    FollowFrame(f, c.term, c.i);
    assert n.(electionElapsed := 0, lead := m.from) == n;
  }

  // ---------------------------------------------------------------- one message

  /** Where the terms match, by log matching, so do the logs. */
  lemma TermsMatch(log: Log, p: Peer, i: nat)
    requires LeaderLog(log) && Behind(log, p) && i <= |log| && TermAt(p.log, i) == TermAt(log, i)
    ensures Agree(log, p.log, i)
  {
  }

  /** A message does not contradict what the follower has committed. */
  lemma NoCommittedConflict(log: Log, p: Peer, prev: nat, ents: seq<Entry>)
    requires LeaderLog(log) && Behind(log, p) && prev + |ents| <= |log| && ents == log[prev..prev + |ents|]
    ensures var ci := FindConflict(p.log, ents); ci == 0 || ci > p.committed
  {
    ConflictPoint(p.log, ents, prev);
  }

  /** What an accepted message leaves: agreement up to its end, and either the old log or exactly
      the leader's up to there. */
  lemma AcceptedLog(log: Log, p: Peer, prev: nat, ents: seq<Entry>, commit: nat)
    requires LeaderLog(log) && Behind(log, p) && prev + |ents| <= |log| && ents == log[prev..prev + |ents|]
    requires commit <= |log|
    requires TermAt(p.log, prev) == TermAt(log, prev)
    ensures var r := MaybeAppend(p.log, p.committed, prev, TermAt(log, prev), commit, ents);
      && r.ok && !r.panic && r.last == prev + |ents|
      && (if FindConflict(p.log, ents) == 0 then r.log == p.log && Agree(log, p.log, r.last) else r.log == log[..r.last])
      && r.committed == Max(p.committed, Min(commit, r.last)) && p.committed <= |r.log|
  {
    hide MaybeAppend;
    var r := MaybeAppend(p.log, p.committed, prev, TermAt(log, prev), commit, ents);
    MaybeAppendCorrect(p.log, p.committed, prev, TermAt(log, prev), commit, ents);
    NoCommittedConflict(log, p, prev, ents);
    TermsMatch(log, p, prev);
    if FindConflict(p.log, ents) == 0 {
      KeptAgrees(log, p, prev, ents);
    } else {
      CutAgrees(log, p, prev, ents, r.log);
      ConflictPoint(p.log, ents, prev);
    }
  }

  lemma KeptAgrees(log: Log, p: Peer, prev: nat, ents: seq<Entry>)
    requires LeaderLog(log) && Behind(log, p) && prev + |ents| <= |log| && ents == log[prev..prev + |ents|]
    requires Agree(log, p.log, prev) && FindConflict(p.log, ents) == 0
    ensures Agree(log, p.log, prev + |ents|)
  {
    ConflictPoint(p.log, ents, prev);
    if ents != [] {
      var k := |ents| - 1;
      assert TermAt(p.log, prev + 1 + k) == ents[k].term;
      TermsMatch(log, p, prev + |ents|);
    }
  }

  lemma CutAgrees(log: Log, p: Peer, prev: nat, ents: seq<Entry>, r: Log)
    requires LeaderLog(log) && Behind(log, p) && prev + |ents| <= |log| && ents == log[prev..prev + |ents|]
    requires Agree(log, p.log, prev) && Written(p.log, prev, ents, false, r)
    ensures r == log[..prev + |ents|]
  {
    forall x | 0 <= x < |r|
      ensures r[x] == log[x]
    {
      if x >= prev {
        var i := x - prev;
        assert ents[i] == log[x];
        assert r[prev + i].term == ents[i].term;
        if x < |p.log| && r[x] == p.log[x] {
          assert TermAt(p.log, x + 1) == TermAt(log, x + 1);
          TermsMatch(log, p, x + 1);
        }
      }
    }
  }

  lemma StillBehind(log: Log, p: Peer, last: nat, p': Peer)
    requires LeaderLog(log) && Behind(log, p) && last <= |log|
    requires (p'.log == p.log && Agree(log, p.log, last)) || p'.log == log[..last]
    requires p.committed <= p'.committed <= Max(p.committed, last) && p.committed <= |p'.log|
    ensures Behind(log, p') && Agree(log, p'.log, last)
  {
    if p'.log != p.log && last == |log| { assert log[..last] == log; }
  }

  /** How far the follower is in line after it answered a message: up to what it has committed, if
      the message starts below that, and otherwise up to the end of the message. */
  function Reach(p: Peer, prev: nat, ents: seq<Entry>): nat {
    if prev < p.committed then p.committed else prev + |ents|
  }

  /** A slice of the leader's log is refused, or brings the follower in line as far as it reaches. */
  lemma Received(log: Log, p: Peer, prev: nat, ents: seq<Entry>, commit: nat)
    requires LeaderLog(log) && Behind(log, p) && prev + |ents| <= |log| && ents == log[prev..prev + |ents|]
    requires commit <= |log|
    ensures var (p', r) := Receive(p, prev, TermAt(log, prev), commit, ents);
      && Behind(log, p') && p.committed <= p'.committed
      && (r.reject <==> p.committed <= prev && TermAt(p.log, prev) != TermAt(log, prev))
      && (r.reject ==> p' == p && r == Reply(prev, true, |p.log|))
      && (!r.reject ==>
            r == Reply(Reach(p, prev, ents), false, 0) && Agree(log, p'.log, r.index) && p'.committed <= r.index)
      && (!r.reject && Agree(log, p.log, r.index) ==> p'.log == p.log)
  {
    hide MaybeAppend, Behind, LeaderLog;
    if prev < p.committed {
      CommittedAgrees(log, p);
    } else if TermAt(p.log, prev) == TermAt(log, prev) {
      AcceptedLog(log, p, prev, ents, commit);
      var r := MaybeAppend(p.log, p.committed, prev, TermAt(log, prev), commit, ents);
      StillBehind(log, p, r.last, Peer(r.log, r.committed));
      if Agree(log, p.log, r.last) { NoConflict(log, p.log, prev, ents); }
    } else {
      AppendRejects(p.log, p.committed, prev, TermAt(log, prev), commit, ents);
    }
  }

  lemma CommittedAgrees(log: Log, p: Peer)
    requires Behind(log, p)
    ensures Agree(log, p.log, p.committed)
  {
  }

  lemma NoConflict(log: Log, log': Log, prev: nat, ents: seq<Entry>)
    requires LeaderLog(log) && prev + |ents| <= |log| && ents == log[prev..prev + |ents|] && Agree(log, log', prev + |ents|)
    ensures FindConflict(log', ents) == 0
  {
    ConflictPoint(log', ents, prev);
  }

  // ---------------------------------------------------------------- slices of the leader's log

  ghost predicate Slice(c: Line, m: Message, prev: nat) {
    && m.kind.MsgApp? && m.to == c.j && m.from == c.i && m.term == c.term
    && m.index == prev && m.logTerm == TermAt(c.log, prev) && m.commit <= |c.log|
    && prev + |m.entries| <= |c.log| && m.entries == c.log[prev..prev + |m.entries|]
  }

  /** Consecutive slices. */
  ghost predicate Chain(c: Line, ms: seq<Message>, prev: nat) {
    ms == [] || (Slice(c, ms[0], prev) && Chain(c, ms[1..], prev + |ms[0].entries|))
  }

  function End(ms: seq<Message>, prev: nat): nat {
    if ms == [] then prev else End(ms[1..], prev + |ms[0].entries|)
  }

  lemma {:induction false} ChainGrows(c: Line, ms: seq<Message>, prev: nat, ms': seq<Message>)
    requires Chain(c, ms, prev) && Chain(c, ms', End(ms, prev))
    ensures Chain(c, ms + ms', prev) && End(ms + ms', prev) == End(ms', End(ms, prev))
    decreases |ms|
  {
    hide Slice;
    if ms == [] {
      assert ms + ms' == ms';
    } else {
      assert (ms + ms')[1..] == ms[1..] + ms';
      ChainGrows(c, ms[1..], prev + |ms[0].entries|, ms');
    }
  }

  lemma ChainOne(c: Line, m: Message, prev: nat)
    requires Slice(c, m, prev)
    ensures Chain(c, [m], prev) && End([m], prev) == prev + |m.entries|
  {
    hide Slice;
    assert [m][1..] == [];
  }

  lemma OutOne(ms: seq<Message>, m: Message, to: NodeId)
    ensures Out(ms + [m], to) == if m.to == to && Replicates(m.kind) then Out(ms, to) + [m] else Out(ms, to)
  {
    assert (ms + [m])[..|ms + [m]| - 1] == ms;
  }

  // ---------------------------------------------------------------- what the leader sends

  /** The node is in the middle of a step of the leader in which it has sent the follower consecutive
      slices from s up to its next index. */
  ghost predicate Fed(c: Line, s: nat, n: Node) {
    && Local(n) && n.role.Leader? && n.cfg.id == c.i && c.i != c.j && c.j in n.prs && n.term == c.term && n.log == c.log
    && n.leadTransferee != c.j && LeaderLog(c.log)
    && Pr(n, c.j).state.Replicate? && Chain(c, Out(n.msgs, c.j), s)
    && Pr(n, c.j).next == End(Out(n.msgs, c.j), s) + 1 && Pr(n, c.j).next <= |c.log| + 1
  }

  /** A send to the follower is the next slice; one to another peer does not concern it. */
  lemma FedSend(c: Line, s: nat, n: Node, to: NodeId, sendIfEmpty: bool)
    requires Fed(c, s, n) && to in n.prs
    ensures var (n', sent) := MaybeSendAppend(n, to, sendIfEmpty);
      && Fed(c, s, n') && n'.cfg == n.cfg && Pr(n', c.j).matched == Pr(n, c.j).matched
      && (to != c.j ==> Pr(n', c.j) == Pr(n, c.j) && Out(n'.msgs, c.j) == Out(n.msgs, c.j))
      && (to == c.j && sent ==> |Out(n'.msgs, c.j)| == |Out(n.msgs, c.j)| + 1)
      && |Out(n.msgs, c.j)| <= |Out(n'.msgs, c.j)|
  {
    hide Local, Chain, End, Out, MaybeSendAppend, AppendMsg, LeaderLog, Slice, EntriesFrom, Stamped, IsPaused;
    hide ProgressSent, Pipelined, PrsOK;
    PeerWindow(n, to);
    MaybeSendAppendLocal(n, to, sendIfEmpty);
    MaybeSendAppendFrame(n, to, sendIfEmpty);
    var (n', sent) := MaybeSendAppend(n, to, sendIfEmpty);
    if sent {
      var m := Stamped(n, AppendMsg(n, to));
      AppendAddress(n, to);
      OutOne(n.msgs, m, c.j);
      if to == c.j {
        AppendSlice(c, n);
        EntriesAre(n, Pr(n, c.j).next);
        SentParts(Pr(n, c.j), c.log, |m.entries|);
        ChainOne(c, m, Pr(n, c.j).next - 1);
        ChainGrows(c, Out(n.msgs, c.j), s, [m]);
      }
    }
  }

  lemma AppendAddress(n: Node, to: NodeId)
    ensures Stamped(n, AppendMsg(n, to)).to == to && Stamped(n, AppendMsg(n, to)).kind.MsgApp?
  {
  }

  lemma AppendSlice(c: Line, n: Node)
    requires Local(n) && n.cfg.id == c.i && c.j in n.prs && n.term == c.term && n.log == c.log
    requires Pr(n, c.j).next <= |c.log| + 1
    ensures var pr := Pr(n, c.j);
      var m := Stamped(n, AppendMsg(n, c.j));
      && pr.next >= 1 && Slice(c, m, pr.next - 1) && m.entries == EntriesFrom(n, pr.next)
      && (m.entries == [] <==> pr.next == |c.log| + 1)
      && (pr.state.Replicate? ==> ProgressSent(pr, m.entries).next == pr.next + |m.entries|)
      && (!pr.state.Replicate? ==> ProgressSent(pr, m.entries).next == pr.next)
  {
    hide Local, PrsOK, Pipelined, EntriesFrom, ProgressSent, AppendMsg, Slice;
    PeerWindow(n, c.j);
    CommitInLog(n);
    var pr := Pr(n, c.j);
    EntriesAre(n, pr.next);
    MessageSlice(c, n, |EntriesFrom(n, pr.next)|);
    SentParts(pr, c.log, |EntriesFrom(n, pr.next)|);
  }

  lemma EntriesAre(n: Node, next: nat)
    requires 1 <= next <= |n.log| + 1
    ensures var es := EntriesFrom(n, next);
      && next - 1 + |es| <= |n.log| && es == n.log[next - 1..next - 1 + |es|] && (es == [] <==> next == |n.log| + 1)
  {
    hide EntriesFrom;
    if next <= |n.log| {
      EntriesFromAt(n, next);
    } else {
      EntriesFromNone(n, next);
    }
  }

  lemma MessageSlice(c: Line, n: Node, k: nat)
    requires n.cfg.id == c.i && n.term == c.term && n.log == c.log && n.committed <= |n.log|
    requires var next := Pr(n, c.j).next;
      1 <= next && next - 1 + k <= |c.log| && EntriesFrom(n, next) == c.log[next - 1..next - 1 + k]
    ensures var m := Stamped(n, AppendMsg(n, c.j));
      Slice(c, m, Pr(n, c.j).next - 1) && m.entries == EntriesFrom(n, Pr(n, c.j).next)
  {
    hide Slice, EntriesFrom, TermAt, Pr;
    SliceIs(c, Stamped(n, AppendMsg(n, c.j)), Pr(n, c.j).next - 1, k);
  }

  lemma SliceIs(c: Line, m: Message, prev: nat, k: nat)
    requires m.kind.MsgApp? && m.to == c.j && m.from == c.i && m.term == c.term
    requires m.index == prev && m.logTerm == TermAt(c.log, prev) && m.commit <= |c.log|
    requires prev + k <= |c.log| && m.entries == c.log[prev..prev + k]
    ensures Slice(c, m, prev)
  {
    hide TermAt;
    assert |m.entries| == k;
  }

  lemma CommitInLog(n: Node)
    requires Local(n)
    ensures n.committed <= |n.log| && n.cfg.maxInflight > 0 && forall p :: p in n.cfg.peers ==> p in n.prs
  {
  }

  lemma {:induction false} FedBcast(c: Line, s: nat, n: Node, ps: seq<NodeId>)
    requires Fed(c, s, n) && forall x :: 0 <= x < |ps| ==> ps[x] in n.cfg.peers
    ensures var n' := BcastAppend(n, ps);
      && Fed(c, s, n') && n'.cfg == n.cfg && Pr(n', c.j).matched == Pr(n, c.j).matched
      && |Out(n.msgs, c.j)| <= |Out(n'.msgs, c.j)|
      && (c.j in ps && !IsPaused(Pr(n, c.j), n.cfg.maxInflight) ==> |Out(n.msgs, c.j)| < |Out(n'.msgs, c.j)|)
      && (IsPaused(Pr(n, c.j), n.cfg.maxInflight) ==> Out(n'.msgs, c.j) == Out(n.msgs, c.j) && Pr(n', c.j) == Pr(n, c.j))
    decreases |ps|
  {
    hide Out, MaybeSendAppend, IsPaused, Chain, End, Local;
    if ps != [] {
      if ps[0] == n.cfg.id {
        FedBcast(c, s, n, ps[1..]);
      } else {
        CommitInLog(n);
        FedSend(c, s, n, ps[0], true);
        Sends(n, ps[0]);
        FedBcast(c, s, SendAppend(n, ps[0]), ps[1..]);
      }
    }
  }

  /** A peer that is not paused is sent something, one that is, nothing. */
  lemma Sends(n: Node, to: NodeId)
    requires Local(n) && to in n.prs
    ensures var (n', sent) := MaybeSendAppend(n, to, true);
      (sent <==> !IsPaused(Pr(n, to), n.cfg.maxInflight)) && (!sent ==> n' == n)
  {
    hide Local, MaybeSendAppend, IsPaused;
    PeerWindow(n, to);
    MaybeSendAppendFrame(n, to, true);
  }

  lemma {:induction false} FedLoop(c: Line, s: nat, n: Node)
    requires Fed(c, s, n)
    ensures var n' := SendLoop(n, c.j);
      && Fed(c, s, n') && n'.cfg == n.cfg && Pr(n', c.j).matched == Pr(n, c.j).matched
      && |Out(n.msgs, c.j)| <= |Out(n'.msgs, c.j)|
      && (IsPaused(Pr(n', c.j), n.cfg.maxInflight) || Pr(n', c.j).next > |c.log|)
      && (if IsPaused(Pr(n, c.j), n.cfg.maxInflight) || Pr(n, c.j).next > |c.log| then n' == n
          else |Out(n.msgs, c.j)| < |Out(n'.msgs, c.j)|)
    decreases SendBudget(n, c.j)
  {
    hide Out, MaybeSendAppend, IsPaused, Chain, End, Local, SendBudget;
    MaybeSendAppendLocal(n, c.j, false);
    FedSend(c, s, n, c.j, false);
    LoopsOnce(n, c.j);
    var (n1, sent) := MaybeSendAppend(n, c.j, false);
    if sent { FedLoop(c, s, n1); }
  }

  lemma LoopsOnce(n: Node, to: NodeId)
    requires Local(n) && to in n.prs
    ensures var (n', sent) := MaybeSendAppend(n, to, false);
      && (sent <==> !IsPaused(Pr(n, to), n.cfg.maxInflight) && Pr(n, to).next <= |n.log|)
      && SendLoop(n, to) == (if sent then SendLoop(n', to) else n')
      && (!sent ==> n' == n)
  {
    hide Local, MaybeSendAppend, IsPaused, EntriesFrom, SendBudget;
    PeerWindow(n, to);
    MaybeSendAppendLocal(n, to, false);
    MaybeSendAppendFrame(n, to, false);
    if Pr(n, to).next <= |n.log| { EntriesFromAt(n, Pr(n, to).next); } else { EntriesFromNone(n, Pr(n, to).next); }
  }

  // ---------------------------------------------------------------- what the leader makes of an answer

  /** The leader once it has recorded that the follower is in line up to index a, before it sends. */
  function Acked(l: Node, j: NodeId, a: nat): Node {
    var pr := MaybeUpdate(Pr(l, j).(recentActive := true), a).0;
    SetPr(SetPr(l, j, Pr(l, j).(recentActive := true)), j, Advanced(pr, a))
  }

  /** Whether it then sends the follower anything. */
  predicate Resumes(l: Node, j: NodeId, a: nat) {
    var l1 := Acked(l, j, a);
    && !IsPaused(Pr(l1, j), l.cfg.maxInflight)
    && (MaybeCommit(l1).1 || IsPaused(Pr(l, j), l.cfg.maxInflight) || Pr(l1, j).next <= |l.log|)
  }

  lemma AckedProgress(pr: Progress, a: nat, cap: nat, last: nat)
    requires Pipelined(pr, cap) && !pr.state.Snapshot? && pr.matched < a <= last && pr.next <= last + 1
    ensures var pr' := Advanced(MaybeUpdate(pr.(recentActive := true), a).0, a);
      && Pipelined(pr', cap) && pr'.state.Replicate? && pr'.matched == a && a < pr'.next <= last + 1
      && (pr.state.Probe? || pr.next <= a + 1 ==> pr'.next == a + 1)
      && (pr.state.Replicate? && pr.next > a + 1 ==> pr'.next == pr.next)
  {
    hide FreeTo, Increasing;
    AdvancedPipelined(pr.(recentActive := true), a, cap);
  }

  lemma AckedFed(c: Line, l: Node, a: nat)
    requires Leads(c, l) && Pr(l, c.j).matched < a <= |c.log|
    ensures var l1 := Acked(l, c.j, a);
      && c.j in l1.prs && a < Pr(l1, c.j).next && Fed(c, Pr(l1, c.j).next - 1, l1)
      && Pr(l1, c.j).matched == a && l1.cfg == l.cfg && l1.term == l.term && l1.log == l.log && Out(l1.msgs, c.j) == []
  {
    hide Local, Advanced, MaybeUpdate, Pipelined, LeaderLog;
    PeerWindow(l, c.j);
    var pr := l.prs[c.j];
    AckedProgress(pr, a, l.cfg.maxInflight, |c.log|);
    var n1 := SetPr(l, c.j, pr.(recentActive := true));
    RecentPipelined(pr, l.cfg.maxInflight);
    SetPrLocal(l, c.j, pr.(recentActive := true));
    SetPrLocal(n1, c.j, Advanced(MaybeUpdate(pr.(recentActive := true), a).0, a));
  }

  lemma RecentPipelined(pr: Progress, cap: nat)
    requires Pipelined(pr, cap)
    ensures Pipelined(pr.(recentActive := true), cap)
  {
  }

  /** The step, put together from the parts of the handler. */
  lemma AcceptanceStep(c: Line, l: Node, a: nat)
    requires Leads(c, l) && Pr(l, c.j).matched < a && c.term > 0
    ensures var (l2, moved) := MaybeCommit(Acked(l, c.j, a));
      Step(l, Answer(c, Reply(a, false, 0))) ==
      FinishTransfer(SendLoop(AfterAck(l2, moved, IsPaused(Pr(l, c.j), l.cfg.maxInflight), c.j), c.j), c.j)
  {
    hide Local, LeaderLog, MaybeCommit, SendLoop, AfterAck, FinishTransfer, Advanced;
  }

  lemma CommittedFed(c: Line, s: nat, n: Node)
    requires Fed(c, s, n) && n.term > 0
    ensures var n' := MaybeCommit(n).0;
      Fed(c, s, n') && n'.cfg == n.cfg && Pr(n', c.j) == Pr(n, c.j) && n'.msgs == n.msgs
  {
    hide Local, LeaderLog, MaybeCommit, Chain, End, Out;
    MaybeCommitLocal(n);
  }

  lemma AfterAckFed(c: Line, s: nat, n: Node, moved: bool, paused: bool)
    requires Fed(c, s, n)
    ensures var n' := AfterAck(n, moved, paused, c.j);
      && Fed(c, s, n') && n'.cfg == n.cfg && Pr(n', c.j).matched == Pr(n, c.j).matched
      && |Out(n.msgs, c.j)| <= |Out(n'.msgs, c.j)|
      && (if (moved || paused) && !IsPaused(Pr(n, c.j), n.cfg.maxInflight) then |Out(n.msgs, c.j)| < |Out(n'.msgs, c.j)|
          else Out(n'.msgs, c.j) == Out(n.msgs, c.j) && Pr(n', c.j) == Pr(n, c.j))
  {
    hide Local, LeaderLog, Chain, End, Out, IsPaused, MaybeSendAppend, BcastAppend;
    IsPeer(n, c.j);
    FedBcast(c, s, n, n.cfg.peers);
    FedSend(c, s, n, c.j, true);
    Sends(n, c.j);
  }

  lemma IsPeer(n: Node, p: NodeId)
    requires Local(n) && p in n.prs
    ensures p in n.cfg.peers
  {
  }

  lemma NoTransfer(c: Line, s: nat, n: Node)
    requires Fed(c, s, n)
    ensures FinishTransfer(n, c.j) == n
  {
  }

  /** A leader that hears of something new records it and sends consecutive slices, until the window
      is full or nothing is left. */
  lemma HearsAcceptance(c: Line, l: Node, a: nat)
    requires Leads(c, l) && c.term > 0 && Pr(l, c.j).matched < a <= |c.log|
    ensures var l' := Step(l, Answer(c, Reply(a, false, 0)));
      var pr := Pr(Acked(l, c.j, a), c.j);
      && pr.next > a && Fed(c, pr.next - 1, l') && l'.cfg == l.cfg && Pr(l', c.j).matched == a
      && (IsPaused(Pr(l', c.j), l.cfg.maxInflight) || Pr(l', c.j).next > |c.log|)
      && (Out(l'.msgs, c.j) != [] <==> Resumes(l, c.j, a))
  {
    hide Local, SendLoop, Out, MaybeCommit, IsPaused, Acked, Fed, LeaderLog, AfterAck, FinishTransfer, Step;
    var l1 := Acked(l, c.j, a);
    AckedFed(c, l, a);
    var s := Pr(l1, c.j).next - 1;
    AcceptanceStep(c, l, a);
    var (l2, moved) := MaybeCommit(l1);
    CommittedFed(c, s, l1);
    var paused := IsPaused(Pr(l, c.j), l.cfg.maxInflight);
    AfterAckFed(c, s, l2, moved, paused);
    var l3 := AfterAck(l2, moved, paused, c.j);
    FedLoop(c, s, l3);
    NoTransfer(c, s, SendLoop(l3, c.j));
  }

  /** An answer that says nothing new: at most the next index moves, and nothing is sent. */
  lemma HearsNothingNew(c: Line, l: Node, a: nat)
    requires Leads(c, l) && c.term > 0 && a <= Pr(l, c.j).matched <= |c.log|
    ensures var l' := Step(l, Answer(c, Reply(a, false, 0)));
      && Leads(c, l') && l'.cfg == l.cfg
      && Pr(l', c.j) == Pr(l, c.j).(recentActive := true, next := Max(Pr(l, c.j).next, a + 1))
  {
    hide Local, LeaderLog, PrsOK, Pipelined;
    PeerWindow(l, c.j);
    var m := Answer(c, Reply(a, false, 0));
    StepLocal(l, m);
    var n1 := SetPr(l, c.j, Pr(l, c.j).(recentActive := true));
    assert Step(l, m) == SetPr(n1, c.j, MaybeUpdate(Pr(n1, c.j), a).0);
  }

  /** A refusal that is not the answer to the last probe is ignored. */
  lemma HearsStale(c: Line, l: Node, index: nat, hint: nat)
    requires Leads(c, l) && c.term > 0 && Pr(l, c.j).state.Probe? && index >= Pr(l, c.j).next
    ensures var l' := Step(l, Answer(c, Reply(index, true, hint)));
      Leads(c, l') && l'.cfg == l.cfg && Pr(l', c.j) == Pr(l, c.j).(recentActive := true)
  {
    hide Local, LeaderLog;
    var m := Answer(c, Reply(index, true, hint));
    StepLocal(l, m);
    var n1 := SetPr(l, c.j, Pr(l, c.j).(recentActive := true));
    assert Step(l, m) == SetPr(n1, c.j, Pr(n1, c.j));
  }

  /** The node is in the middle of a step of the leader in which it has sent the follower one probe. */
  ghost predicate Probed(c: Line, n: Node) {
    && Leads(c, n.(msgs := [])) && Pr(n, c.j).state.Probe? && Pr(n, c.j).next >= 1
    && |Out(n.msgs, c.j)| == 1 && Slice(c, Out(n.msgs, c.j)[0], Pr(n, c.j).next - 1)
    && (Out(n.msgs, c.j)[0].entries == [] ==> Pr(n, c.j).next == |c.log| + 1)
  }

  /** One message to the follower, if it is not held back. */
  lemma SendsOne(c: Line, n: Node)
    requires Leads(c, n) && !IsPaused(Pr(n, c.j), n.cfg.maxInflight)
    ensures var n', pr := SendAppend(n, c.j), Pr(n, c.j);
      && Leads(c, n'.(msgs := [])) && n'.cfg == n.cfg && pr.next >= 1 && |Out(n'.msgs, c.j)| == 1
      && Pr(n', c.j) == ProgressSent(pr, EntriesFrom(n, pr.next))
      && var m := Out(n'.msgs, c.j)[0];
         && Slice(c, m, pr.next - 1) && m.entries == EntriesFrom(n, pr.next)
         && (m.entries == [] ==> pr.next == |c.log| + 1)
  {
    hide Local, LeaderLog, MaybeSendAppend, AppendMsg, EntriesFrom, Slice, Pipelined, PrsOK, ProgressSent, IsPaused;
    PeerWindow(n, c.j);
    MaybeSendAppendFrame(n, c.j, true);
    MaybeSendAppendLocal(n, c.j, true);
    AppendSlice(c, n);
    AppendAddress(n, c.j);
    OutOne([], Stamped(n, AppendMsg(n, c.j)), c.j);
    var n' := SendAppend(n, c.j);
    assert n'.msgs == [] + [Stamped(n, AppendMsg(n, c.j))];
    FlushLocal(n');
  }

  lemma SentParts(pr: Progress, log: Log, k: nat)
    requires WellIndexed(log) && pr.next >= 1 && pr.next - 1 + k <= |log| && !pr.state.Snapshot?
    ensures var pr' := ProgressSent(pr, log[pr.next - 1..pr.next - 1 + k]);
      && pr'.state == pr.state && pr'.matched == pr.matched
      && pr'.next == if pr.state.Replicate? then pr.next + k else pr.next
  {
  }

  lemma Probes(c: Line, n: Node)
    requires Leads(c, n) && Pr(n, c.j).state.Probe? && !Pr(n, c.j).paused
    ensures var n' := SendAppend(n, c.j);
      && Probed(c, n') && n'.cfg == n.cfg && Pr(n', c.j).matched == Pr(n, c.j).matched
      && Pr(n', c.j).next == Pr(n, c.j).next
      && Out(n'.msgs, c.j)[0].entries == EntriesFrom(n, Pr(n, c.j).next)
  {
    hide Local, SendAppend, EntriesFrom, Out, ProgressSent;
    SendsOne(c, n);
    var m := Out(SendAppend(n, c.j).msgs, c.j)[0];
    SentParts(Pr(n, c.j), c.log, |m.entries|);
  }

  lemma FlushLocal(n: Node)
    requires Local(n)
    ensures Local(n.(msgs := []))
  {
  }

  /** The answer to the last probe, or the first refusal in Replicate: the next index goes back, but
      not to what is matched, and the leader probes there. */
  lemma HearsRefusal(c: Line, l: Node, index: nat, hint: nat)
    requires Leads(c, l) && c.term > 0 && Pr(l, c.j).matched < index <= |c.log|
    requires Pr(l, c.j).state.Probe? ==> Pr(l, c.j).next == index + 1 && Pr(l, c.j).matched <= hint
    ensures var l' := Step(l, Answer(c, Reply(index, true, hint)));
      && Probed(c, l') && l'.cfg == l.cfg && Pr(l', c.j).matched == Pr(l, c.j).matched
      && Pr(l, c.j).matched < Pr(l', c.j).next <= index
      && (Pr(l, c.j).state.Replicate? ==> Pr(l', c.j).next == Pr(l, c.j).matched + 1)
  {
    hide Local, LeaderLog, SendAppend, Pipelined, Probed;
    PeerWindow(l, c.j);
    var pr := Pr(l, c.j).(recentActive := true);
    var pr1 := Refused(pr, index, hint);
    var n1 := SetPr(l, c.j, pr);
    var n2 := SetPr(l, c.j, pr1);
    RefusalStep(c, l, index, hint);
    RefusedPipelined(Pr(l, c.j), index, hint, l.cfg.maxInflight);
    SetPrLocal(l, c.j, pr1);
    Probes(c, n2);
  }

  /** The leader's record of the follower after a refusal. */
  function Refused(pr: Progress, index: nat, hint: nat): Progress {
    var pr1 := MaybeDecrTo(pr, index, hint).0;
    if pr1.state.Replicate? then BecomeProbe(pr1) else pr1
  }

  lemma RefusalStep(c: Line, l: Node, index: nat, hint: nat)
    requires Leads(c, l) && c.term > 0 && Pr(l, c.j).matched < index
    requires !Pr(l, c.j).state.Snapshot? && (Pr(l, c.j).state.Probe? ==> Pr(l, c.j).next == index + 1)
    ensures Step(l, Answer(c, Reply(index, true, hint))) ==
            SendAppend(SetPr(l, c.j, Refused(Pr(l, c.j).(recentActive := true), index, hint)), c.j)
  {
    hide Local, LeaderLog, SendAppend, BecomeProbe;
    var pr := Pr(l, c.j).(recentActive := true);
    var n1 := SetPr(l, c.j, pr);
    assert SetPr(n1, c.j, Refused(pr, index, hint)) == SetPr(l, c.j, Refused(pr, index, hint));
  }

  lemma RefusedPipelined(pr: Progress, index: nat, hint: nat, cap: nat)
    requires Pipelined(pr, cap) && !pr.state.Snapshot? && pr.matched < index
    requires pr.state.Probe? ==> pr.next == index + 1 && pr.matched <= hint
    ensures var pr1 := Refused(pr.(recentActive := true), index, hint);
      && Pipelined(pr1, cap) && pr1.state.Probe? && !pr1.paused && pr1.matched == pr.matched
      && pr.matched < pr1.next <= index
      && (pr.state.Replicate? ==> pr1.next == pr.matched + 1)
  {
  }

  lemma FedLeads(c: Line, s: nat, n: Node)
    requires Fed(c, s, n)
    ensures Leads(c, n.(msgs := []))
  {
    hide Local, LeaderLog, Chain, End, Out;
    FlushLocal(n);
  }

  // ---------------------------------------------------------------- what is under way

  /** The answers accept, none of them beyond e. */
  ghost predicate Acks(c: Line, rs: seq<Message>, e: nat) {
    forall k :: 0 <= k < |rs| ==> rs[k] == Answer(c, Reply(rs[k].index, false, 0)) && rs[k].index <= e
  }

  /** The answers refuse, none of them below lo. */
  ghost predicate Refusals(c: Line, rs: seq<Message>, lo: nat) {
    forall k :: 0 <= k < |rs| ==>
      rs[k] == Answer(c, Reply(rs[k].index, true, rs[k].rejectHint)) && lo <= rs[k].index <= |c.log|
  }

  /** The follower will refuse the messages, none of which starts below lo. */
  ghost predicate Junk(c: Line, p: Peer, ms: seq<Message>, lo: nat) {
    forall k :: 0 <= k < |ms| ==> Bounces(c, p, ms[k], lo)
  }

  ghost predicate Bounces(c: Line, p: Peer, m: Message, lo: nat) {
    Slice(c, m, m.index) && lo <= m.index && p.committed <= m.index && TermAt(p.log, m.index) != TermAt(c.log, m.index)
  }

  /** The leader streams: consecutive slices are under way from where the follower is in line, and
      acknowledgements up to there; if none is under way either way, that is what is matched. */
  ghost predicate Streaming(c: Line, x: Link, e: nat) {
    && Linked(c, x) && Pr(x.l, c.j).state.Replicate?
    && Chain(c, x.toF, e) && Pr(x.l, c.j).next == End(x.toF, e) + 1
    && Agree(c.log, x.f.log, e) && x.f.committed <= e && Pr(x.l, c.j).matched <= e
    && Acks(c, x.toL, e)
    && (if x.toL == [] then x.toF != [] || Pr(x.l, c.j).matched == e else x.toL[|x.toL| - 1].index == e)
    && (Pr(x.l, c.j).next > |c.log| || Pr(x.l, c.j).matched < Pr(x.l, c.j).next - 1)
  }

  /** The leader streams from where the follower is not yet: all will be refused. */
  ghost predicate Bouncing(c: Line, x: Link) {
    && Linked(c, x) && Pr(x.l, c.j).state.Replicate? && !Idle(x) && Pr(x.l, c.j).matched < |c.log|
    && Junk(c, View(x.f), x.toF, Pr(x.l, c.j).matched + 1) && Refusals(c, x.toL, Pr(x.l, c.j).matched + 1)
  }

  /** The leader probes: a probe is under way that will bring something new, behind what will be
      refused and ignored. */
  ghost predicate Asking(c: Line, x: Link) {
    && Linked(c, x) && Pr(x.l, c.j).state.Probe? && Pr(x.l, c.j).next >= 1 && x.toF != []
    && Junk(c, View(x.f), x.toF[..|x.toF| - 1], Pr(x.l, c.j).next) && Refusals(c, x.toL, Pr(x.l, c.j).next)
    && var m := x.toF[|x.toF| - 1];
       Slice(c, m, Pr(x.l, c.j).next - 1) && Pr(x.l, c.j).matched < Reach(View(x.f), Pr(x.l, c.j).next - 1, m.entries)
  }

  /** The answer to the probe is under way, behind what will be ignored. */
  ghost predicate Replied(c: Line, x: Link) {
    && Linked(c, x) && Pr(x.l, c.j).state.Probe? && Pr(x.l, c.j).next >= 1 && x.toF == [] && x.toL != []
    && Refusals(c, x.toL[..|x.toL| - 1], Pr(x.l, c.j).next)
    && var r := x.toL[|x.toL| - 1];
       || (r == Answer(c, Reply(r.index, false, 0)) && News(c, x, r.index))
       || (r == Answer(c, Reply(Pr(x.l, c.j).next - 1, true, |x.f.log|)) && Pr(x.l, c.j).matched < Pr(x.l, c.j).next - 1)
  }

  ghost predicate News(c: Line, x: Link, a: nat) {
    Pr(x.l, c.j).matched < a && Agree(c.log, x.f.log, a) && x.f.committed <= a
  }

  /** Idle after streaming, the follower's log is the leader's. */
  lemma StreamedAll(c: Line, x: Link, e: nat)
    requires Streaming(c, x, e) && Idle(x)
    ensures Repaired(c, x)
  {
    hide Local;
  }

  /** What is left to do: what is not matched, how far the next index can go back, and what is under
      way. */
  function Missing(c: Line, x: Link): nat {
    if Pr(x.l, c.j).matched <= |c.log| then |c.log| - Pr(x.l, c.j).matched else 0
  }

  function Above(c: Line, x: Link): nat {
    if Pr(x.l, c.j).state.Probe? then Pr(x.l, c.j).next else |c.log| + 2
  }

  function Load(x: Link): nat {
    2 * |x.toF| + |x.toL|
  }

  ghost predicate Less(c: Line, x': Link, x: Link) {
    || Missing(c, x') < Missing(c, x)
    || (Missing(c, x') == Missing(c, x) && Above(c, x') < Above(c, x))
    || (Missing(c, x') == Missing(c, x) && Above(c, x') == Above(c, x) && Load(x') < Load(x))
  }

  // ---------------------------------------------------------------- one delivery

  lemma FollowerTurn(c: Line, x: Link)
    requires Linked(c, x) && c.term > 0 && x.toF != [] && Slice(c, x.toF[0], x.toF[0].index)
    ensures var m := x.toF[0];
      var (p, r) := Receive(View(x.f), m.index, TermAt(c.log, m.index), m.commit, m.entries);
      var x' := ToFollower(x);
      && View(x'.f) == p && x'.l == x.l && x'.toF == x.toF[1..] && x'.toL == x.toL + [Answer(c, r)]
      && (Agree(c.log, p.log, Pr(x.l, c.j).matched) ==> Linked(c, x'))
  {
    hide Behind, Receive, Leads, Step, LeaderLog;
    var m := x.toF[0];
    FollowerAnswers(c, x.f, m);
    LeadsLog(c, x.l);
    Received(c.log, View(x.f), m.index, m.entries, m.commit);
    var r := Receive(View(x.f), m.index, m.logTerm, m.commit, m.entries).1;
    assert Step(x.f, m).msgs == [] + [Answer(c, r)];
    OutOne([], Answer(c, r), c.i);
  }

  lemma LeadsLog(c: Line, l: Node)
    requires Leads(c, l)
    ensures LeaderLog(c.log) && l.cfg.id == c.i
  {
  }

  /** The follower takes a slice that starts where it is in line. */
  lemma StreamFollower(c: Line, x: Link, e: nat)
    requires Streaming(c, x, e) && c.term > 0 && x.toF != []
    ensures Streaming(c, ToFollower(x), e + |x.toF[0].entries|)
  {
    hide Leads, Listens, Behind, Receive, ToFollower, LeaderLog;
    var m := x.toF[0];
    FollowerTurn(c, x);
    LeadsLog(c, x.l);
    ListensBehind(c, x.f);
    Received(c.log, View(x.f), e, m.entries, m.commit);
    var (p, r) := Receive(View(x.f), e, TermAt(c.log, e), m.commit, m.entries);
    AgreeTerm(c.log, x.f.log, e);
    AcksGrow(c, x.toL, e, r.index);
  }

  lemma ListensBehind(c: Line, f: Node)
    requires Listens(c, f)
    ensures Behind(c.log, View(f))
  {
  }

  lemma AgreeTerm(log: Log, log': Log, e: nat)
    requires Agree(log, log', e)
    ensures TermAt(log, e) == TermAt(log', e)
  {
  }

  lemma AcksGrow(c: Line, rs: seq<Message>, e: nat, e': nat)
    requires Acks(c, rs, e) && e <= e'
    ensures Acks(c, rs + [Answer(c, Reply(e', false, 0))], e')
  {
  }

  /** A full window reaches beyond what is matched. */
  lemma FullGap(c: Line, s: nat, n: Node)
    requires Fed(c, s, n) && (IsPaused(Pr(n, c.j), n.cfg.maxInflight) || Pr(n, c.j).next > |c.log|)
    ensures Pr(n, c.j).next > |c.log| || Pr(n, c.j).matched < Pr(n, c.j).next - 1
  {
    hide Local, LeaderLog, Chain, End, Out, PrsOK;
    PeerWindow(n, c.j);
    CommitInLog(n);
    var pr := Pr(n, c.j);
    if IsFull(pr, n.cfg.maxInflight) { assert pr.matched < pr.inflights[0] < pr.next; }
  }

  lemma {:induction false} EndAbove(ms: seq<Message>, e: nat)
    ensures End(ms, e) >= e
    decreases |ms|
  {
    if ms != [] { EndAbove(ms[1..], e + |ms[0].entries|); }
  }

  /** The leader takes an acknowledgement while it streams. */
  lemma StreamLeader(c: Line, x: Link, e: nat)
    requires Streaming(c, x, e) && c.term > 0 && x.toL != []
    ensures Streaming(c, ToLeader(x), e)
    ensures Pr(ToLeader(x).l, c.j).matched > Pr(x.l, c.j).matched || ToLeader(x).toF == x.toF
    ensures Pr(ToLeader(x).l, c.j).matched >= Pr(x.l, c.j).matched
  {
    hide Leads, Listens, Step, Fed, Resumes, Acked, Chain, End, Out;
    var a, l' := x.toL[0].index, Step(x.l, x.toL[0]);
    var pr := Pr(x.l, c.j);
    assert a <= |c.log|;
    ListensId(c, x.f);
    if a > pr.matched {
      EndAbove(x.toF, e);
      HearsAcceptance(c, x.l, a);
      AckedNext(c, x.l, a);
      FedLeads(c, pr.next - 1, l');
      FullGap(c, pr.next - 1, l');
      FedChain(c, pr.next - 1, l');
      ChainGrows(c, x.toF, e, Out(l'.msgs, c.j));
    } else {
      HearsNothingNew(c, x.l, a);
      LeadsFlushed(c, l');
      assert x.toF + [] == x.toF;
    }
  }

  lemma ListensId(c: Line, f: Node)
    requires Listens(c, f)
    ensures f.cfg.id == c.j
  {
  }

  lemma LeadsFlushed(c: Line, l: Node)
    requires Leads(c, l)
    ensures Out(l.msgs, c.j) == [] && l.(msgs := []) == l
  {
  }

  lemma FedChain(c: Line, s: nat, n: Node)
    requires Fed(c, s, n)
    ensures Chain(c, Out(n.msgs, c.j), s) && Pr(n, c.j).next == End(Out(n.msgs, c.j), s) + 1 && Pr(n, c.j).state.Replicate?
  {
  }

  /** Where the leader goes on sending after an acknowledgement. */
  lemma AckedNext(c: Line, l: Node, a: nat)
    requires Leads(c, l) && Pr(l, c.j).matched < a <= |c.log|
    ensures var pr, pr' := Pr(l, c.j), Pr(Acked(l, c.j, a), c.j);
      && (pr.state.Probe? || pr.next <= a + 1 ==> pr'.next == a + 1)
      && (pr.state.Replicate? && pr.next > a + 1 ==> pr'.next == pr.next)
  {
    hide Local, Advanced, MaybeUpdate, Pipelined, LeaderLog;
    PeerWindow(l, c.j);
    AckedProgress(l.prs[c.j], a, l.cfg.maxInflight, |c.log|);
  }

  /** The follower refuses a message. */
  lemma RefusedTurn(c: Line, x: Link, lo: nat)
    requires Linked(c, x) && c.term > 0 && x.toF != [] && Bounces(c, View(x.f), x.toF[0], lo)
    ensures var x' := ToFollower(x);
      && Linked(c, x') && View(x'.f) == View(x.f) && x'.l == x.l && x'.toF == x.toF[1..]
      && x'.toL == x.toL + [Answer(c, Reply(x.toF[0].index, true, |x.f.log|))]
  {
    hide Leads, Listens, Behind, Receive, ToFollower, LeaderLog;
    var m := x.toF[0];
    FollowerTurn(c, x);
    LeadsLog(c, x.l);
    ListensBehind(c, x.f);
    Received(c.log, View(x.f), m.index, m.entries, m.commit);
  }

  lemma RefusalsGrow(c: Line, rs: seq<Message>, lo: nat, index: nat, hint: nat)
    requires Refusals(c, rs, lo) && lo <= index <= |c.log|
    ensures Refusals(c, rs + [Answer(c, Reply(index, true, hint))], lo)
  {
  }

  lemma BounceFollower(c: Line, x: Link)
    requires Bouncing(c, x) && c.term > 0 && x.toF != []
    ensures Bouncing(c, ToFollower(x))
  {
    hide Linked, ToFollower, Bounces, Refusals;
    var lo := Pr(x.l, c.j).matched + 1;
    BounceIndex(c, View(x.f), x.toF[0], lo);
    RefusedTurn(c, x, lo);
    RefusalsGrow(c, x.toL, lo, x.toF[0].index, |x.f.log|);
  }

  lemma FirstRefusal(c: Line, rs: seq<Message>, lo: nat)
    requires Refusals(c, rs, lo) && rs != []
    ensures rs[0] == Answer(c, Reply(rs[0].index, true, rs[0].rejectHint)) && lo <= rs[0].index <= |c.log|
    ensures Refusals(c, rs[1..], lo)
  {
  }

  /** The first refusal makes the leader probe from what is matched. */
  lemma BounceLeader(c: Line, x: Link)
    requires Bouncing(c, x) && c.term > 0 && x.toL != []
    ensures var x' := ToLeader(x);
      Asking(c, x') && Pr(x'.l, c.j).matched == Pr(x.l, c.j).matched && Above(c, x') < Above(c, x)
  {
    hide Leads, Listens, Step, Out, Junk, Refusals, Probed, Asking, Answer;
    var pr, r, l' := Pr(x.l, c.j), x.toL[0], Step(x.l, x.toL[0]);
    FirstRefusal(c, x.toL, pr.matched + 1);
    ListensId(c, x.f);
    HearsRefusal(c, x.l, r.index, r.rejectHint);
    ProbedState(c, l');
    AsksNext(c, x, l');
  }

  lemma ProbedState(c: Line, n: Node)
    requires Probed(c, n)
    ensures Pr(n, c.j).state.Probe? && Pr(n, c.j).next <= |c.log| + 1
  {
    hide Local;
  }

  /** The leader has sent a probe after whatever else is under way. */
  lemma AsksNext(c: Line, x: Link, l': Node)
    requires Linked(c, x) && x.toL != [] && Probed(c, l')
    requires Pr(l', c.j).matched == Pr(x.l, c.j).matched < Pr(l', c.j).next <= |c.log|
    requires x.f.cfg.id == c.j && l' == Step(x.l, x.toL[0])
    requires Junk(c, View(x.f), x.toF, Pr(l', c.j).next) && Refusals(c, x.toL[1..], Pr(l', c.j).next)
    ensures Asking(c, ToLeader(x))
  {
    hide Leads, Listens, Step, Out, Junk, Refusals, Slice;
    var x' := ToLeader(x);
    assert x'.toF[..|x'.toF| - 1] == x.toF;
  }

  /** The follower takes what is before the probe, or the probe. */
  lemma AskFollower(c: Line, x: Link)
    requires Asking(c, x) && c.term > 0
    ensures Asking(c, ToFollower(x)) || Replied(c, ToFollower(x))
  {
    if |x.toF| > 1 { JunkTaken(c, x); } else { ProbeTaken(c, x); }
  }

  lemma JunkTaken(c: Line, x: Link)
    requires Asking(c, x) && c.term > 0 && |x.toF| > 1
    ensures Asking(c, ToFollower(x))
  {
    hide Linked, Step, ToFollower, Refusals, Bounces, Slice, Reach;
    var next, ms := Pr(x.l, c.j).next, x.toF[..|x.toF| - 1];
    assert ms[0] == x.toF[0] && Bounces(c, View(x.f), ms[0], next);
    BounceIndex(c, View(x.f), ms[0], next);
    RefusedTurn(c, x, next);
    RefusalsGrow(c, x.toL, next, x.toF[0].index, |x.f.log|);
    var x' := ToFollower(x);
    assert x'.toF[..|x'.toF| - 1] == ms[1..];
  }

  lemma BounceIndex(c: Line, p: Peer, m: Message, lo: nat)
    requires Bounces(c, p, m, lo)
    ensures lo <= m.index <= |c.log|
  {
  }

  lemma ProbeTaken(c: Line, x: Link)
    requires Asking(c, x) && c.term > 0 && |x.toF| == 1
    ensures Replied(c, ToFollower(x))
  {
    hide Leads, Listens, Behind, Step, ToFollower, Receive, LeaderLog, Refusals;
    var m := x.toF[0];
    FollowerTurn(c, x);
    LeadsLog(c, x.l);
    ListensBehind(c, x.f);
    Received(c.log, View(x.f), m.index, m.entries, m.commit);
    AgreeBelow(c.log, x.f.log, Pr(x.l, c.j).matched, m.index);
    var x' := ToFollower(x);
    assert x'.toL[..|x'.toL| - 1] == x.toL;
  }

  lemma AgreeBelow(log: Log, log': Log, e: nat, k: nat)
    requires Agree(log, log', e)
    ensures k <= e ==> TermAt(log, k) == TermAt(log', k)
  {
  }

  /** The leader ignores a refusal from before its probe. */
  lemma StaleTurn(c: Line, x: Link)
    requires Linked(c, x) && c.term > 0 && x.toL != [] && Pr(x.l, c.j).state.Probe?
    requires Refusals(c, x.toL[..1], Pr(x.l, c.j).next)
    ensures var x' := ToLeader(x);
      && Linked(c, x') && x'.f == x.f && x'.toF == x.toF && x'.toL == x.toL[1..]
      && Pr(x'.l, c.j) == Pr(x.l, c.j).(recentActive := true)
  {
    hide Leads, Listens, Step;
    var r := x.toL[..1][0];
    HearsStale(c, x.l, r.index, r.rejectHint);
    ListensId(c, x.f);
    LeadsFlushed(c, Step(x.l, r));
    assert x.toF + [] == x.toF;
  }

  lemma AskLeader(c: Line, x: Link)
    requires Asking(c, x) && c.term > 0 && x.toL != []
    ensures Asking(c, ToLeader(x)) && Pr(ToLeader(x).l, c.j) == Pr(x.l, c.j).(recentActive := true)
    ensures ToLeader(x).toF == x.toF
  {
    hide Linked, ToLeader, Junk, Slice;
    StaleTurn(c, x);
  }

  lemma ReplyStale(c: Line, x: Link)
    requires Replied(c, x) && c.term > 0 && |x.toL| > 1
    ensures var x' := ToLeader(x); Replied(c, x') && Pr(x'.l, c.j) == Pr(x.l, c.j).(recentActive := true) && x'.toF == []
  {
    hide Leads, Listens, Step, ToLeader;
    assert x.toL[..1] == x.toL[..|x.toL| - 1][..1];
    StaleTurn(c, x);
    var x' := ToLeader(x);
    assert x'.toL[..|x'.toL| - 1] == x.toL[..|x.toL| - 1][1..];
  }

  lemma ReplyRefused(c: Line, x: Link)
    requires Replied(c, x) && c.term > 0 && |x.toL| == 1 && x.toL[0].reject
    ensures var x' := ToLeader(x);
      Asking(c, x') && Pr(x'.l, c.j).matched == Pr(x.l, c.j).matched && Above(c, x') < Above(c, x)
  {
    hide Leads, Listens, Step, Out, Probed, Asking, News;
    var pr, l' := Pr(x.l, c.j), Step(x.l, x.toL[0]);
    ListensId(c, x.f);
    NextInLog(c, x.l);
    HearsRefusal(c, x.l, pr.next - 1, |x.f.log|);
    ProbedState(c, l');
    AsksNext(c, x, l');
  }

  lemma NextInLog(c: Line, l: Node)
    requires Leads(c, l)
    ensures Pr(l, c.j).next <= |c.log| + 1
  {
  }

  lemma ReplyAccepted(c: Line, x: Link)
    requires Replied(c, x) && c.term > 0 && |x.toL| == 1 && !x.toL[0].reject
    ensures var x' := ToLeader(x); Streaming(c, x', x.toL[0].index) && Pr(x.l, c.j).matched < Pr(x'.l, c.j).matched
  {
    hide Leads, Listens, Step, Fed, Resumes, Acked, Chain, End, Out;
    var a, l' := x.toL[0].index, Step(x.l, x.toL[0]);
    ListensId(c, x.f);
    HearsAcceptance(c, x.l, a);
    AckedNext(c, x.l, a);
    FedLeads(c, a, l');
    FullGap(c, a, l');
    FedChain(c, a, l');
    assert x.toF + Out(l'.msgs, c.j) == Out(l'.msgs, c.j);
  }

  // ---------------------------------------------------------------- convergence

  /** Where the follower is in line while the leader streams. */
  function Edge(c: Line, x: Link): nat {
    if x.toF != [] then x.toF[0].index else if Pr(x.l, c.j).next == 0 then 0 else Pr(x.l, c.j).next - 1
  }

  lemma EdgeIs(c: Line, x: Link, e: nat)
    requires Streaming(c, x, e)
    ensures e == Edge(c, x)
  {
    hide Linked;
  }

  /** The exchange is on its way to the end. */
  ghost predicate UnderWay(c: Line, x: Link) {
    Streaming(c, x, Edge(c, x)) || Bouncing(c, x) || Asking(c, x) || Replied(c, x)
  }

  /** Every delivery leaves less to do. */
  lemma TurnProgress(c: Line, x: Link, follower: bool)
    requires UnderWay(c, x) && c.term > 0 && !Idle(x)
    ensures UnderWay(c, Turn(x, follower)) && Less(c, Turn(x, follower), x)
  {
    hide Streaming, Bouncing, Asking, Replied, ToFollower, ToLeader;
    if x.toF != [] && (follower || x.toL == []) {
      FollowerProgress(c, x);
    } else {
      LeaderProgress(c, x);
    }
  }

  lemma FollowerLoad(c: Line, x: Link)
    requires Linked(c, x) && c.term > 0 && x.toF != [] && Slice(c, x.toF[0], x.toF[0].index)
    ensures Less(c, ToFollower(x), x)
  {
    hide Linked, ToFollower, Slice, Receive;
    FollowerTurn(c, x);
  }

  lemma FollowerProgress(c: Line, x: Link)
    requires UnderWay(c, x) && c.term > 0 && x.toF != []
    ensures UnderWay(c, ToFollower(x)) && Less(c, ToFollower(x), x)
  {
    hide Streaming, Bouncing, Asking, Replied, ToFollower, Linked, Slice, Less;
    FirstSlice(c, x);
    FollowerLoad(c, x);
    if Streaming(c, x, Edge(c, x)) {
      StreamFollower(c, x, Edge(c, x));
      EdgeIs(c, ToFollower(x), Edge(c, x) + |x.toF[0].entries|);
    } else if Bouncing(c, x) {
      BounceFollower(c, x);
    } else {
      AskFollower(c, x);
    }
  }

  lemma FirstSlice(c: Line, x: Link)
    requires UnderWay(c, x) && x.toF != []
    ensures Linked(c, x) && Slice(c, x.toF[0], x.toF[0].index) && !Replied(c, x)
  {
    hide Linked, Reach;
    if Asking(c, x) && |x.toF| > 1 { assert x.toF[..|x.toF| - 1][0] == x.toF[0]; }
  }

  lemma LeaderProgress(c: Line, x: Link)
    requires UnderWay(c, x) && c.term > 0 && x.toL != []
    ensures UnderWay(c, ToLeader(x)) && Less(c, ToLeader(x), x)
  {
    hide Streaming, Bouncing, Asking, Replied, Less, ToLeader, Above, Linked;
    LeaderPops(c, x);
    var x' := ToLeader(x);
    if Streaming(c, x, Edge(c, x)) {
      StreamLeader(c, x, Edge(c, x));
      EdgeIs(c, x', Edge(c, x));
      StreamStates(c, x, Edge(c, x));
      StreamStates(c, x', Edge(c, x));
      Lessens(c, x', x);
    } else if Bouncing(c, x) {
      BounceLeader(c, x);
      BackLess(c, x', x);
    } else if Asking(c, x) {
      AskLeader(c, x);
      PopLess(c, x', x);
    } else {
      ReplyProgress(c, x);
    }
  }

  lemma ReplyProgress(c: Line, x: Link)
    requires Replied(c, x) && c.term > 0 && x.toL != []
    ensures UnderWay(c, ToLeader(x)) && Less(c, ToLeader(x), x)
  {
    assert x.toF == [];
    hide Streaming, Bouncing, Asking, Replied, Less, ToLeader, Above, Linked;
    LeaderPops(c, x);
    var x' := ToLeader(x);
    if |x.toL| > 1 {
      ReplyStale(c, x);
      PopLess(c, x', x);
    } else if x.toL[0].reject {
      ReplyRefused(c, x);
      BackLess(c, x', x);
    } else {
      ReplyAccepted(c, x);
      EdgeIs(c, x', x.toL[0].index);
      StreamStates(c, x', x.toL[0].index);
      Lessens(c, x', x);
    }
  }

  lemma LeaderPops(c: Line, x: Link)
    requires x.toL != []
    ensures ToLeader(x).toL == x.toL[1..]
  {
    hide Step;
  }

  lemma StreamStates(c: Line, x: Link, e: nat)
    requires Streaming(c, x, e)
    ensures Above(c, x) == |c.log| + 2 && Pr(x.l, c.j).matched <= |c.log|
  {
    hide Leads, Listens;
  }

  lemma Lessens(c: Line, x': Link, x: Link)
    requires Pr(x'.l, c.j).matched <= |c.log| && x.toL != [] && x'.toL == x.toL[1..]
    requires Pr(x.l, c.j).matched < Pr(x'.l, c.j).matched
             || (Pr(x.l, c.j).matched == Pr(x'.l, c.j).matched && Above(c, x') == Above(c, x) && x'.toF == x.toF)
    ensures Less(c, x', x)
  {
  }

  lemma BackLess(c: Line, x': Link, x: Link)
    requires Pr(x.l, c.j).matched == Pr(x'.l, c.j).matched && Above(c, x') < Above(c, x)
    ensures Less(c, x', x)
  {
  }

  lemma PopLess(c: Line, x': Link, x: Link)
    requires Pr(x'.l, c.j) == Pr(x.l, c.j).(recentActive := true) && x'.toF == x.toF && x.toL != [] && x'.toL == x.toL[1..]
    ensures Less(c, x', x)
  {
  }

  /** Whatever the order of deliveries, the exchange comes to an end, and at the end the follower's log
      is the leader's. */
  lemma {:induction false} Converges(c: Line, x: Link, sched: nat -> bool, n: nat) returns (n': nat)
    requires UnderWay(c, Turns(x, sched, n)) && c.term > 0
    ensures n <= n' && Idle(Turns(x, sched, n')) && Repaired(c, Turns(x, sched, n'))
    decreases Missing(c, Turns(x, sched, n)), Above(c, Turns(x, sched, n)), Load(Turns(x, sched, n))
  {
    hide UnderWay, Turn, Repaired, Missing, Above, Load, Idle;
    var y := Turns(x, sched, n);
    if Idle(y) {
      IdleEnd(c, y);
      n' := n;
    } else {
      TurnProgress(c, y, sched(n));
      n' := Converges(c, x, sched, n + 1);
    }
  }

  lemma IdleEnd(c: Line, x: Link)
    requires UnderWay(c, x) && Idle(x)
    ensures Repaired(c, x)
  {
    hide Linked, Repaired, Chain, End;
    StreamedAll(c, x, Edge(c, x));
  }

  // ---------------------------------------------------------------- how an exchange starts

  /** The index before the follower's next one. */
  function Prev(pr: Progress): nat {
    if pr.next == 0 then 0 else pr.next - 1
  }

  /** Whether a message from the leader will get the exchange going: the follower is not paused, its
      answer says something new, and if it answers, in the middle of the message, that it has committed
      more than the message starts from, then the leader goes on sending. */
  ghost predicate Hopeful(c: Line, x: Link) {
    var pr := Pr(x.l, c.j);
    var ents := EntriesFrom(x.l, pr.next);
    && !IsPaused(pr, x.l.cfg.maxInflight) && pr.matched < Reach(View(x.f), Prev(pr), ents)
    && (pr.state.Replicate? && Prev(pr) < x.f.committed < Prev(pr) + |ents| ==> Resumes(Kick(x).l, c.j, x.f.committed))
  }

  lemma KickPaused(c: Line, x: Link)
    requires Ready(c, x) && IsPaused(Pr(x.l, c.j), x.l.cfg.maxInflight)
    ensures Kick(x) == x
  {
    hide Local, Behind, MaybeSendAppend, IsPaused;
    Sends(x.l, c.j);
    LeadsFlushed(c, x.l);
  }

  lemma KickProbe(c: Line, x: Link)
    requires Ready(c, x) && Pr(x.l, c.j).state.Probe? && !Pr(x.l, c.j).paused
    ensures var x' := Kick(x);
      && Linked(c, x') && |x'.toF| == 1 && x'.toL == [] && x'.f == x.f
      && Pr(x'.l, c.j).state.Probe? && Pr(x'.l, c.j).matched == Pr(x.l, c.j).matched
      && Pr(x'.l, c.j).next == Pr(x.l, c.j).next >= 1
      && Slice(c, x'.toF[0], Prev(Pr(x.l, c.j))) && x'.toF[0].entries == EntriesFrom(x.l, Pr(x.l, c.j).next)
      && (x'.toF[0].entries == [] ==> Pr(x.l, c.j).next == |c.log| + 1)
  {
    hide Local, Behind, SendAppend, EntriesFrom, LeaderLog, Slice;
    Probes(c, x.l);
  }

  lemma KickReplicate(c: Line, x: Link)
    requires Ready(c, x) && Pr(x.l, c.j).state.Replicate? && !IsPaused(Pr(x.l, c.j), x.l.cfg.maxInflight)
    ensures var x' := Kick(x);
      var pr, ents := Pr(x.l, c.j), EntriesFrom(x.l, Pr(x.l, c.j).next);
      && Linked(c, x') && |x'.toF| == 1 && x'.toL == [] && x'.f == x.f && pr.matched < pr.next
      && Pr(x'.l, c.j).state.Replicate? && Pr(x'.l, c.j).matched == pr.matched && Pr(x'.l, c.j).next == pr.next + |ents|
      && Slice(c, x'.toF[0], Prev(pr)) && x'.toF[0].entries == ents && (ents == [] ==> pr.next == |c.log| + 1)
  {
    hide Local, Behind, SendAppend, EntriesFrom, IsPaused, PrsOK, Out, ProgressSent, Increasing;
    PeerWindow(x.l, c.j);
    SendsOne(c, x.l);
    var m := Out(SendAppend(x.l, c.j).msgs, c.j)[0];
    SentParts(Pr(x.l, c.j), c.log, |m.entries|);
  }

  /** A probe that can bring nothing new: the leader is paused, or has nothing to send, and that is
      the end. */
  lemma ProbeSpent(c: Line, x: Link, sched: nat -> bool)
    requires Ready(c, x) && c.term > 0 && Pr(x.l, c.j).state.Probe? && !Pr(x.l, c.j).paused
    requires Reach(View(x.f), Prev(Pr(x.l, c.j)), EntriesFrom(x.l, Pr(x.l, c.j).next)) <= Pr(x.l, c.j).matched
    ensures var x' := Turns(Kick(x), sched, 2);
      && Ready(c, x') && x'.f.log == x.f.log && Pr(x'.l, c.j).matched == Pr(x.l, c.j).matched
      && Pr(x'.l, c.j).state.Probe? && (Pr(x.l, c.j).matched < |c.log| ==> Pr(x'.l, c.j).next > Pr(x.l, c.j).next)
  {
    hide Leads, Listens, Behind, Receive, Step, Kick, EntriesFrom, Out, LeaderLog, Prev;
    KickProbe(c, x);
    PrevIs(Pr(x.l, c.j));
    var x1 := Kick(x);
    var m := x1.toF[0];
    FollowerTurn(c, x1);
    LeadsLog(c, x.l);
    ListensBehind(c, x.f);
    Received(c.log, View(x.f), m.index, m.entries, m.commit);
    AgreeBelow(c.log, x.f.log, Pr(x.l, c.j).matched, m.index);
    var x2 := ToFollower(x1);
    var a := Reach(View(x.f), m.index, m.entries);
    assert x2.toL == [Answer(c, Reply(a, false, 0))];
    HearsNothingNew(c, x2.l, a);
    LeadsFlushed(c, Step(x2.l, x2.toL[0]));
    ListensId(c, x2.f);
    TwoTurns(x1, sched);
  }

  lemma PrevIs(pr: Progress)
    requires pr.next >= 1
    ensures Prev(pr) == pr.next - 1
  {
  }

  lemma TwoTurns(x: Link, sched: nat -> bool)
    requires |x.toF| == 1 && x.toL == [] && |ToFollower(x).toL| == 1
    ensures Turns(x, sched, 2) == ToLeader(ToFollower(x))
  {
    hide ToFollower, ToLeader;
    assert ToFollower(x).toF == [] by { PopsFollower(x); }
    assert Turns(x, sched, 0) == x;
    assert Turns(x, sched, 1) == Turn(x, sched(0)) == ToFollower(x);
  }

  lemma PopsFollower(x: Link)
    requires x.toF != []
    ensures ToFollower(x).toF == x.toF[1..]
  {
    hide Step;
  }

  /** If the follower does not have the start of a chain, it has the start of no part of it. */
  lemma {:induction false} ChainBounces(c: Line, p: Peer, ms: seq<Message>, s: nat, lo: nat)
    requires LeaderLog(c.log) && Behind(c.log, p) && Chain(c, ms, s) && lo <= s <= |c.log| && p.committed <= s
    requires TermAt(p.log, s) != TermAt(c.log, s)
    ensures Junk(c, p, ms, lo)
    decreases |ms|
  {
    if ms != [] {
      var s' := s + |ms[0].entries|;
      if TermAt(p.log, s') == TermAt(c.log, s') {
        TermsMatch(c.log, p, s');
        AgreeBelow(c.log, p.log, s', s);
      }
      ChainBounces(c, p, ms[1..], s', lo);
      JunkFirst(c, p, ms, lo);
    }
  }

  lemma JunkFirst(c: Line, p: Peer, ms: seq<Message>, lo: nat)
    requires ms != [] && Bounces(c, p, ms[0], lo) && Junk(c, p, ms[1..], lo)
    ensures Junk(c, p, ms, lo)
  {
    hide Bounces;
    forall k | 0 <= k < |ms|
      ensures Bounces(c, p, ms[k], lo)
    {
      if k > 0 { assert ms[k] == ms[1..][k - 1]; }
    }
  }

  /** A stream from s: the follower is in line there, or refuses all of it. */
  lemma StreamOrBounce(c: Line, x: Link, s: nat)
    requires Linked(c, x) && Pr(x.l, c.j).state.Replicate? && x.toF != [] && x.toL == []
    requires Chain(c, x.toF, s) && Pr(x.l, c.j).next == End(x.toF, s) + 1 && s <= |c.log|
    requires x.f.committed <= s && Pr(x.l, c.j).matched <= s
    requires Pr(x.l, c.j).next > |c.log| || Pr(x.l, c.j).matched < Pr(x.l, c.j).next - 1
    ensures UnderWay(c, x)
  {
    hide Leads, Listens, LeaderLog, Behind, Chain, End, Junk;
    LeadsLog(c, x.l);
    ListensBehind(c, x.f);
    if TermAt(x.f.log, s) == TermAt(c.log, s) {
      TermsMatch(c.log, View(x.f), s);
      EdgeIs(c, x, s);
    } else {
      AgreeBelow(c.log, x.f.log, Pr(x.l, c.j).matched, s);
      ChainBounces(c, View(x.f), x.toF, s, Pr(x.l, c.j).matched + 1);
    }
  }

  /** In Replicate, a message that does not start below what the follower has committed. */
  lemma ReplicateStarts(c: Line, x: Link)
    requires Ready(c, x) && Pr(x.l, c.j).state.Replicate? && !IsPaused(Pr(x.l, c.j), x.l.cfg.maxInflight)
    requires x.f.committed <= Prev(Pr(x.l, c.j))
    ensures UnderWay(c, Kick(x)) && (Repaired(c, x) || Hopeful(c, x))
  {
    hide Leads, Listens, Kick, IsPaused, UnderWay, EntriesFrom, LeaderLog, Resumes;
    KickReplicate(c, x);
    var x', s := Kick(x), Prev(Pr(x.l, c.j));
    PrevIs(Pr(x.l, c.j));
    ChainOne(c, x'.toF[0], s);
    assert x'.toF == [x'.toF[0]];
    StreamOrBounce(c, x', s);
    if Pr(x.l, c.j).matched == |c.log| { AllMatched(c, x); }
  }

  lemma AllMatched(c: Line, x: Link)
    requires Linked(c, x) && Pr(x.l, c.j).matched >= |c.log|
    ensures Repaired(c, x)
  {
    hide Leads;
  }

  /** The leader l has heard that the follower has committed index k, and goes on from s. */
  ghost predicate Resumed(c: Line, l: Node, x: Link, k: nat, s: nat) {
    && Linked(c, x) && x.toL == [] && x.f.committed == k && Pr(x.l, c.j).matched == k
    && Pr(x.l, c.j).state.Replicate? && Chain(c, x.toF, s) && Pr(x.l, c.j).next == End(x.toF, s) + 1
    && (Pr(x.l, c.j).next > |c.log| || k < Pr(x.l, c.j).next - 1)
    && (x.toF != [] <==> Resumes(l, c.j, k))
  }

  lemma ReplicateSurprised(c: Line, x: Link, sched: nat -> bool)
    requires Ready(c, x) && c.term > 0 && Pr(x.l, c.j).state.Replicate? && !IsPaused(Pr(x.l, c.j), x.l.cfg.maxInflight)
    requires Prev(Pr(x.l, c.j)) < x.f.committed
    ensures Resumed(c, Kick(x).l, Turns(Kick(x), sched, 2), x.f.committed, Max(x.f.committed, Prev(Pr(Kick(x).l, c.j))))
  {
    hide Linked, Kick, EntriesFrom, IsPaused, Resumed, ToFollower, ToLeader, Turns;
    KickReplicate(c, x);
    PrevIs(Pr(x.l, c.j));
    PrevIs(Pr(Kick(x).l, c.j));
    CommittedTurn(c, Kick(x));
    TwoTurns(Kick(x), sched);
    HearsCommitted(c, ToFollower(Kick(x)), x.f.committed);
  }

  /** The follower answers with its commit index and changes nothing. */
  lemma CommittedTurn(c: Line, x: Link)
    requires Linked(c, x) && c.term > 0 && |x.toF| == 1 && x.toL == [] && Slice(c, x.toF[0], x.toF[0].index)
    requires x.toF[0].index < x.f.committed
    ensures var x', k := ToFollower(x), x.f.committed;
      && Linked(c, x') && x'.l == x.l && x'.toF == [] && x'.toL == [Answer(c, Reply(k, false, 0))]
      && x'.f.committed == k && Agree(c.log, x'.f.log, k)
  {
    hide Leads, Listens, Receive, ToFollower, Behind;
    var m := x.toF[0];
    FollowerTurn(c, x);
    ListensBehind(c, x.f);
    CommittedAgrees(c.log, View(x.f));
    CommittedAnswer(View(x.f), m.index, TermAt(c.log, m.index), m.commit, m.entries);
  }

  lemma CommittedAnswer(p: Peer, index: nat, logTerm: nat, commit: nat, ents: seq<Entry>)
    requires index < p.committed
    ensures Receive(p, index, logTerm, commit, ents) == (p, Reply(p.committed, false, 0))
  {
    hide MaybeAppend;
  }

  lemma HearsCommitted(c: Line, x: Link, k: nat)
    requires Linked(c, x) && c.term > 0 && Pr(x.l, c.j).state.Replicate? && x.toF == []
    requires x.toL == [Answer(c, Reply(k, false, 0))]
    requires Pr(x.l, c.j).matched < k && Pr(x.l, c.j).next >= 1 && Agree(c.log, x.f.log, k)
    requires x.f.committed == k
    ensures Resumed(c, x.l, ToLeader(x), k, Max(k, Pr(x.l, c.j).next - 1))
  {
    hide Leads, Listens, Step, Fed, Resumes, Acked, Chain, End, Out;
    var l', s := Step(x.l, x.toL[0]), Max(k, Pr(x.l, c.j).next - 1);
    ListensId(c, x.f);
    HearsAcceptance(c, x.l, k);
    AckedNext(c, x.l, k);
    FedLeads(c, s, l');
    FullGap(c, s, l');
    FedChain(c, s, l');
    assert x.toF + Out(l'.msgs, c.j) == Out(l'.msgs, c.j);
  }

  /** In Replicate, a message that starts below what the follower has committed. */
  lemma ReplicateResumes(c: Line, x: Link, sched: nat -> bool)
    requires Ready(c, x) && c.term > 0 && Pr(x.l, c.j).state.Replicate? && !IsPaused(Pr(x.l, c.j), x.l.cfg.maxInflight)
    requires Prev(Pr(x.l, c.j)) < x.f.committed
    ensures var x' := Turns(Kick(x), sched, 2);
      if Hopeful(c, x) then UnderWay(c, x')
      else Ready(c, x') && !Repaired(c, x') && !Repaired(c, x) && Pr(x'.l, c.j).matched > Pr(x.l, c.j).matched
  {
    hide Leads, Listens, Kick, IsPaused, UnderWay, EntriesFrom, LeaderLog, Resumes, Turns, Chain, End;
    KickReplicate(c, x);
    PrevIs(Pr(x.l, c.j));
    ReplicateSurprised(c, x, sched);
    var x', k := Turns(Kick(x), sched, 2), x.f.committed;
    var s := Max(k, Prev(Pr(Kick(x).l, c.j)));
    PrevIs(Pr(Kick(x).l, c.j));
    NextInLog(c, Kick(x).l);
    EndNone(s);
    if x'.toF != [] {
      StreamOrBounce(c, x', s);
    } else if s == k {
      StreamsOn(c, x', k);
    }
  }

  lemma EndNone(s: nat)
    ensures End([], s) == s
  {
  }

  lemma StreamsOn(c: Line, x: Link, k: nat)
    requires Linked(c, x) && Idle(x) && Pr(x.l, c.j).state.Replicate? && x.f.committed == k == Pr(x.l, c.j).matched
    requires Pr(x.l, c.j).next == k + 1 && (Pr(x.l, c.j).next > |c.log| || k < Pr(x.l, c.j).next - 1)
    ensures UnderWay(c, x)
  {
    hide Leads, Listens;
    assert Streaming(c, x, Edge(c, x));
  }

  // ---------------------------------------------------------------- the theorem

  /** More is matched than before, or the leader probes further on. */
  ghost predicate Gains(c: Line, x: Link, x': Link) {
    && Ready(c, x')
    && var pr, pr' := Pr(x.l, c.j), Pr(x'.l, c.j);
       pr.matched < pr'.matched || (pr.matched == pr'.matched && pr.state.Probe? && pr'.state.Probe? && pr.next < pr'.next)
  }

  /** Log repair, exactly: once the leader has sent the follower a message, the exchange comes to an
      end whatever the order of deliveries, the message size limit and the size of the window. At the
      end the follower has the leader's log and the leader knows it, if and only if that was so from
      the start or the message got the exchange going; if not, unless it was held back, the leader knows
      more than before, or probes further on. */
  lemma RepairExact(c: Line, x: Link, sched: nat -> bool) returns (n: nat)
    requires Ready(c, x) && c.term > 0
    ensures Idle(Turns(Kick(x), sched, n))
    ensures Repaired(c, Turns(Kick(x), sched, n)) <==> Repaired(c, x) || Hopeful(c, x)
    ensures IsPaused(Pr(x.l, c.j), x.l.cfg.maxInflight) || Repaired(c, Turns(Kick(x), sched, n))
            || Gains(c, x, Turns(Kick(x), sched, n))
  {
    hide Leads, Listens, Kick, UnderWay, EntriesFrom, LeaderLog, Resumes, Turns, IsPaused, Reach, Prev, Repaired;
    var pr := Pr(x.l, c.j);
    PauseStates(c, x.l);
    if IsPaused(pr, x.l.cfg.maxInflight) {
      KickPaused(c, x);
      NoTurns(Kick(x), sched);
      n := 0;
    } else if pr.state.Probe? {
      if pr.matched < Reach(View(x.f), Prev(pr), EntriesFrom(x.l, pr.next)) {
        ProbeStarts(c, x);
        NoTurns(Kick(x), sched);
        n := Converges(c, Kick(x), sched, 0);
      } else {
        ProbeSpent(c, x, sched);
        if pr.matched >= |c.log| { AllMatched(c, x); }
        SameEnd(c, x, Turns(Kick(x), sched, 2));
        n := 2;
      }
    } else if x.f.committed <= Prev(pr) {
      ReplicateStarts(c, x);
      NoTurns(Kick(x), sched);
      n := Converges(c, Kick(x), sched, 0);
    } else {
      ReplicateResumes(c, x, sched);
      n := 2;
      if Hopeful(c, x) { n := Converges(c, Kick(x), sched, 2); }
    }
  }

  lemma PauseStates(c: Line, l: Node)
    requires Leads(c, l)
    ensures var pr := Pr(l, c.j);
      && !pr.state.Snapshot? && (pr.state.Probe? ==> (IsPaused(pr, l.cfg.maxInflight) <==> pr.paused))
  {
    hide Local;
    PeerWindow(l, c.j);
  }

  lemma NoTurns(x: Link, sched: nat -> bool)
    ensures Turns(x, sched, 0) == x
  {
  }

  lemma SameEnd(c: Line, x: Link, x': Link)
    requires x'.f.log == x.f.log && Pr(x'.l, c.j).matched == Pr(x.l, c.j).matched
    ensures Repaired(c, x') <==> Repaired(c, x)
  {
  }

  lemma ProbeStarts(c: Line, x: Link)
    requires Ready(c, x) && Pr(x.l, c.j).state.Probe? && !Pr(x.l, c.j).paused
    requires Pr(x.l, c.j).matched < Reach(View(x.f), Prev(Pr(x.l, c.j)), EntriesFrom(x.l, Pr(x.l, c.j).next))
    ensures UnderWay(c, Kick(x))
  {
    hide Leads, Listens, Kick, EntriesFrom, Reach, Slice;
    KickProbe(c, x);
    PrevIs(Pr(x.l, c.j));
    assert Asking(c, Kick(x));
  }

  /** In every run, a leader and any other node that is not in a later term are in the situation from
      which repair is exact, once nothing is under way between them, unless the leader is handing over
      to that node. */
  lemma RepairApplies(cs: seq<C.System>, k: nat, i: NodeId, j: NodeId)
    requires C.Run(cs) && k < |cs| && i in cs[k].nodes && j in cs[k].nodes && i != j
    requires var l, f := cs[k].nodes[i], cs[k].nodes[j]; l.role.Leader? && f.term <= l.term && l.leadTransferee != j
    ensures var l, f := cs[k].nodes[i], cs[k].nodes[j];
      l.term > 0 && Ready(Line(i, j, l.term, l.log), Link(l, f, [], []))
  {
    hide C.Run, Matching, Local;
    C.LeaderRecord(cs, k, i, j);
    C.TermsReal(cs, k, i);
    C.TermsReal(cs, k, j);
    C.LogsMatch(cs, k, j, k, i);
    C.LeaderHasCommitted(cs, k, i, j);
    C.NobodyAhead(cs, k, i, j);
    C.MatchSoundness(cs, k, i, j);
    if cs[k].nodes[j].role.Leader? && cs[k].nodes[j].term == cs[k].nodes[i].term { C.ElectionSafety(cs, k, i, k, j); }
  }

  /** The situation does not depend on how the leader goes on, as long as what it records as matched is. */
  lemma ReadyWith(c: Line, x: Link, pr: Progress)
    requires Ready(c, x) && Pipelined(pr, x.l.cfg.maxInflight) && !pr.state.Snapshot?
    requires Agree(c.log, x.f.log, pr.matched) && pr.next <= |c.log| + 1
    ensures Ready(c, x.(l := SetPr(x.l, c.j, pr)))
  {
    hide Local, Pipelined, LeaderLog, Behind;
    SetPrLocal(x.l, c.j, pr);
  }
}
