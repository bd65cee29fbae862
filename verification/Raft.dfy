/** The node as the object it is in src/raft.h and src/raft.cc: fields updated in place, loops over
    peers, votes and entries. Every method is proved to do to the state what the transition functions
    of `Nodes` say, so that everything proved of those holds of the object. Progress and the log are
    kept as values here; `Trackers` and `RaftLogs` have them in place. */
module RaftNode {
  import opened Types
  import opened Logs
  import opened Progresses
  import opened ReadQueues
  import opened Commitment
  import N = Nodes
  import opened NodeLocal

  /** Counts the configuration changes among entries. */
  method NumOfPendingConf(ents: seq<Entry>) returns (n: nat)
    ensures n == N.NumConf(ents)
  {
    n := 0;
    var i := |ents|;
    while i > 0
      invariant 0 <= i <= |ents| && n == N.NumConf(ents[i..])
    {
      i := i - 1;
      assert ents[i..][0] == ents[i] && ents[i..][1..] == ents[i + 1..];
      if ents[i].kind.EntryConfChange? {
        n := n + 1;
      }
    }
    assert ents[0..] == ents;
  }

  /** Sorts match indexes in descending order, by insertion. */
  method SortMatches(ms: seq<nat>) returns (r: seq<nat>)
    ensures r == SortDescending(ms)
  {
    r := [];
    var i := |ms|;
    while i > 0
      invariant 0 <= i <= |ms| && r == SortDescending(ms[i..])
    {
      i := i - 1;
      assert ms[i..][0] == ms[i] && ms[i..][1..] == ms[i + 1..];
      r := Insert(ms[i], r);
    }
    assert ms[0..] == ms;
  }

  /** Those of the given voters whose vote was granted. */
  ghost function Yes(votes: map<NodeId, bool>, seen: set<NodeId>): set<NodeId> {
    set p | p in seen && p in votes && votes[p]
  }

  lemma YesNext(votes: map<NodeId, bool>, seen: set<NodeId>, p: NodeId)
    requires p in votes && p !in seen
    ensures |Yes(votes, seen + {p})| == |Yes(votes, seen)| + (if votes[p] then 1 else 0)
  {
    assert Yes(votes, seen + {p}) == if votes[p] then Yes(votes, seen) + {p} else Yes(votes, seen);
  }

  /** Counts the votes granted. */
  method CountGranted(votes: map<NodeId, bool>) returns (granted: nat)
    ensures granted == |N.Granted(votes)|
  {
    granted := 0;
    var left := votes.Keys;
    while left != {}
      invariant left <= votes.Keys && granted == |Yes(votes, votes.Keys - left)|
      decreases |left|
    {
      var p :| p in left;
      YesNext(votes, votes.Keys - left, p);
      assert votes.Keys - (left - {p}) == (votes.Keys - left) + {p};
      left := left - {p};
      if votes[p] {
        granted := granted + 1;
      }
    }
    assert Yes(votes, votes.Keys - left) == N.Granted(votes);
  }

  /** Forgets what was known of every peer. */
  method ResetPeers(id: NodeId, peers: seq<NodeId>, last: nat) returns (prs: map<NodeId, Progress>)
    ensures prs == N.FreshPeers(id, peers, last)
  {
    prs := map[];
    var i := 0;
    while i < |peers|
      invariant 0 <= i <= |peers| && prs == N.FreshPeers(id, peers[..i], last)
    {
      assert peers[..i + 1] == peers[..i] + [peers[i]];
      prs := prs[peers[i] := Fresh(last + 1, if peers[i] == id then last else 0)];
      i := i + 1;
    }
    assert peers[..i] == peers;
  }

  /** One entry of a proposal: what becomes of it, and the pending index after it. */
  function FilterOne(e: Entry, pending: nat, applied: nat, next: nat): (Entry, nat) {
    if !e.kind.EntryConfChange? then (e, pending)
    else if pending > applied then (Entry(0, 0, EntryNormal, ""), pending)
    else (e, next)
  }

  lemma FilterNext(es: seq<Entry>, i: nat, pending: nat, applied: nat, next: nat)
    requires i < |es|
    ensures var (e, p) := FilterOne(es[i], pending, applied, next);
      var rest := N.FilterConf(es[i + 1..], p, applied, next + 1);
      N.FilterConf(es[i..], pending, applied, next) == ([e] + rest.0, rest.1)
  {
    assert es[i..][0] == es[i] && es[i..][1..] == es[i + 1..];
  }

  /** Lets configuration changes of a proposal through one at a time. */
  method FilterProposal(es: seq<Entry>, pending: nat, applied: nat, last: nat) returns (r: seq<Entry>, p: nat)
    ensures (r, p) == N.FilterConf(es, pending, applied, last + 1)
  {
    hide N.FilterConf;
    ghost var all := N.FilterConf(es, pending, applied, last + 1);
    r, p := [], pending;
    var i := 0;
    assert es[0..] == es && [] + all.0 == all.0;
    while i < |es|
      invariant 0 <= i <= |es|
      invariant all.0 == r + N.FilterConf(es[i..], p, applied, last + 1 + i).0
      invariant all.1 == N.FilterConf(es[i..], p, applied, last + 1 + i).1
    {
      FilterNext(es, i, p, applied, last + 1 + i);
      var e := es[i];
      if e.kind.EntryConfChange? {
        if p > applied {
          e := Entry(0, 0, EntryNormal, "");
        } else {
          p := last + 1 + i;
        }
      }
      Regroup(r, e, N.FilterConf(es[i + 1..], p, applied, last + 1 + i + 1).0);
      r := r + [e];
      i := i + 1;
    }
    FilterNone(es, i, p, applied, last + 1 + i);
    assert r + [] == r;
  }

  lemma Regroup(r: seq<Entry>, e: Entry, rest: seq<Entry>)
    ensures r + ([e] + rest) == r + [e] + rest
  {
  }

  lemma FilterNone(es: seq<Entry>, i: nat, pending: nat, applied: nat, next: nat)
    requires i == |es|
    ensures N.FilterConf(es[i..], pending, applied, next) == ([], pending)
  {
    assert es[i..] == [];
  }

  /** When a proposal is answered with ErrProposalDropped. */
  predicate Drops(n: N.Node, m: Message) {
    && m.kind.MsgProp?
    && match n.role
       case Leader => m.entries != [] && N.LeaderDrops(n)
       case Follower => n.lead == NONE || n.cfg.dropProposals
       case Candidate => true
       case PreCandidate => true
  }

  class Raft {
    const cfg: N.Config
    var term: nat
    var vote: NodeId
    var lead: NodeId
    var role: N.Role
    var log: Log
    var committed: nat
    var applied: nat
    var votes: map<NodeId, bool>
    var prs: map<NodeId, Progress>
    var leadTransferee: NodeId
    var pendingConfIndex: nat
    var readOnly: ReadQueue
    var readStates: seq<N.ReadState>
    var electionElapsed: nat
    var msgs: seq<Message>
    var panicked: bool

    function State(): N.Node
      reads this
    {
      N.Node(cfg, term, vote, lead, role, log, committed, applied, votes, prs, leadTransferee, pendingConfIndex,
             readOnly, readStates, electionElapsed, msgs, panicked)
    }

    ghost predicate Valid()
      reads this
    {
      Local(State())
    }

    /** A node that starts from a stored log and hard state, or with an empty store for the first
        time. */
    constructor (cfg: N.Config, stored: N.Stored)
      ensures State() == N.Started(cfg, stored)
    {
      this.cfg := cfg;
      term, vote, lead, role := 0, NONE, NONE, N.Follower;
      log, committed, applied := stored.log, 0, 0;
      votes, prs, leadTransferee, pendingConfIndex := map[], map[], NONE, 0;
      readOnly, readStates, electionElapsed, msgs, panicked := EmptyQueue(), [], 0, [], false;
      new;
      hide N.BecomeFollower;
      if stored.term != 0 || stored.vote != NONE || stored.commit != 0 {
        LoadState(stored.term, stored.vote, stored.commit);
      }
      if stored.applied > 0 {
        panicked := panicked || stored.applied > committed;
        applied := stored.applied;
      }
      BecomeFollower(term, NONE);
    }

    /** A stored commit index outside the range from the present one to the end of the log is a panic. */
    method LoadState(term: nat, vote: NodeId, commit: nat)
      modifies this`term, this`vote, this`committed, this`panicked
      ensures State() == old(State()).(term := term, vote := vote, committed := commit, panicked := panicked)
      ensures panicked <==> old(panicked) || commit < old(committed) || commit > |log|
    {
      panicked := panicked || commit < committed || commit > |log|;
      committed := commit;
      this.term := term;
      this.vote := vote;
    }

    // ---------------------------------------------------------------- sending

    method Send(m: Message)
      modifies this`msgs, this`panicked
      ensures State() == N.Send(old(State()), m)
    {
      var out := m.(from := cfg.id);
      if N.IsCampaignMsg(m.kind) {
        if m.term == 0 {
          panicked := true;
          return;
        }
      } else {
        if m.term != 0 {
          panicked := true;
          return;
        }
        if !m.kind.MsgProp? && !m.kind.MsgReadIndex? {
          out := out.(term := term);
        }
      }
      msgs := msgs + [out];
    }

    method MaybeSendAppend(to: NodeId, sendIfEmpty: bool) returns (sent: bool)
      modifies this`msgs, this`panicked, this`prs
      ensures (State(), sent) == N.MaybeSendAppend(old(State()), to, sendIfEmpty)
    {
      var pr := N.Pr(State(), to);
      if IsPaused(pr, cfg.maxInflight) {
        return false;
      }
      var m := N.AppendMsg(State(), to);
      if m.entries == [] && !sendIfEmpty {
        return false;
      }
      if pr.next == 0 {
        panicked := true;
        return false;
      }
      if m.entries != [] {
        var last := m.entries[|m.entries| - 1].index;
        match pr.state
        case Replicate =>
          pr := OptimisticUpdate(pr, last);
          pr := pr.(inflights := pr.inflights + [last]);
        case Probe =>
          pr := pr.(paused := true);
        case Snapshot =>
      }
      prs := prs[to := pr];
      Send(m);
      sent := true;
    }

    method SendAppend(to: NodeId)
      modifies this`msgs, this`panicked, this`prs
      ensures State() == N.SendAppend(old(State()), to)
    {
      var sent := MaybeSendAppend(to, true);
    }

    /** Sends until the peer is paused or there is nothing left to send. */
    method SendAll(to: NodeId)
      requires Valid() && to in prs
      modifies this`msgs, this`panicked, this`prs
      ensures Valid() && State() == N.SendLoop(old(State()), to)
    {
      hide Local, N.MaybeSendAppend;
      ghost var s := State();
      var more := true;
      while more
        invariant Valid() && to in prs
        invariant more ==> N.SendLoop(s, to) == N.SendLoop(State(), to)
        invariant !more ==> N.SendLoop(s, to) == State()
        decreases more, N.SendBudget(State(), to)
      {
        MaybeSendAppendLocal(State(), to, false);
        SendsKeepPeers(State(), to);
        more := MaybeSendAppend(to, false);
      }
    }

    method BcastAppend()
      modifies this`msgs, this`panicked, this`prs
      ensures State() == N.BcastAppend(old(State()), cfg.peers)
    {
      hide N.SendAppend;
      ghost var s := State();
      var i := 0;
      assert cfg.peers[0..] == cfg.peers;
      while i < |cfg.peers|
        invariant 0 <= i <= |cfg.peers|
        invariant N.BcastAppend(s, cfg.peers) == N.BcastAppend(State(), cfg.peers[i..])
      {
        assert cfg.peers[i..][0] == cfg.peers[i] && cfg.peers[i..][1..] == cfg.peers[i + 1..];
        if cfg.peers[i] != cfg.id {
          SendAppend(cfg.peers[i]);
        }
        i := i + 1;
      }
    }

    /** The commit index of a heartbeat never exceeds what the peer is known to have. */
    method SendHeartbeat(to: NodeId, ctx: string)
      modifies this`msgs, this`panicked
      ensures State() == N.SendHeartbeat(old(State()), to, ctx)
    {
      var commit := Min(N.Pr(State(), to).matched, committed);
      Send(Blank(MsgHeartbeat, to).(commit := commit, context := ctx));
    }

    method BcastHeartbeatWithCtx(ctx: string)
      modifies this`msgs, this`panicked
      ensures State() == N.BcastHeartbeat(old(State()), cfg.peers, ctx)
    {
      hide N.SendHeartbeat;
      ghost var s := State();
      var i := 0;
      assert cfg.peers[0..] == cfg.peers;
      while i < |cfg.peers|
        invariant 0 <= i <= |cfg.peers|
        invariant N.BcastHeartbeat(s, cfg.peers, ctx) == N.BcastHeartbeat(State(), cfg.peers[i..], ctx)
      {
        assert cfg.peers[i..][0] == cfg.peers[i] && cfg.peers[i..][1..] == cfg.peers[i + 1..];
        if cfg.peers[i] != cfg.id {
          SendHeartbeat(cfg.peers[i], ctx);
        }
        i := i + 1;
      }
    }

    // ---------------------------------------------------------------- role changes

    method Reset(t: nat)
      modifies this
      ensures State() == N.Reset(old(State()), t)
    {
      hide N.FreshPeers, EmptyQueue;
      ghost var s := State();
      if term != t {
        term := t;
        vote := NONE;
      }
      lead := NONE;
      electionElapsed := 0;
      leadTransferee := NONE;
      votes := map[];
      pendingConfIndex := 0;
      readOnly := EmptyQueue();
      assert State() == N.Reset(s, t).(prs := s.prs);
      prs := ResetPeers(cfg.id, cfg.peers, |log|);
    }

    method BecomeFollower(t: nat, l: NodeId)
      modifies this
      ensures State() == N.BecomeFollower(old(State()), t, l)
    {
      Reset(t);
      lead := l;
      role := N.Follower;
    }

    method BecomeCandidate()
      modifies this
      ensures State() == N.BecomeCandidate(old(State()))
    {
      if role.Leader? {
        panicked := true;
        return;
      }
      Reset(term + 1);
      vote := cfg.id;
      role := N.Candidate;
    }

    method BecomePreCandidate()
      modifies this
      ensures State() == N.BecomePreCandidate(old(State()))
    {
      if role.Leader? {
        panicked := true;
        return;
      }
      votes := map[];
      role := N.PreCandidate;
    }

    /** Commits the highest index a quorum has, if it is of the current term. */
    method MaybeCommit() returns (moved: bool)
      modifies this`committed, this`panicked
      ensures (State(), moved) == N.MaybeCommit(old(State()))
    {
      var ms := [];
      var i := 0;
      while i < |cfg.peers|
        invariant 0 <= i <= |cfg.peers| && State() == old(State())
        invariant ms == N.MatchIndexes(State())[..i]
      {
        ms := ms + [N.Pr(State(), cfg.peers[i]).matched];
        i := i + 1;
      }
      assert ms == N.MatchIndexes(State());
      var quorum := |cfg.peers| / 2 + 1;
      if quorum > |ms| {
        panicked := true;
        return false;
      }
      var sorted := SortMatches(ms);
      var mci := sorted[quorum - 1];
      if mci > committed && TermAt(log, mci) == term {
        if |log| < mci {
          panicked := true;
        } else {
          committed := mci;
        }
        return true;
      }
      moved := false;
    }

    method AppendEntry(es: seq<Entry>)
      modifies this
      ensures State() == N.AppendEntry(old(State()), es)
    {
      hide N.MaybeCommit, AppendTo;
      ghost var s := State();
      var ents := es;
      var i := 0;
      while i < |es|
        invariant 0 <= i <= |es| == |ents| && State() == s
        invariant forall k :: 0 <= k < i ==> ents[k] == N.Stamp(s, es)[k]
        invariant forall k :: i <= k < |es| ==> ents[k] == es[k]
      {
        ents := ents[i := ents[i].(term := term, index := |log| + 1 + i)];
        i := i + 1;
      }
      assert ents == N.Stamp(s, es);
      var (log', p) := AppendTo(log, committed, ents);
      if p {
        panicked := true;
      }
      log := log';
      var (pr, updated) := MaybeUpdate(N.Pr(State(), cfg.id), |log|);
      prs := prs[cfg.id := pr];
      var moved := MaybeCommit();
    }

    method BecomeLeader()
      modifies this
      ensures State() == N.BecomeLeader(old(State()))
    {
      hide N.AppendEntry;
      if role.Follower? {
        panicked := true;
        return;
      }
      Reset(term);
      lead := cfg.id;
      role := N.Leader;
      pendingConfIndex := |log|;
      AppendEntry([Entry(0, 0, EntryNormal, "")]);
    }

    method Poll(id: NodeId, v: bool) returns (granted: nat)
      modifies this`votes
      ensures (State(), granted) == N.Poll(old(State()), id, v)
    {
      if id !in votes {
        votes := votes[id := v];
      }
      granted := CountGranted(votes);
    }

    method RequestVotes(m: Message)
      modifies this`msgs, this`panicked
      ensures State() == N.SendVotes(old(State()), cfg.peers, m)
    {
      hide N.Send;
      ghost var s := State();
      var i := 0;
      assert cfg.peers[0..] == cfg.peers;
      while i < |cfg.peers|
        invariant 0 <= i <= |cfg.peers|
        invariant N.SendVotes(s, cfg.peers, m) == N.SendVotes(State(), cfg.peers[i..], m)
      {
        assert cfg.peers[i..][0] == cfg.peers[i] && cfg.peers[i..][1..] == cfg.peers[i + 1..];
        if cfg.peers[i] != cfg.id {
          Send(m.(to := cfg.peers[i]));
        }
        i := i + 1;
      }
    }

    /** A campaign that wins its own poll goes on at once: from pre-vote to vote, from vote to office. */
    method Campaign(t: N.CampaignType)
      modifies this
      ensures State() == N.Campaign(old(State()), t)
      decreases if t.PreElection? then 1 else 0
    {
      hide N.BecomeLeader, N.SendVotes, N.Reset, N.Granted;
      if t.PreElection? {
        BecomePreCandidate();
      } else {
        BecomeCandidate();
      }
      var granted := Poll(cfg.id, true);
      if |cfg.peers| / 2 + 1 == granted {
        if t.PreElection? {
          Campaign(N.Election);
        } else {
          BecomeLeader();
        }
        return;
      }
      RequestVotes(N.VoteRequest(State(), t));
    }

    // ---------------------------------------------------------------- followers and candidates

    method HandleAppendEntries(m: Message)
      modifies this`msgs, this`panicked, this`log, this`committed
      ensures State() == N.HandleAppendEntries(old(State()), m)
    {
      hide MaybeAppend, N.Send;
      if m.index < committed {
        Send(Blank(MsgAppResp, m.from).(index := committed));
        return;
      }
      var last := |log|;
      var r := MaybeAppend(log, committed, m.index, m.logTerm, m.commit, m.entries);
      if r.panic {
        panicked := true;
      }
      log, committed := r.log, r.committed;
      if r.ok {
        Send(Blank(MsgAppResp, m.from).(index := r.last));
      } else {
        Send(Blank(MsgAppResp, m.from).(index := m.index, reject := true, rejectHint := last));
      }
    }

    method HandleHeartbeat(m: Message)
      modifies this`msgs, this`panicked, this`committed
      ensures State() == N.HandleHeartbeat(old(State()), m)
    {
      if committed < m.commit {
        if |log| < m.commit {
          panicked := true;
        } else {
          committed := m.commit;
        }
      }
      Send(Blank(MsgHeartbeatResp, m.from).(context := m.context));
    }

    /** The result says whether a proposal was dropped. */
    method StepFollower(m: Message) returns (dropped: bool)
      modifies this
      ensures State() == N.StepFollower(old(State()), m)
      ensures dropped <==> m.kind.MsgProp? && (old(lead) == NONE || cfg.dropProposals)
    {
      hide N.Send, N.HandleAppendEntries, N.HandleHeartbeat, N.Campaign;
      dropped := false;
      match m.kind
      case MsgProp =>
        if lead == NONE || cfg.dropProposals {
          dropped := true;
        } else {
          Send(m.(to := lead));
        }
      case MsgApp =>
        electionElapsed := 0;
        lead := m.from;
        HandleAppendEntries(m);
      case MsgHeartbeat =>
        electionElapsed := 0;
        lead := m.from;
        HandleHeartbeat(m);
      case MsgSnap =>
        panicked := true;
      case MsgTransferLeader =>
        if lead != NONE {
          Send(m.(to := lead));
        }
      case MsgTimeoutNow =>
        if cfg.id in prs {
          Campaign(N.Transfer);
        }
      case MsgReadIndex =>
        if lead != NONE {
          Send(m.(to := lead));
        }
      case MsgReadIndexResp =>
        if |m.entries| == 1 {
          readStates := readStates + [N.ReadState(m.index, m.entries[0].data)];
        }
      case _ =>
    }

    method HandleVoteResp(m: Message)
      modifies this
      ensures State() == N.HandleVoteResp(old(State()), m)
    {
      hide N.Campaign, N.BecomeLeader, N.BcastAppend, N.BecomeFollower, N.Granted;
      var granted := Poll(m.from, !m.reject);
      var quorum := |cfg.peers| / 2 + 1;
      if quorum == granted {
        if role.PreCandidate? {
          Campaign(N.Election);
        } else {
          BecomeLeader();
          BcastAppend();
        }
      } else if quorum == |votes| - granted {
        BecomeFollower(term, NONE);
      }
    }

    method StepCandidate(m: Message) returns (dropped: bool)
      modifies this
      ensures State() == N.StepCandidate(old(State()), m)
      ensures dropped <==> m.kind.MsgProp?
    {
      hide N.HandleAppendEntries, N.HandleHeartbeat, N.HandleVoteResp, N.BecomeFollower;
      dropped := m.kind.MsgProp?;
      match m.kind
      case MsgApp =>
        BecomeFollower(m.term, m.from);
        HandleAppendEntries(m);
      case MsgHeartbeat =>
        BecomeFollower(m.term, m.from);
        HandleHeartbeat(m);
      case MsgSnap =>
        panicked := true;
      case MsgPreVoteResp =>
        if role.PreCandidate? {
          HandleVoteResp(m);
        }
      case MsgVoteResp =>
        if !role.PreCandidate? {
          HandleVoteResp(m);
        }
      case _ =>
    }

    // ---------------------------------------------------------------- the leader

    method Propose(m: Message) returns (dropped: bool)
      modifies this
      ensures State() == N.Propose(old(State()), m)
      ensures dropped <==> m.entries != [] && N.LeaderDrops(old(State()))
    {
      hide N.AppendEntry, N.BcastAppend, N.FilterConf;
      dropped := false;
      if m.entries == [] {
        panicked := true;
        return;
      }
      if cfg.id !in prs || leadTransferee != NONE {
        return true;
      }
      var es, pending := FilterProposal(m.entries, pendingConfIndex, applied, |log|);
      pendingConfIndex := pending;
      AppendEntry(es);
      BcastAppend();
    }

    method ReadIndex(m: Message)
      modifies this
      ensures State() == N.ReadIndexReq(old(State()), m)
    {
      hide N.BcastHeartbeat, AddRequest, N.Send;
      if m.entries == [] {
        panicked := true;
        return;
      }
      if |cfg.peers| / 2 + 1 > 1 {
        if TermAt(log, committed) != term {
          return;
        }
        if !cfg.leaseRead {
          readOnly := AddRequest(readOnly, committed, m);
          BcastHeartbeatWithCtx(m.entries[0].data);
        } else if m.from == NONE || m.from == cfg.id {
          readStates := readStates + [N.ReadState(committed, m.entries[0].data)];
        } else {
          Send(Blank(MsgReadIndexResp, m.from).(index := committed, entries := m.entries));
        }
      } else {
        readStates := readStates + [N.ReadState(committed, m.entries[0].data)];
      }
    }

    method HandleRejection(m: Message)
      modifies this`msgs, this`panicked, this`prs
      ensures State() == N.HandleRejection(old(State()), m)
    {
      hide N.SendAppend, MaybeDecrTo;
      var (pr, changed) := MaybeDecrTo(N.Pr(State(), m.from), m.index, m.rejectHint);
      if changed && pr.state.Replicate? {
        pr := BecomeProbe(pr);
      }
      prs := prs[m.from := pr];
      if changed {
        SendAppend(m.from);
      }
    }

    /** The new commit index goes to everyone, or to a peer that was paused and may not have it. */
    method AfterAck(moved: bool, wasPaused: bool, from: NodeId)
      modifies this`msgs, this`panicked, this`prs
      ensures State() == N.AfterAck(old(State()), moved, wasPaused, from)
    {
      hide N.BcastAppend, N.SendAppend;
      if moved {
        BcastAppend();
      } else if wasPaused {
        SendAppend(from);
      }
    }

    method FinishTransfer(from: NodeId)
      modifies this`msgs, this`panicked
      ensures State() == N.FinishTransfer(old(State()), from)
    {
      if from == leadTransferee && N.Pr(State(), from).matched == |log| {
        Send(Blank(MsgTimeoutNow, from));
      }
    }

    method HandleAcceptance(m: Message)
      requires Valid() && role.Leader? && m.from in prs && m.from != cfg.id
      modifies this
      ensures State() == N.HandleAcceptance(old(State()), m)
    {
      hide Local, N.MaybeCommit, N.SendLoop, N.AfterAck, N.FinishTransfer, MaybeUpdate, N.Advanced, IsPaused;
      ghost var s := State();
      var wasPaused := IsPaused(N.Pr(State(), m.from), cfg.maxInflight);
      var (pr, updated) := MaybeUpdate(N.Pr(State(), m.from), m.index);
      prs := prs[m.from := pr];
      if updated {
        prs := prs[m.from := N.Advanced(pr, m.index)];
        assert prs == s.prs[m.from := N.Advanced(pr, m.index)];
        AckedReady(s, m);
        var moved := MaybeCommit();
        AfterAck(moved, wasPaused, m.from);
        SendAll(m.from);
        FinishTransfer(m.from);
      }
    }

    method HandleAppResp(m: Message)
      requires Valid() && role.Leader? && m.from in prs && m.from != cfg.id
      modifies this
      ensures State() == N.HandleAppResp(old(State()), m)
    {
      hide Local, N.HandleRejection, N.HandleAcceptance;
      HeardLocal(State(), m.from);
      prs := prs[m.from := N.Pr(State(), m.from).(recentActive := true)];
      if m.reject {
        HandleRejection(m);
      } else {
        HandleAcceptance(m);
      }
    }

    method Release(rss: seq<ReadStatus>)
      modifies this`readStates, this`msgs, this`panicked
      ensures State() == N.Release(old(State()), rss)
    {
      hide N.Send;
      ghost var s := State();
      var i := 0;
      assert rss[0..] == rss;
      while i < |rss|
        invariant 0 <= i <= |rss|
        invariant N.Release(s, rss) == N.Release(State(), rss[i..])
      {
        assert rss[i..][0] == rss[i] && rss[i..][1..] == rss[i + 1..];
        var rs := rss[i];
        if rs.req.from == NONE || rs.req.from == cfg.id {
          readStates := readStates + [N.ReadState(rs.index, Ctx(rs.req))];
        } else {
          Send(Blank(MsgReadIndexResp, rs.req.from).(index := rs.index, entries := rs.req.entries));
        }
        i := i + 1;
      }
    }

    method HandleReadAck(m: Message)
      modifies this`readOnly, this`readStates, this`msgs, this`panicked
      ensures State() == N.HandleReadAck(old(State()), m)
    {
      hide RecvAck, Advance, Backed, N.Release;
      if cfg.leaseRead || m.context == "" {
        return;
      }
      var (q, acks) := RecvAck(readOnly, m.from, m.context);
      readOnly := q;
      if acks < |cfg.peers| / 2 + 1 {
        return;
      }
      if !Backed(q) {
        panicked := true;
        return;
      }
      var (q', rss) := Advance(q, m.context);
      readOnly := q';
      Release(rss);
    }

    method HandleHeartbeatResp(m: Message)
      modifies this
      ensures State() == N.HandleHeartbeatResp(old(State()), m)
    {
      hide N.SendAppend, N.HandleReadAck, FreeFirstOne, IsFull;
      var pr := N.Pr(State(), m.from).(recentActive := true, paused := false);
      if pr.state.Replicate? && IsFull(pr, cfg.maxInflight) {
        pr := pr.(inflights := FreeFirstOne(pr.inflights));
      }
      prs := prs[m.from := pr];
      if pr.matched < |log| {
        SendAppend(m.from);
      }
      HandleReadAck(m);
    }

    method HandleTransfer(m: Message)
      modifies this
      ensures State() == N.HandleTransfer(old(State()), m)
    {
      hide N.SendAppend, N.Send;
      if leadTransferee != NONE {
        if leadTransferee == m.from {
          return;
        }
        leadTransferee := NONE;
      }
      if m.from == cfg.id {
        return;
      }
      electionElapsed := 0;
      leadTransferee := m.from;
      if N.Pr(State(), m.from).matched == |log| {
        Send(Blank(MsgTimeoutNow, m.from));
      } else {
        SendAppend(m.from);
      }
    }

    method StepLeader(m: Message) returns (dropped: bool)
      requires Valid() && role.Leader? && Sane(State(), m)
      modifies this
      ensures State() == N.StepLeader(old(State()), m)
      ensures dropped <==> m.kind.MsgProp? && m.entries != [] && N.LeaderDrops(old(State()))
    {
      hide Local, N.BcastHeartbeat, N.CheckQuorum, N.Propose, N.ReadIndexReq, N.HandleAppResp, N.HandleHeartbeatResp,
           N.HandleTransfer;
      dropped := false;
      match m.kind
      case MsgBeat => BcastHeartbeatWithCtx(LastPendingCtx(readOnly));
      case MsgCheckQuorum => CheckQuorum();
      case MsgProp => dropped := Propose(m);
      case MsgReadIndex => ReadIndex(m);
      case MsgAppResp => if m.from in prs { HandleAppResp(m); }
      case MsgHeartbeatResp => if m.from in prs { HandleHeartbeatResp(m); }
      case MsgSnapStatus =>
        if m.from in prs && prs[m.from].state.Snapshot? {
          var pr := prs[m.from];
          if m.reject {
            pr := pr.(pendingSnapshot := 0);
          }
          pr := BecomeProbe(pr);
          prs := prs[m.from := pr.(paused := true)];
        }
      case MsgUnreachable =>
        if m.from in prs && prs[m.from].state.Replicate? {
          prs := prs[m.from := BecomeProbe(prs[m.from])];
        }
      case MsgTransferLeader => if m.from in prs { HandleTransfer(m); }
      case _ =>
    }

    /** A leader that has not heard from a majority lately steps down. */
    method CheckQuorum()
      requires Valid()
      modifies this
      ensures State() == N.CheckQuorum(old(State()))
    {
      hide N.BecomeFollower, N.Rested, N.Active;
      PeersDistinct(State());
      var act, rested := CountActive(cfg.id, cfg.peers, prs);
      ActiveCounted(State());
      prs := rested;
      if act < |cfg.peers| / 2 + 1 {
        BecomeFollower(term, NONE);
      }
    }

    // ---------------------------------------------------------------- Step

    method Hup()
      modifies this
      ensures State() == N.Hup(old(State()))
    {
      hide N.Campaign, N.NumConf;
      if role.Leader? {
        return;
      }
      if applied > committed || committed > |log| {
        panicked := true;
        return;
      }
      var n := NumOfPendingConf(log[applied..committed]);
      if n != 0 && committed > applied {
        return;
      }
      Campaign(if cfg.preVote then N.PreElection else N.Election);
    }

    method HandleVote(m: Message)
      modifies this`msgs, this`panicked, this`electionElapsed, this`vote
      ensures State() == N.HandleVote(old(State()), m)
    {
      hide IsUpToDate;
      var resp := Blank(if m.kind.MsgVote? then MsgVoteResp else MsgPreVoteResp, m.from);
      var canVote := vote == m.from || (vote == NONE && lead == NONE) || (m.kind.MsgPreVote? && m.term > term);
      if canVote && IsUpToDate(log, m.index, m.logTerm) {
        Send(resp.(term := m.term));
        if m.kind.MsgVote? {
          electionElapsed := 0;
          vote := m.from;
        }
      } else {
        Send(resp.(term := term, reject := true));
      }
    }

    /** Takes note of the term of a message; the result says whether to go on. */
    method NoteTerm(m: Message) returns (go: bool)
      modifies this
      ensures N.NoteTerm(old(State()), m) == if go then N.Go(State()) else N.Stop(State())
    {
      hide N.BecomeFollower, N.Send;
      if m.term == 0 {
        return true;
      }
      if m.term > term {
        if m.kind.MsgVote? || m.kind.MsgPreVote? {
          var force := m.context == N.CAMPAIGN_TRANSFER;
          var inLease := cfg.checkQuorum && lead != NONE && electionElapsed < cfg.electionTimeout;
          if !force && inLease {
            return false;
          }
        }
        if m.kind.MsgPreVote? || (m.kind.MsgPreVoteResp? && !m.reject) {
        } else if m.kind.MsgApp? || m.kind.MsgHeartbeat? || m.kind.MsgSnap? {
          BecomeFollower(m.term, m.from);
        } else {
          BecomeFollower(m.term, NONE);
        }
      } else if term > m.term {
        if (cfg.checkQuorum || cfg.preVote) && (m.kind.MsgHeartbeat? || m.kind.MsgApp?) {
          Send(Blank(MsgAppResp, m.from));
        } else if m.kind.MsgPreVote? {
          Send(Blank(MsgPreVoteResp, m.from).(term := term, reject := true));
        }
        return false;
      }
      go := true;
    }

    method StepByRole(m: Message) returns (dropped: bool)
      requires Valid() && Sane(State(), m)
      modifies this
      ensures State() == N.RoleStep(old(State()), m)
      ensures dropped <==> Drops(old(State()), m)
    {
      hide Local, Sane, N.StepLeader, N.StepFollower, N.StepCandidate;
      match role
      case Leader => dropped := StepLeader(m);
      case Follower => dropped := StepFollower(m);
      case Candidate => dropped := StepCandidate(m);
      case PreCandidate => dropped := StepCandidate(m);
    }

    /** One message: the object keeps its invariant and ends in the state the transition function
        gives. */
    method Step(m: Message) returns (dropped: bool)
      requires Valid() && Sane(State(), m)
      modifies this
      ensures Valid() && State() == N.Step(old(State()), m)
      ensures dropped <==> var noted := N.NoteTerm(old(State()), m); noted.Go? && Drops(noted.n, m)
    {
      hide Local, Sane, N.NoteTerm, N.Hup, N.HandleVote, N.RoleStep;
      StepLocal(State(), m);
      NoteTermLocal(State(), m);
      SaneNoted(State(), m);
      dropped := false;
      var go := NoteTerm(m);
      if !go {
        return;
      }
      match m.kind
      case MsgHup => Hup();
      case MsgVote => HandleVote(m);
      case MsgPreVote => HandleVote(m);
      case _ => dropped := StepByRole(m);
    }
  }

  lemma SaneNoted(n: N.Node, m: Message)
    requires Sane(n, m)
    ensures N.NoteTerm(n, m).Go? ==> Sane(N.NoteTerm(n, m).n, m)
  {
  }

  lemma HeardLocal(n: N.Node, p: NodeId)
    requires Local(n) && p in n.prs
    ensures Local(n.(prs := n.prs[p := N.Pr(n, p).(recentActive := true)]))
  {
    assert Pipelined(n.prs[p], n.cfg.maxInflight);
    SetPrLocal(n, p, N.Pr(n, p).(recentActive := true));
  }

  /** Once an acknowledgement is recorded and the commit index moved, sending may go on. */
  lemma AckedReady(n: N.Node, m: Message)
    requires Local(n) && n.role.Leader? && m.from in n.prs && m.from != n.cfg.id
    ensures var (pr, updated) := MaybeUpdate(N.Pr(n, m.from), m.index);
      updated ==>
        var (n1, moved) := N.MaybeCommit(N.SetPr(n, m.from, N.Advanced(pr, m.index)));
        var n2 := N.AfterAck(n1, moved, IsPaused(N.Pr(n, m.from), n.cfg.maxInflight), m.from);
        Local(n2) && m.from in n2.prs
  {
    hide Local, N.MaybeCommit, N.AfterAck, N.Advanced, MaybeUpdate;
    var (pr, updated) := MaybeUpdate(N.Pr(n, m.from), m.index);
    if updated {
      AckedWindow(n, m);
      var n0 := N.SetPr(n, m.from, N.Advanced(pr, m.index));
      SetPrLocal(n, m.from, N.Advanced(pr, m.index));
      LeaderHasTerm(n);
      MaybeCommitLocal(n0);
      var (n1, moved) := N.MaybeCommit(n0);
      SamePeers(n0);
      AfterAckLocal(n1, moved, IsPaused(N.Pr(n, m.from), n.cfg.maxInflight), m.from);
      var n2 := N.AfterAck(n1, moved, IsPaused(N.Pr(n, m.from), n.cfg.maxInflight), m.from);
      InPeers(n0, m.from);
      InPeers(n1, m.from);
      InPeers(n2, m.from);
    }
  }

  lemma LeaderHasTerm(n: N.Node)
    requires Local(n) && n.role.Leader?
    ensures n.term > 0
  {
  }

  lemma AckedWindow(n: N.Node, m: Message)
    requires Local(n) && m.from in n.prs
    ensures var (pr, updated) := MaybeUpdate(N.Pr(n, m.from), m.index);
      updated ==> Pipelined(N.Advanced(pr, m.index), n.cfg.maxInflight) && !N.Advanced(pr, m.index).state.Snapshot?
  {
    assert Pipelined(n.prs[m.from], n.cfg.maxInflight);
    var (pr, updated) := MaybeUpdate(N.Pr(n, m.from), m.index);
    if updated { AdvancedPipelined(n.prs[m.from], m.index, n.cfg.maxInflight); }
  }

  lemma SamePeers(n: N.Node)
    ensures N.MaybeCommit(n).0.prs == n.prs && N.MaybeCommit(n).0.cfg == n.cfg
  {
  }

  lemma InPeers(n: N.Node, p: NodeId)
    requires Local(n)
    ensures p in n.prs <==> p in n.cfg.peers
  {
    assert PrsOK(n.cfg, n.prs);
  }

  // ---------------------------------------------------------------- counting active peers

  ghost predicate Unrepeated(ps: seq<NodeId>) {
    forall i, j :: 0 <= i < j < |ps| ==> ps[i] != ps[j]
  }

  ghost function ActiveIn(id: NodeId, ps: seq<NodeId>, prs: map<NodeId, Progress>): set<NodeId> {
    set p | p in ps && (p == id || (p in prs && prs[p].recentActive))
  }

  /** The progress after the loop has seen the given peers. */
  function RestedIn(id: NodeId, ps: seq<NodeId>, prs: map<NodeId, Progress>): map<NodeId, Progress> {
    map p | p in prs :: if p in ps && p != id then prs[p].(recentActive := false) else prs[p]
  }

  lemma NextActive(id: NodeId, ps: seq<NodeId>, p: NodeId, prs: map<NodeId, Progress>)
    requires p !in ps
    ensures |ActiveIn(id, ps + [p], prs)| ==
            |ActiveIn(id, ps, prs)| + (if p == id || (p in prs && prs[p].recentActive) then 1 else 0)
  {
    var a := ActiveIn(id, ps, prs);
    assert ActiveIn(id, ps + [p], prs) == if p == id || (p in prs && prs[p].recentActive) then a + {p} else a;
  }

  lemma NextRested(id: NodeId, ps: seq<NodeId>, p: NodeId, prs: map<NodeId, Progress>)
    requires p in prs && p !in ps
    ensures p in RestedIn(id, ps, prs) && RestedIn(id, ps, prs)[p] == prs[p]
    ensures RestedIn(id, ps + [p], prs) ==
            if p == id then RestedIn(id, ps, prs)
            else RestedIn(id, ps, prs)[p := RestedIn(id, ps, prs)[p].(recentActive := false)]
  {
  }

  lemma NoneSeen(id: NodeId, prs: map<NodeId, Progress>)
    ensures RestedIn(id, [], prs) == prs && ActiveIn(id, [], prs) == {}
  {
  }

  lemma AllSeen(id: NodeId, peers: seq<NodeId>, prs: map<NodeId, Progress>)
    requires forall p :: p in prs ==> p in peers
    ensures RestedIn(id, peers, prs) == N.Rested(id, prs)
  {
  }

  /** The loop of `checkQuorumActive`: counts the peers heard from and starts the next round. */
  method CountActive(id: NodeId, peers: seq<NodeId>, prs: map<NodeId, Progress>) returns (act: nat, rested: map<NodeId, Progress>)
    requires Unrepeated(peers) && (forall p :: p in prs <==> p in peers)
    ensures act == |ActiveIn(id, peers, prs)| && rested == N.Rested(id, prs)
  {
    hide ActiveIn, RestedIn, N.Rested;
    act, rested := 0, prs;
    var i := 0;
    NoneSeen(id, prs);
    assert peers[..0] == [];
    while i < |peers|
      invariant 0 <= i <= |peers|
      invariant act == |ActiveIn(id, peers[..i], prs)| && rested == RestedIn(id, peers[..i], prs)
    {
      var p := peers[i];
      assert peers[..i + 1] == peers[..i] + [p] && p !in peers[..i];
      NextActive(id, peers[..i], p, prs);
      NextRested(id, peers[..i], p, prs);
      if p == id {
        act := act + 1;
      } else {
        if rested[p].recentActive {
          act := act + 1;
        }
        rested := rested[p := rested[p].(recentActive := false)];
      }
      i := i + 1;
    }
    assert peers[..i] == peers;
    AllSeen(id, peers, prs);
  }

  lemma PeersDistinct(n: N.Node)
    requires Local(n)
    ensures Unrepeated(n.cfg.peers) && (forall p :: p in n.prs <==> p in n.cfg.peers)
  {
    assert PrsOK(n.cfg, n.prs) && ConfigOK(n.cfg);
  }

  lemma ActiveCounted(n: N.Node)
    requires forall p :: p in n.prs <==> p in n.cfg.peers
    ensures N.Active(n) == ActiveIn(n.cfg.id, n.cfg.peers, n.prs)
  {
  }

  lemma SendsKeepPeers(n: N.Node, to: NodeId)
    requires to in n.prs
    ensures to in N.MaybeSendAppend(n, to, false).0.prs
  {
    hide N.EntriesFrom, N.ProgressSent;
  }
}
