/** One Raft node (src/raft.cc, src/raft.h) as a pure transition: `Step` maps a node and a
    message to the node that results, with the messages it sends appended to `msgs`.
    A RAFT_LOG(PANIC) exit sets `panicked`; `Cluster` proves that it is never set.
    The membership is a fixed list of voters and the log is never compacted. */
module Nodes {
  import opened Types
  import opened Logs
  import opened Progresses
  import opened ReadQueues
  import opened Commitment

  datatype Role = Follower | Candidate | PreCandidate | Leader

  datatype CampaignType = PreElection | Election | Transfer

  const CAMPAIGN_TRANSFER: string := "CampaignTransfer"

  datatype Config = Config(
    id: NodeId,
    peers: seq<NodeId>,
    maxMsgSize: nat,
    maxInflight: nat,
    electionTimeout: nat,
    checkQuorum: bool,
    preVote: bool,
    leaseRead: bool,
    dropProposals: bool)

  datatype ReadState = ReadState(index: nat, ctx: string)

  datatype Node = Node(
    cfg: Config,
    term: nat,
    vote: NodeId,
    lead: NodeId,
    role: Role,
    log: Log,
    committed: nat,
    applied: nat,
    votes: map<NodeId, bool>,
    prs: map<NodeId, Progress>,
    leadTransferee: NodeId,
    pendingConfIndex: nat,
    readOnly: ReadQueue,
    readStates: seq<ReadState>,
    electionElapsed: nat,
    msgs: seq<Message>,
    panicked: bool)

  function Panic(n: Node): Node {
    n.(panicked := true)
  }

  function LastIndex(n: Node): nat {
    |n.log|
  }

  function Quorum(n: Node): nat {
    |n.cfg.peers| / 2 + 1
  }

  /** `getProgress`; peers always have one. */
  function Pr(n: Node, p: NodeId): Progress {
    if p in n.prs then n.prs[p] else Fresh(1, 0)
  }

  function SetPr(n: Node, p: NodeId, pr: Progress): Node {
    n.(prs := n.prs[p := pr])
  }

  // ---------------------------------------------------------------- sending

  predicate IsCampaignMsg(k: MsgType) {
    k.MsgVote? || k.MsgVoteResp? || k.MsgPreVote? || k.MsgPreVoteResp?
  }

  /** Campaign messages must carry a term of their own; all others must not. */
  predicate BadTerm(m: Message) {
    if IsCampaignMsg(m.kind) then m.term == 0 else m.term != 0
  }

  /** The message as it leaves: from this node, in its term unless it is a campaign message or
      a request forwarded to the leader. */
  function Stamped(n: Node, m: Message): Message {
    var m' := m.(from := n.cfg.id);
    if IsCampaignMsg(m.kind) || m.kind.MsgProp? || m.kind.MsgReadIndex? then m' else m'.(term := n.term)
  }

  function Send(n: Node, m: Message): Node {
    if BadTerm(m) then Panic(n) else n.(msgs := n.msgs + [Stamped(n, m)])
  }

  /** `RaftLog::entries` from the peer's next index, within the message size limit. */
  function EntriesFrom(n: Node, next: nat): seq<Entry> {
    if next == 0 || next > LastIndex(n) then [] else LimitSize(n.cfg.maxMsgSize, n.log[next - 1..])
  }

  function AppendMsg(n: Node, to: NodeId): Message {
    var next := Pr(n, to).next;
    var prev := if next == 0 then 0 else next - 1;
    Blank(MsgApp, to).(index := prev, logTerm := TermAt(n.log, prev), entries := EntriesFrom(n, next), commit := n.committed)
  }

  /** The peer's progress once these entries are on their way. A peer in Snapshot is paused,
      so nothing is ever sent to it. */
  function ProgressSent(pr: Progress, ents: seq<Entry>): Progress {
    if ents == [] then pr
    else
      var last := ents[|ents| - 1].index;
      match pr.state
      case Replicate => OptimisticUpdate(pr, last).(inflights := pr.inflights + [last])
      case Probe => pr.(paused := true)
      case Snapshot => pr
  }

  function MaybeSendAppend(n: Node, to: NodeId, sendIfEmpty: bool): (Node, bool) {
    var pr := Pr(n, to);
    var m := AppendMsg(n, to);
    if IsPaused(pr, n.cfg.maxInflight) || (m.entries == [] && !sendIfEmpty) then (n, false)
    else if pr.next == 0 then (Panic(n), false)
    else (Send(SetPr(n, to, ProgressSent(pr, m.entries)), m), true)
  }

  function SendAppend(n: Node, to: NodeId): Node {
    MaybeSendAppend(n, to, true).0
  }

  /** How many more messages the send loop can produce at most. */
  function SendBudget(n: Node, to: NodeId): nat {
    var pr := Pr(n, to);
    if IsPaused(pr, n.cfg.maxInflight) then 0
    else if pr.next <= LastIndex(n) then LastIndex(n) + 2 - pr.next
    else 1
  }

  /** `while (maybeSendAppend(to, false)) {}`; an iteration without progress would loop for ever
      and counts as a panic. */
  function SendLoop(n: Node, to: NodeId): Node
    decreases SendBudget(n, to)
  {
    var (n', sent) := MaybeSendAppend(n, to, false);
    if !sent then n'
    else if SendBudget(n', to) < SendBudget(n, to) then SendLoop(n', to)
    else Panic(n')
  }

  function BcastAppend(n: Node, ps: seq<NodeId>): Node
    decreases |ps|
  {
    if ps == [] then n
    else if ps[0] == n.cfg.id then BcastAppend(n, ps[1..])
    else BcastAppend(SendAppend(n, ps[0]), ps[1..])
  }

  function SendHeartbeat(n: Node, to: NodeId, ctx: string): Node {
    Send(n, Blank(MsgHeartbeat, to).(commit := Min(Pr(n, to).matched, n.committed), context := ctx))
  }

  function BcastHeartbeat(n: Node, ps: seq<NodeId>, ctx: string): Node
    decreases |ps|
  {
    if ps == [] then n
    else if ps[0] == n.cfg.id then BcastHeartbeat(n, ps[1..], ctx)
    else BcastHeartbeat(SendHeartbeat(n, ps[0], ctx), ps[1..], ctx)
  }

  function SendTimeoutNow(n: Node, to: NodeId): Node {
    Send(n, Blank(MsgTimeoutNow, to))
  }

  // ---------------------------------------------------------------- role changes

  /** What a node assumes of its peers when its role changes: nothing, except of itself. */
  function FreshPeers(id: NodeId, peers: seq<NodeId>, last: nat): map<NodeId, Progress> {
    map p | p in peers :: Fresh(last + 1, if p == id then last else 0)
  }

  function Reset(n: Node, term: nat): Node {
    n.(term := term,
       vote := if n.term != term then NONE else n.vote,
       lead := NONE,
       electionElapsed := 0,
       leadTransferee := NONE,
       votes := map[],
       prs := FreshPeers(n.cfg.id, n.cfg.peers, LastIndex(n)),
       pendingConfIndex := 0,
       readOnly := EmptyQueue())
  }

  function BecomeFollower(n: Node, term: nat, lead: NodeId): Node {
    Reset(n, term).(lead := lead, role := Follower)
  }

  /** What a node starts from: the stored log and hard state, and how much its application has applied. */
  datatype Stored = Stored(log: Log, term: nat, vote: NodeId, commit: nat, applied: nat)

  /** A node that starts from what is stored; a commit index outside the log is a panic, and so is an
      applied index beyond it. */
  function Started(cfg: Config, s: Stored): Node {
    var n := Node(cfg, s.term, s.vote, NONE, Follower, s.log, s.commit, s.applied, map[], map[], NONE, 0, EmptyQueue(), [], 0, [],
                  s.commit > |s.log| || s.applied > s.commit);
    BecomeFollower(n, n.term, NONE)
  }

  /** A node that was never started before. */
  function NewNode(cfg: Config): Node {
    Started(cfg, Stored([], 0, NONE, 0, 0))
  }

  function BecomeCandidate(n: Node): Node {
    if n.role.Leader? then Panic(n)
    else Reset(n, n.term + 1).(vote := n.cfg.id, role := Candidate)
  }

  function BecomePreCandidate(n: Node): Node {
    if n.role.Leader? then Panic(n) else n.(votes := map[], role := PreCandidate)
  }

  function MatchIndexes(n: Node): seq<nat> {
    seq(|n.cfg.peers|, i requires 0 <= i < |n.cfg.peers| => Pr(n, n.cfg.peers[i]).matched)
  }

  function MaybeCommit(n: Node): (Node, bool) {
    var ms := MatchIndexes(n);
    if Quorum(n) > |ms| then (Panic(n), false)
    else
      var mci := QuorumIndex(ms, Quorum(n));
      if mci > n.committed && TermAt(n.log, mci) == n.term then
        var (c, p) := CommitTo(n.log, n.committed, mci);
        ((if p then Panic(n) else n).(committed := c), true)
      else (n, false)
  }

  /** The entries of a proposal with this leader's term and the next indexes. */
  function Stamp(n: Node, es: seq<Entry>): seq<Entry> {
    seq(|es|, i requires 0 <= i < |es| => es[i].(term := n.term, index := LastIndex(n) + 1 + i))
  }

  function AppendEntry(n: Node, es: seq<Entry>): Node {
    var (log, p) := AppendTo(n.log, n.committed, Stamp(n, es));
    var n1 := (if p then Panic(n) else n).(log := log);
    var n2 := SetPr(n1, n.cfg.id, MaybeUpdate(Pr(n1, n.cfg.id), |log|).0);
    MaybeCommit(n2).0
  }

  function BecomeLeader(n: Node): Node {
    if n.role.Follower? then Panic(n)
    else
      var r := Reset(n, n.term).(lead := n.cfg.id, role := Leader, pendingConfIndex := LastIndex(n));
      AppendEntry(r, [Entry(0, 0, EntryNormal, "")])
  }

  function Granted(votes: map<NodeId, bool>): set<NodeId> {
    set p | p in votes && votes[p]
  }

  function Poll(n: Node, id: NodeId, v: bool): (Node, nat) {
    var votes := if id in n.votes then n.votes else n.votes[id := v];
    (n.(votes := votes), |Granted(votes)|)
  }

  function SendVotes(n: Node, ps: seq<NodeId>, m: Message): Node
    decreases |ps|
  {
    if ps == [] then n
    else if ps[0] == n.cfg.id then SendVotes(n, ps[1..], m)
    else SendVotes(Send(n, m.(to := ps[0])), ps[1..], m)
  }

  function VoteRequest(n: Node, t: CampaignType): Message {
    Blank(if t.PreElection? then MsgPreVote else MsgVote, NONE).(
      term := if t.PreElection? then n.term + 1 else n.term,
      index := LastIndex(n),
      logTerm := TermAt(n.log, LastIndex(n)),
      context := if t.Transfer? then CAMPAIGN_TRANSFER else "")
  }

  function RunForOffice(n: Node, t: CampaignType): Node
    requires !t.PreElection?
  {
    var (n1, granted) := Poll(BecomeCandidate(n), n.cfg.id, true);
    if Quorum(n1) == granted then BecomeLeader(n1)
    else SendVotes(n1, n1.cfg.peers, VoteRequest(n1, t))
  }

  function Campaign(n: Node, t: CampaignType): Node {
    if t.PreElection? then
      var (n1, granted) := Poll(BecomePreCandidate(n), n.cfg.id, true);
      if Quorum(n1) == granted then RunForOffice(n1, Election)
      else SendVotes(n1, n1.cfg.peers, VoteRequest(n1, t))
    else RunForOffice(n, t)
  }

  // ---------------------------------------------------------------- handlers

  function HandleAppendEntries(n: Node, m: Message): Node {
    if m.index < n.committed then
      Send(n, Blank(MsgAppResp, m.from).(index := n.committed))
    else
      var r := MaybeAppend(n.log, n.committed, m.index, m.logTerm, m.commit, m.entries);
      var n1 := (if r.panic then Panic(n) else n).(log := r.log, committed := r.committed);
      if r.ok then Send(n1, Blank(MsgAppResp, m.from).(index := r.last))
      else Send(n1, Blank(MsgAppResp, m.from).(index := m.index, reject := true, rejectHint := LastIndex(n)))
  }

  function HandleHeartbeat(n: Node, m: Message): Node {
    var (c, p) := CommitTo(n.log, n.committed, m.commit);
    var n1 := (if p then Panic(n) else n).(committed := c);
    Send(n1, Blank(MsgHeartbeatResp, m.from).(context := m.context))
  }

  function StepFollower(n: Node, m: Message): Node {
    match m.kind
    case MsgProp =>
      if n.lead == NONE || n.cfg.dropProposals then n else Send(n, m.(to := n.lead))
    case MsgApp => HandleAppendEntries(n.(electionElapsed := 0, lead := m.from), m)
    case MsgHeartbeat => HandleHeartbeat(n.(electionElapsed := 0, lead := m.from), m)
    case MsgSnap => Panic(n)
    case MsgTransferLeader =>
      if n.lead == NONE then n else Send(n, m.(to := n.lead))
    case MsgTimeoutNow => if n.cfg.id in n.prs then Campaign(n, Transfer) else n
    case MsgReadIndex =>
      if n.lead == NONE then n else Send(n, m.(to := n.lead))
    case MsgReadIndexResp =>
      if |m.entries| != 1 then n
      else n.(readStates := n.readStates + [ReadState(m.index, m.entries[0].data)])
    case _ => n
  }

  function HandleVoteResp(n: Node, m: Message): Node {
    var (n1, granted) := Poll(n, m.from, !m.reject);
    if Quorum(n1) == granted then
      if n1.role.PreCandidate? then Campaign(n1, Election)
      else
        var n2 := BecomeLeader(n1);
        BcastAppend(n2, n2.cfg.peers)
    else if Quorum(n1) == |n1.votes| - granted then BecomeFollower(n1, n1.term, NONE)
    else n1
  }

  function StepCandidate(n: Node, m: Message): Node {
    match m.kind
    case MsgApp => HandleAppendEntries(BecomeFollower(n, m.term, m.from), m)
    case MsgHeartbeat => HandleHeartbeat(BecomeFollower(n, m.term, m.from), m)
    case MsgSnap => Panic(n)
    case MsgPreVoteResp => if n.role.PreCandidate? then HandleVoteResp(n, m) else n
    case MsgVoteResp => if n.role.PreCandidate? then n else HandleVoteResp(n, m)
    case _ => n
  }

  // ---------------------------------------------------------------- the leader

  /** Proposed configuration changes are let through one at a time: the batch with the others
      blanked, and the new pendingConfIndex_. */
  function FilterConf(es: seq<Entry>, pending: nat, applied: nat, next: nat): (seq<Entry>, nat)
    decreases |es|
  {
    if es == [] then ([], pending)
    else if !es[0].kind.EntryConfChange? then
      var (rest, p) := FilterConf(es[1..], pending, applied, next + 1);
      ([es[0]] + rest, p)
    else if pending > applied then
      var (rest, p) := FilterConf(es[1..], pending, applied, next + 1);
      ([Entry(0, 0, EntryNormal, "")] + rest, p)
    else
      var (rest, p) := FilterConf(es[1..], next, applied, next + 1);
      ([es[0]] + rest, p)
  }

  /** Whether the leader answers a proposal with ErrProposalDropped. */
  predicate LeaderDrops(n: Node) {
    n.cfg.id !in n.prs || n.leadTransferee != NONE
  }

  function Propose(n: Node, m: Message): Node {
    if m.entries == [] then Panic(n)
    else if LeaderDrops(n) then n
    else
      var (es, pending) := FilterConf(m.entries, n.pendingConfIndex, n.applied, LastIndex(n) + 1);
      var n1 := AppendEntry(n.(pendingConfIndex := pending), es);
      BcastAppend(n1, n1.cfg.peers)
  }

  function ReadIndexReq(n: Node, m: Message): Node {
    if m.entries == [] then Panic(n)
    else if Quorum(n) <= 1 then n.(readStates := n.readStates + [ReadState(n.committed, Ctx(m))])
    else if TermAt(n.log, n.committed) != n.term then n
    else if n.cfg.leaseRead then
      if m.from == NONE || m.from == n.cfg.id then n.(readStates := n.readStates + [ReadState(n.committed, Ctx(m))])
      else Send(n, Blank(MsgReadIndexResp, m.from).(index := n.committed, entries := m.entries))
    else
      var n1 := n.(readOnly := AddRequest(n.readOnly, n.committed, m));
      BcastHeartbeat(n1, n1.cfg.peers, Ctx(m))
  }

  function HandleRejection(n: Node, m: Message): Node {
    var (pr, changed) := MaybeDecrTo(Pr(n, m.from), m.index, m.rejectHint);
    if !changed then SetPr(n, m.from, pr)
    else SendAppend(SetPr(n, m.from, if pr.state.Replicate? then BecomeProbe(pr) else pr), m.from)
  }

  /** The peer's progress after it acknowledged index i. */
  function Advanced(pr: Progress, i: nat): Progress {
    match pr.state
    case Probe => BecomeReplicate(pr)
    case Snapshot => if NeedSnapshotAbort(pr) then BecomeProbe(pr) else pr
    case Replicate => pr.(inflights := FreeTo(pr.inflights, i))
  }

  /** What the leader sends after an acknowledgement: the new commit index to everyone, or what
      a peer that was paused may be missing. */
  function AfterAck(n: Node, moved: bool, wasPaused: bool, from: NodeId): Node {
    if moved then BcastAppend(n, n.cfg.peers) else if wasPaused then SendAppend(n, from) else n
  }

  function FinishTransfer(n: Node, from: NodeId): Node {
    if from == n.leadTransferee && Pr(n, from).matched == LastIndex(n) then SendTimeoutNow(n, from) else n
  }

  function HandleAcceptance(n: Node, m: Message): Node {
    var (pr, updated) := MaybeUpdate(Pr(n, m.from), m.index);
    if !updated then SetPr(n, m.from, pr)
    else
      var (n1, moved) := MaybeCommit(SetPr(n, m.from, Advanced(pr, m.index)));
      var n2 := AfterAck(n1, moved, IsPaused(Pr(n, m.from), n.cfg.maxInflight), m.from);
      FinishTransfer(SendLoop(n2, m.from), m.from)
  }

  function HandleAppResp(n: Node, m: Message): Node {
    var n1 := SetPr(n, m.from, Pr(n, m.from).(recentActive := true));
    if m.reject then HandleRejection(n1, m) else HandleAcceptance(n1, m)
  }

  function Release(n: Node, rss: seq<ReadStatus>): Node
    decreases |rss|
  {
    if rss == [] then n
    else
      var rs := rss[0];
      var n1 :=
        if rs.req.from == NONE || rs.req.from == n.cfg.id then
          n.(readStates := n.readStates + [ReadState(rs.index, Ctx(rs.req))])
        else Send(n, Blank(MsgReadIndexResp, rs.req.from).(index := rs.index, entries := rs.req.entries));
      Release(n1, rss[1..])
  }

  function HandleReadAck(n: Node, m: Message): Node {
    if n.cfg.leaseRead || m.context == "" then n
    else
      var (q, acks) := RecvAck(n.readOnly, m.from, m.context);
      var n1 := n.(readOnly := q);
      if acks < Quorum(n) then n1
      else if !Backed(q) then Panic(n1)
      else
        var (q', rss) := Advance(q, m.context);
        Release(n1.(readOnly := q'), rss)
  }

  function HandleHeartbeatResp(n: Node, m: Message): Node {
    var pr := Pr(n, m.from).(recentActive := true, paused := false);
    var pr1 :=
      if pr.state.Replicate? && IsFull(pr, n.cfg.maxInflight) then pr.(inflights := FreeFirstOne(pr.inflights))
      else pr;
    var n1 := SetPr(n, m.from, pr1);
    var n2 := if pr1.matched < LastIndex(n1) then SendAppend(n1, m.from) else n1;
    HandleReadAck(n2, m)
  }

  function HandleSnapStatus(n: Node, m: Message): Node {
    var pr := Pr(n, m.from);
    if !pr.state.Snapshot? then n
    else
      var pr1 := BecomeProbe(if m.reject then pr.(pendingSnapshot := 0) else pr);
      SetPr(n, m.from, pr1.(paused := true))
  }

  function HandleTransfer(n: Node, m: Message): Node {
    if n.leadTransferee != NONE && n.leadTransferee == m.from then n
    else
      var n1 := n.(leadTransferee := NONE);
      if m.from == n.cfg.id then n1
      else
        var n2 := n1.(electionElapsed := 0, leadTransferee := m.from);
        if Pr(n2, m.from).matched == LastIndex(n2) then SendTimeoutNow(n2, m.from)
        else SendAppend(n2, m.from)
  }

  function Active(n: Node): set<NodeId> {
    set p | p in n.cfg.peers && (p == n.cfg.id || Pr(n, p).recentActive)
  }

  /** The progress of every peer but the node itself, waiting to be heard from again. */
  function Rested(id: NodeId, prs: map<NodeId, Progress>): map<NodeId, Progress> {
    map p | p in prs :: if p == id then prs[p] else prs[p].(recentActive := false)
  }

  function CheckQuorum(n: Node): Node {
    var n1 := n.(prs := Rested(n.cfg.id, n.prs));
    if |Active(n)| >= Quorum(n) then n1 else BecomeFollower(n1, n1.term, NONE)
  }

  function HandleUnreachable(n: Node, m: Message): Node {
    if Pr(n, m.from).state.Replicate? then SetPr(n, m.from, BecomeProbe(Pr(n, m.from))) else n
  }

  /** The messages that concern the progress of the peer they come from. */
  function StepLeaderPeer(n: Node, m: Message): Node {
    match m.kind
    case MsgAppResp => HandleAppResp(n, m)
    case MsgHeartbeatResp => HandleHeartbeatResp(n, m)
    case MsgSnapStatus => HandleSnapStatus(n, m)
    case MsgUnreachable => HandleUnreachable(n, m)
    case MsgTransferLeader => HandleTransfer(n, m)
    case _ => n
  }

  function StepLeader(n: Node, m: Message): Node {
    match m.kind
    case MsgBeat => BcastHeartbeat(n, n.cfg.peers, LastPendingCtx(n.readOnly))
    case MsgCheckQuorum => CheckQuorum(n)
    case MsgProp => Propose(n, m)
    case MsgReadIndex => ReadIndexReq(n, m)
    case _ => if m.from !in n.prs then n else StepLeaderPeer(n, m)
  }

  // ---------------------------------------------------------------- Step

  function NumConf(ents: seq<Entry>): nat {
    if ents == [] then 0 else (if ents[0].kind.EntryConfChange? then 1 else 0) + NumConf(ents[1..])
  }

  function Hup(n: Node): Node {
    if n.role.Leader? then n
    else if n.applied > n.committed || n.committed > LastIndex(n) then Panic(n)
    else if NumConf(n.log[n.applied..n.committed]) != 0 && n.committed > n.applied then n
    else Campaign(n, if n.cfg.preVote then PreElection else Election)
  }

  predicate CanVote(n: Node, m: Message) {
    n.vote == m.from || (n.vote == NONE && n.lead == NONE) || (m.kind.MsgPreVote? && m.term > n.term)
  }

  function HandleVote(n: Node, m: Message): Node {
    var resp := Blank(if m.kind.MsgVote? then MsgVoteResp else MsgPreVoteResp, m.from);
    if CanVote(n, m) && IsUpToDate(n.log, m.index, m.logTerm) then
      var n1 := Send(n, resp.(term := m.term));
      if m.kind.MsgVote? then n1.(electionElapsed := 0, vote := m.from) else n1
    else Send(n, resp.(term := n.term, reject := true))
  }

  /** A node that has heard from a leader within its election timeout refuses to disturb it. */
  predicate InLease(n: Node) {
    n.cfg.checkQuorum && n.lead != NONE && n.electionElapsed < n.cfg.electionTimeout
  }

  /** The node once it has taken note of the message's term; `Stop` when that ends the step. */
  datatype Noted = Go(n: Node) | Stop(n: Node)

  function NoteHigher(n: Node, m: Message): Noted {
    if (m.kind.MsgVote? || m.kind.MsgPreVote?) && m.context != CAMPAIGN_TRANSFER && InLease(n) then Stop(n)
    else if m.kind.MsgPreVote? || (m.kind.MsgPreVoteResp? && !m.reject) then Go(n)
    else if m.kind.MsgApp? || m.kind.MsgHeartbeat? || m.kind.MsgSnap? then Go(BecomeFollower(n, m.term, m.from))
    else Go(BecomeFollower(n, m.term, NONE))
  }

  function NoteLower(n: Node, m: Message): Node {
    if (n.cfg.checkQuorum || n.cfg.preVote) && (m.kind.MsgHeartbeat? || m.kind.MsgApp?) then
      Send(n, Blank(MsgAppResp, m.from))
    else if m.kind.MsgPreVote? then
      Send(n, Blank(MsgPreVoteResp, m.from).(term := n.term, reject := true))
    else n
  }

  function NoteTerm(n: Node, m: Message): Noted {
    if m.term == 0 || m.term == n.term then Go(n)
    else if m.term > n.term then NoteHigher(n, m)
    else Stop(NoteLower(n, m))
  }

  function RoleStep(n: Node, m: Message): Node {
    match n.role
    case Leader => StepLeader(n, m)
    case Follower => StepFollower(n, m)
    case Candidate => StepCandidate(n, m)
    case PreCandidate => StepCandidate(n, m)
  }

  function Dispatch(n: Node, m: Message): Node {
    match m.kind
    case MsgHup => Hup(n)
    case MsgVote => HandleVote(n, m)
    case MsgPreVote => HandleVote(n, m)
    case _ => RoleStep(n, m)
  }

  function Step(n: Node, m: Message): Node {
    var noted := NoteTerm(n, m);
    if noted.Stop? then noted.n else Dispatch(noted.n, m)
  }
}
