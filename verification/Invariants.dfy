/** How a node and a message in flight relate to the history of the cluster. */
module Invariants {
  import opened Types
  import opened Quorums
  import opened Logs
  import opened Progresses
  import opened Nodes
  import opened NodeLocal
  import opened History

  // ---------------------------------------------------------------- nodes

  /** vote_ is the vote the node cast in its current term, if any. */
  ghost predicate VoteLink(h: Hist, j: NodeId, term: nat, vote: NodeId) {
    && (vote != NONE <==> (j, term) in h.votes)
    && (vote != NONE ==> h.votes[(j, term)].cand == vote)
  }

  ghost predicate TermsUpTo(log: Log, term: nat) {
    forall i :: 0 <= i < |log| ==> log[i].term <= term
  }

  /** Match soundness: what the node acknowledged in its current term it still has. */
  ghost predicate Holds(h: Hist, j: NodeId, term: nat, log: Log) {
    Ack(h, j, term) > 0 ==> term in h.reign && Agree(h.reign[term].log, log, Ack(h, j, term))
  }

  ghost predicate CommittedBy(h: Hist, t: nat, log: Log, c: nat) {
    t in h.reign && c <= h.reign[t].counted && Agree(h.reign[t].log, log, c)
  }

  /** Some leader up to this term committed what the node has committed. */
  ghost predicate CommitInv(h: Hist, term: nat, log: Log, c: nat) {
    c == 0 || exists t: nat :: t <= term && CommittedBy(h, t, log, c)
  }

  ghost predicate Core(h: Hist, j: NodeId, term: nat, vote: NodeId, log: Log, committed: nat) {
    && j in h.voters && j in h.term && h.term[j] == term
    && VoteLink(h, j, term, vote)
    && LogInv(h, log) && TermsUpTo(log, term) && Keeps(h, j, log, term + 1)
    && Holds(h, j, term, log)
    && CommitInv(h, term, log, committed)
  }

  ghost predicate CandidateInv(h: Hist, j: NodeId, term: nat, vote: NodeId, log: Log, votes: map<NodeId, bool>) {
    && vote == j
    && (j, term) in h.camp && h.camp[(j, term)] == log
    && (term in h.reign ==> h.reign[term].leader != j)
    && forall p :: p in votes && votes[p] ==> (p, term) in h.votes && h.votes[(p, term)].cand == j
  }

  ghost predicate LeaderInv(h: Hist, j: NodeId, term: nat, log: Log, committed: nat) {
    term in h.reign && h.reign[term].leader == j && h.reign[term].log == log && h.reign[term].counted <= committed
  }

  /** A leader's record of a peer never exceeds what the peer acknowledged to it. */
  ghost predicate PeersInv(h: Hist, term: nat, last: nat, prs: map<NodeId, Progress>) {
    forall p {:trigger prs[p]} :: p in prs ==> prs[p].matched <= Ack(h, p, term) && prs[p].next <= last + 1
  }

  /** A node's idea of the leader is right, and a former leader has none in its own term. */
  ghost predicate LeadLink(h: Hist, j: NodeId, term: nat, leads: bool, lead: NodeId) {
    && (lead != NONE ==> term in h.reign && h.reign[term].leader == lead)
    && (!leads && term in h.reign && h.reign[term].leader == j ==> lead == NONE)
  }

  /** Compared with true so that the verifier carries it around as one fact. */
  ghost predicate NodeInv(h: Hist, n: Node) {
    NodeParts(h, n) == true
  }

  ghost predicate NodeParts(h: Hist, n: Node) {
    && (forall p :: p in n.cfg.peers <==> p in h.voters)
    && Core(h, n.cfg.id, n.term, n.vote, n.log, n.committed)
    && LeadLink(h, n.cfg.id, n.term, n.role.Leader?, n.lead)
    && (n.role.Candidate? ==> CandidateInv(h, n.cfg.id, n.term, n.vote, n.log, n.votes))
    && (n.role.Leader? ==> LeaderInv(h, n.cfg.id, n.term, n.log, n.committed))
    && (n.role.Leader? ==> PeersInv(h, n.term, |n.log|, n.prs))
  }

  // ---------------------------------------------------------------- messages

  /** Index c was committed by a leader of this term or before. */
  ghost predicate CommitOK(h: Hist, term: nat, c: nat) {
    c == 0 || exists t :: t <= term && t in h.reign && c <= h.reign[t].counted
  }

  ghost predicate FromLeader(h: Hist, m: Message) {
    && m.term in h.reign && h.reign[m.term].leader == m.from && m.from != m.to
    && CommitOK(h, m.term, m.commit)
  }

  /** An append message is a slice of the log of the leader of its term. */
  ghost predicate SliceOf(log: Log, index: nat, logTerm: nat, ents: seq<Entry>) {
    && index + |ents| <= |log|
    && logTerm == TermAt(log, index)
    && forall i :: 0 <= i < |ents| ==> ents[i] == log[index + i]
  }

  ghost predicate MsgInv(h: Hist, m: Message) {
    && m.from in h.voters
    && match m.kind
       case MsgApp => FromLeader(h, m) && SliceOf(h.reign[m.term].log, m.index, m.logTerm, m.entries)
       case MsgHeartbeat => FromLeader(h, m) && m.commit <= Ack(h, m.to, m.term)
       case MsgAppResp => m.term > 0 && m.from != m.to && (!m.reject ==> m.index <= Ack(h, m.from, m.term))
       case MsgHeartbeatResp => m.term > 0 && m.from != m.to
       case MsgVote =>
         && m.term > 0 && (m.from, m.term) in h.camp
         && m.index == |h.camp[(m.from, m.term)]| && m.logTerm == LastTerm(h.camp[(m.from, m.term)])
       case MsgVoteResp =>
         m.term > 0 && (!m.reject ==> (m.from, m.term) in h.votes && h.votes[(m.from, m.term)].cand == m.to)
       case MsgTransferLeader => m.term in h.reign && h.reign[m.term].leader == m.to
       case MsgPreVote => m.term > 0
       case MsgPreVoteResp => m.term > 0
       case MsgTimeoutNow => m.term > 0
       case MsgReadIndexResp => m.term > 0
       case MsgProp => m.term == 0 && m.entries != []
       case MsgReadIndex => m.term == 0 && m.entries != []
       case _ => false
  }

  ghost predicate MsgsInv(h: Hist, ms: seq<Message>) {
    forall i {:trigger ms[i]} :: 0 <= i < |ms| ==> MsgInv(h, ms[i])
  }

  /** A node in the middle of a step. */
  ghost predicate Good(h: Hist, n: Node) {
    HistInv(h) && Local(n) && NodeInv(h, n) && MsgsInv(h, n.msgs)
  }

  // ---------------------------------------------------------------- growth

  lemma CommitOKGrows(h: Hist, h': Hist, term: nat, c: nat)
    requires ReignsGrow(h, h') && CommitOK(h, term, c)
    ensures CommitOK(h', term, c)
  {
    if c > 0 {
      var t :| t <= term && t in h.reign && c <= h.reign[t].counted;
      assert ReignGrows(h.reign[t], h'.reign[t]);
    }
  }

  lemma CommitInvGrows(h: Hist, h': Hist, term: nat, log: Log, c: nat)
    requires ReignsGrow(h, h') && CommitInv(h, term, log, c)
    ensures CommitInv(h', term, log, c)
  {
    if c > 0 {
      var t: nat :| t <= term && CommittedBy(h, t, log, c);
      assert ReignGrows(h.reign[t], h'.reign[t]);
      assert CommittedBy(h', t, log, c);
    }
  }

  lemma SliceGrows(log: Log, log': Log, index: nat, logTerm: nat, ents: seq<Entry>)
    requires Agree(log, log', |log|) && SliceOf(log, index, logTerm, ents)
    ensures SliceOf(log', index, logTerm, ents)
  {
  }

  /** What is true of a message stays true. */
  lemma MsgInvGrows(h: Hist, h': Hist, i: NodeId, m: Message)
    requires Grows(h, h', i) && MsgInv(h, m)
    ensures MsgInv(h', m)
  {
    if m.kind.MsgApp? || m.kind.MsgHeartbeat? || m.kind.MsgTransferLeader? {
      assert ReignGrows(h.reign[m.term], h'.reign[m.term]);
      CommitOKIfLeader(h, h', i, m);
      if m.kind.MsgApp? { SliceGrows(h.reign[m.term].log, h'.reign[m.term].log, m.index, m.logTerm, m.entries); }
    } else if m.kind.MsgVote? {
      assert h'.camp[(m.from, m.term)] == h.camp[(m.from, m.term)];
    } else if m.kind.MsgVoteResp? && !m.reject {
      assert h'.votes[(m.from, m.term)] == h.votes[(m.from, m.term)];
    }
    assert Ack(h, m.to, m.term) <= Ack(h', m.to, m.term) && Ack(h, m.from, m.term) <= Ack(h', m.from, m.term);
  }

  lemma CommitOKIfLeader(h: Hist, h': Hist, i: NodeId, m: Message)
    requires Grows(h, h', i) && (m.kind.MsgApp? || m.kind.MsgHeartbeat? ==> FromLeader(h, m))
    ensures m.kind.MsgApp? || m.kind.MsgHeartbeat? ==> CommitOK(h', m.term, m.commit)
  {
    if m.kind.MsgApp? || m.kind.MsgHeartbeat? { CommitOKGrows(h, h', m.term, m.commit); }
  }

  lemma MsgsInvGrow(h: Hist, h': Hist, i: NodeId, ms: seq<Message>)
    requires Grows(h, h', i) && MsgsInv(h, ms)
    ensures MsgsInv(h', ms)
  {
    forall x | 0 <= x < |ms|
      ensures MsgInv(h', ms[x])
    {
      MsgInvGrows(h, h', i, ms[x]);
    }
  }

  lemma CoreGrows(h: Hist, h': Hist, i: NodeId, j: NodeId, term: nat, vote: NodeId, log: Log, committed: nat)
    requires Grows(h, h', i) && i != j && AckInv(h)
    requires Core(h, j, term, vote, log, committed)
    ensures Core(h', j, term, vote, log, committed)
  {
    LogInvGrows(h, h', log);
    KeepsGrows(h, h', i, j, log, term + 1);
    CommitInvGrows(h, h', term, log, committed);
    assert Ack(h', j, term) == Ack(h, j, term);
    if term in h.reign { assert ReignGrows(h.reign[term], h'.reign[term]); }
    if (j, term) in h.votes { assert h'.votes[(j, term)] == h.votes[(j, term)]; }
  }

  /** What is true of a node stays true when another node acts. */
  lemma NodeInvGrows(h: Hist, h': Hist, i: NodeId, n: Node)
    requires Grows(h, h', i) && i != n.cfg.id && AckInv(h) && NodeInv(h, n)
    ensures NodeInv(h', n)
  {
    CoreGrows(h, h', i, n.cfg.id, n.term, n.vote, n.log, n.committed);
    if n.term in h.reign { assert ReignGrows(h.reign[n.term], h'.reign[n.term]); }
    if n.role.Candidate? { CandidateInvGrows(h, h', i, n.cfg.id, n.term, n.vote, n.log, n.votes); }
    if n.role.Leader? { PeersInvGrows(h, h', i, n.term, |n.log|, n.prs); }
  }

  lemma CandidateInvGrows(h: Hist, h': Hist, i: NodeId, j: NodeId, term: nat, vote: NodeId, log: Log, votes: map<NodeId, bool>)
    requires Grows(h, h', i) && i != j && CandidateInv(h, j, term, vote, log, votes)
    ensures CandidateInv(h', j, term, vote, log, votes)
  {
  }

  lemma PeersInvGrows(h: Hist, h': Hist, i: NodeId, term: nat, last: nat, prs: map<NodeId, Progress>)
    requires Grows(h, h', i) && PeersInv(h, term, last, prs)
    ensures PeersInv(h', term, last, prs)
  {
  }

  // ---------------------------------------------------------------- commitment

  /** Two logs with a committed prefix agree on the shorter prefix. */
  lemma CommittedAgree(h: Hist, term: nat, log: Log, c: nat, term': nat, log': Log, c': nat, k: nat)
    requires HistInv(h) && CommitInv(h, term, log, c) && CommitInv(h, term', log', c')
    requires k <= c && k <= c' && c <= |log| && c' <= |log'|
    ensures Agree(log, log', k)
  {
    if k > 0 {
      var t: nat :| t <= term && CommittedBy(h, t, log, c);
      var t': nat :| t' <= term' && CommittedBy(h, t', log', c');
      if t <= t' { LeaderCompleteness(h, t, t'); } else { LeaderCompleteness(h, t', t); }
    }
  }
}
