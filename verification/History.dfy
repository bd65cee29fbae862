/** The history of a cluster: which node led which term with which log, who voted
    for whom, and who acknowledged what. The node states of `Nodes` are related to
    it by `NodeInv`; here are the facts that make Raft safe, proved for each way
    the history can grow. */
module History {
  import opened Types
  import opened Logs
  import opened Quorums

  /** One elected leader: its log, the part of it it had when elected, the votes
      that elected it, and the highest index it committed by counting replicas. */
  datatype Reign = Reign(leader: NodeId, base: nat, quorum: set<NodeId>, log: Log, counted: nat)

  /** A vote: for whom, and the log the voter had when it voted. */
  datatype Ballot = Ballot(cand: NodeId, log: Log)

  datatype Hist = Hist(
    voters: set<NodeId>,
    term: map<NodeId, nat>,
    camp: map<(NodeId, nat), Log>,
    votes: map<(NodeId, nat), Ballot>,
    reign: map<nat, Reign>,
    acks: map<(NodeId, nat), nat>)

  // ---------------------------------------------------------------- logs

  /** `RaftLog::isUpToDate` for a candidate's log against the voter's. */
  ghost predicate UpToDate(cand: Log, voter: Log) {
    LastTerm(cand) > LastTerm(voter) || (LastTerm(cand) == LastTerm(voter) && |cand| >= |voter|)
  }

  /** Log matching: an entry of term t comes with everything the leader of t had before it. */
  ghost predicate Matches(h: Hist, log: Log) {
    forall i {:trigger MatchAt(h, log, i)} :: 0 <= i < |log| ==> MatchAt(h, log, i)
  }

  ghost predicate MatchAt(h: Hist, log: Log, i: nat)
    requires i < |log|
  {
    log[i].term in h.reign && Agree(log, h.reign[log[i].term].log, i + 1)
  }

  // ---------------------------------------------------------------- acknowledgements

  /** The highest index j has acknowledged to the leader of term t. */
  function Ack(h: Hist, j: NodeId, t: nat): nat {
    if (j, t) in h.acks then h.acks[(j, t)] else 0
  }

  ghost function Ackers(h: Hist, t: nat, k: nat): set<NodeId> {
    set j | j in h.voters && Ack(h, j, t) >= k
  }

  /** Voters that moved past term t without acknowledging index k: they never will. */
  ghost function Blockers(h: Hist, t: nat, k: nat): set<NodeId> {
    set j | j in h.voters && j in h.term && h.term[j] > t && Ack(h, j, t) < k
  }

  /** Index k of the leader of t is on a majority. */
  ghost predicate Chosen(h: Hist, t: nat, k: nat) {
    IsQuorum(h.voters, Ackers(h, t, k))
  }

  /** Index k of the leader of t can never be on a majority. */
  ghost predicate Blocked(h: Hist, t: nat, k: nat) {
    IsQuorum(h.voters, Blockers(h, t, k))
  }

  lemma NotBoth(h: Hist, t: nat, k: nat)
    requires Chosen(h, t, k)
    ensures !Blocked(h, t, k)
  {
    if Blocked(h, t, k) {
      QuorumsMeet(h.voters, Ackers(h, t, k), Blockers(h, t, k));
      assert false;
    }
  }

  // ---------------------------------------------------------------- the invariant

  /** What an acknowledging node keeps: below `bound`, an acknowledged entry is still
      in the log unless it can no longer be chosen. */
  ghost predicate Keeps(h: Hist, j: NodeId, log: Log, bound: nat) {
    forall t, k {:trigger Kept(h, log, t, k)} :: t in h.reign && t < bound && h.reign[t].base < k <= Ack(h, j, t) ==>
      Kept(h, log, t, k)
  }

  /** The log has the first k entries of the leader of t, or index k of that leader is dead. */
  ghost predicate Kept(h: Hist, log: Log, t: nat, k: nat)
    requires t in h.reign
  {
    Agree(h.reign[t].log, log, k) || Blocked(h, t, k)
  }

  ghost predicate LogInv(h: Hist, log: Log) {
    Matches(h, log) && Sorted(log) && WellIndexed(log)
  }

  ghost predicate TermInv(h: Hist) {
    h.term.Keys == h.voters
  }

  ghost predicate CampOK(h: Hist, c: NodeId, t: nat, log: Log) {
    && c in h.voters && c in h.term && t <= h.term[c]
    && LogInv(h, log)
    && forall i :: 0 <= i < |log| ==> log[i].term < t
  }

  ghost predicate CampInv(h: Hist) {
    forall c, t {:trigger h.camp[(c, t)]} :: (c, t) in h.camp ==> CampOK(h, c, t, h.camp[(c, t)])
  }

  ghost predicate VoteOK(h: Hist, j: NodeId, t: nat, b: Ballot) {
    && j in h.voters && j in h.term && t <= h.term[j]
    && (b.cand, t) in h.camp
    && UpToDate(h.camp[(b.cand, t)], b.log)
    && LogInv(h, b.log)
    && Keeps(h, j, b.log, t)
  }

  ghost predicate VoteInv(h: Hist) {
    forall j, t {:trigger h.votes[(j, t)]} :: (j, t) in h.votes ==> VoteOK(h, j, t, h.votes[(j, t)])
  }

  ghost predicate ReignShape(h: Hist, t: nat, r: Reign) {
    && t > 0
    && r.leader in h.voters && r.leader in h.term && t <= h.term[r.leader]
    && (r.leader, t) in h.camp
    && r.base == |h.camp[(r.leader, t)]|
    && Agree(h.camp[(r.leader, t)], r.log, r.base)
    && (forall i :: r.base <= i < |r.log| ==> r.log[i].term == t)
    && LogInv(h, r.log)
  }

  ghost predicate ReignInv(h: Hist) {
    forall t {:trigger ReignShape(h, t, h.reign[t])} :: t in h.reign ==> ReignShape(h, t, h.reign[t])
  }

  ghost predicate Elected(h: Hist, t: nat, r: Reign) {
    && IsQuorum(h.voters, r.quorum)
    && forall j :: j in r.quorum ==> (j, t) in h.votes && h.votes[(j, t)].cand == r.leader
  }

  ghost predicate ElectInv(h: Hist) {
    forall t {:trigger Elected(h, t, h.reign[t])} :: t in h.reign ==> Elected(h, t, h.reign[t])
  }

  ghost predicate Counted(h: Hist, t: nat, r: Reign) {
    r.counted > 0 ==> r.base < r.counted <= |r.log| && Chosen(h, t, r.counted)
  }

  ghost predicate CountInv(h: Hist) {
    forall t {:trigger Counted(h, t, h.reign[t])} :: t in h.reign ==> Counted(h, t, h.reign[t])
  }

  ghost predicate AckOK(h: Hist, j: NodeId, t: nat) {
    Ack(h, j, t) > 0 ==>
      && j in h.voters && j in h.term && t <= h.term[j]
      && t in h.reign && Ack(h, j, t) <= |h.reign[t].log|
  }

  ghost predicate AckInv(h: Hist) {
    forall j, t {:trigger AckOK(h, j, t)} :: AckOK(h, j, t)
  }

  /** The heart of Raft: an entry of term t missing from a later leader's log is dead. */
  ghost predicate SafeInv(h: Hist) {
    forall t, t', k {:trigger Kept(h, h.reign[t'].log, t, k)} ::
      (t in h.reign && t' in h.reign && t < t' && h.reign[t].base < k <= |h.reign[t].log|) ==>
        Kept(h, h.reign[t'].log, t, k)
  }

  /** Compared with true so that the verifier carries it around as one fact. */
  ghost predicate HistInv(h: Hist) {
    HistParts(h) == true
  }

  ghost predicate HistParts(h: Hist) {
    && TermInv(h) && CampInv(h) && VoteInv(h) && ReignInv(h)
    && ElectInv(h) && CountInv(h) && AckInv(h) && SafeInv(h)
  }

  // ---------------------------------------------------------------- growth

  /** h' continues h by something node i did. */
  ghost predicate Grows(h: Hist, h': Hist, i: NodeId) {
    && TermsGrow(h, h', i) && CampsGrow(h, h', i) && VotesGrow(h, h', i)
    && ReignsGrow(h, h') && ReignsOf(h, h', i) && AcksGrow(h, h', i)
  }

  ghost predicate TermsGrow(h: Hist, h': Hist, i: NodeId) {
    && h'.voters == h.voters
    && h'.term.Keys == h.term.Keys
    && forall j :: j in h.term ==> h.term[j] <= h'.term[j] && (j != i ==> h'.term[j] == h.term[j])
  }

  ghost predicate CampsGrow(h: Hist, h': Hist, i: NodeId) {
    && (forall c, t {:trigger h'.camp[(c, t)]} {:trigger h.camp[(c, t)]} ::
          (c, t) in h.camp ==> (c, t) in h'.camp && h'.camp[(c, t)] == h.camp[(c, t)])
    && (forall c, t {:trigger (c, t) in h'.camp} :: (c, t) in h'.camp && (c, t) !in h.camp ==> c == i)
  }

  ghost predicate VotesGrow(h: Hist, h': Hist, i: NodeId) {
    && (forall j, t {:trigger h'.votes[(j, t)]} {:trigger h.votes[(j, t)]} ::
          (j, t) in h.votes ==> (j, t) in h'.votes && h'.votes[(j, t)] == h.votes[(j, t)])
    && (forall j, t {:trigger (j, t) in h'.votes} :: (j, t) in h'.votes && (j, t) !in h.votes ==> j == i)
  }

  /** Leaders stay on record, their logs only get longer and their counts only rise. */
  ghost predicate ReignsGrow(h: Hist, h': Hist) {
    && (forall t {:trigger ReignGrows(h.reign[t], h'.reign[t])} ::
          t in h.reign ==> t in h'.reign && ReignGrows(h.reign[t], h'.reign[t]))
    && (forall t :: t in h.reign ==> t in h'.reign)
  }

  ghost predicate ReignGrows(r: Reign, r': Reign) {
    && r'.leader == r.leader && r'.base == r.base && r'.quorum == r.quorum
    && r.counted <= r'.counted
    && Agree(r.log, r'.log, |r.log|)
  }

  /** Only the records of i's own leadership change. */
  ghost predicate ReignsOf(h: Hist, h': Hist, i: NodeId) {
    forall t :: t in h'.reign && h'.reign[t].leader != i ==> t in h.reign && h'.reign[t] == h.reign[t]
  }

  /** Acknowledgements only rise, only i's do, and never those of a term i has left. */
  ghost predicate AcksGrow(h: Hist, h': Hist, i: NodeId) {
    forall j, t {:trigger Ack(h', j, t)} :: Ack(h, j, t) <= Ack(h', j, t)
      && ((j != i || (j in h.term && t < h.term[j])) ==> Ack(h', j, t) == Ack(h, j, t))
  }

  lemma GrowsRefl(h: Hist, i: NodeId)
    ensures Grows(h, h, i)
  {
  }

  lemma GrowsTrans(h: Hist, h1: Hist, h2: Hist, i: NodeId)
    requires Grows(h, h1, i) && Grows(h1, h2, i)
    ensures Grows(h, h2, i)
  {
    ReignsGrowTrans(h, h1, h2);
    assert ReignsOf(h, h2, i);
    assert AcksGrow(h, h2, i) by {
      forall j, t
        ensures Ack(h, j, t) <= Ack(h2, j, t)
        ensures (j != i || (j in h.term && t < h.term[j])) ==> Ack(h2, j, t) == Ack(h, j, t)
      {
        assert Ack(h, j, t) <= Ack(h1, j, t) <= Ack(h2, j, t);
      }
    }
  }

  lemma ReignsGrowTrans(h: Hist, h1: Hist, h2: Hist)
    requires ReignsGrow(h, h1) && ReignsGrow(h1, h2)
    ensures ReignsGrow(h, h2)
  {
    forall t | t in h.reign
      ensures t in h2.reign && ReignGrows(h.reign[t], h2.reign[t])
    {
      assert ReignGrows(h.reign[t], h1.reign[t]) && ReignGrows(h1.reign[t], h2.reign[t]);
    }
  }

  lemma BlockedGrows(h: Hist, h': Hist, i: NodeId, t: nat, k: nat)
    requires TermsGrow(h, h', i) && AcksGrow(h, h', i) && Blocked(h, t, k)
    ensures Blocked(h', t, k)
  {
    QuorumGrows(h.voters, Blockers(h, t, k), Blockers(h', t, k));
  }

  lemma ChosenGrows(h: Hist, h': Hist, i: NodeId, t: nat, k: nat)
    requires TermsGrow(h, h', i) && AcksGrow(h, h', i) && Chosen(h, t, k)
    ensures Chosen(h', t, k)
  {
    QuorumGrows(h.voters, Ackers(h, t, k), Ackers(h', t, k));
  }

  /** What is kept stays kept. */
  lemma KeptGrows(h: Hist, h': Hist, i: NodeId, log: Log, t: nat, k: nat)
    requires Grows(h, h', i) && t in h.reign && k <= |h.reign[t].log| && Kept(h, log, t, k)
    ensures t in h'.reign && Kept(h', log, t, k)
  {
    assert ReignGrows(h.reign[t], h'.reign[t]);
    if Blocked(h, t, k) { BlockedGrows(h, h', i, t, k); }
  }

  lemma LogInvGrows(h: Hist, h': Hist, log: Log)
    requires ReignsGrow(h, h') && LogInv(h, log)
    ensures LogInv(h', log)
  {
    forall x | 0 <= x < |log|
      ensures MatchAt(h', log, x)
    {
      assert MatchAt(h, log, x);
      assert ReignGrows(h.reign[log[x].term], h'.reign[log[x].term]);
    }
  }

  /** A log keeps what its owner acknowledged as long as the owner acknowledges nothing new. */
  lemma KeepsGrows(h: Hist, h': Hist, i: NodeId, j: NodeId, log: Log, bound: nat)
    requires Grows(h, h', i) && AckInv(h)
    requires Keeps(h, j, log, bound)
    requires j != i || (j in h.term && bound <= h.term[j])
    ensures Keeps(h', j, log, bound)
  {
    forall t, k | t in h'.reign && t < bound && h'.reign[t].base < k <= Ack(h', j, t)
      ensures Kept(h', log, t, k)
    {
      assert Ack(h', j, t) == Ack(h, j, t);
      assert AckOK(h, j, t);
      assert ReignGrows(h.reign[t], h'.reign[t]);
      assert Kept(h, log, t, k);
      KeptGrows(h, h', i, log, t, k);
    }
  }

  // The next lemmas carry one part of the invariant each over a growth.

  lemma CampGrows(h: Hist, h': Hist, i: NodeId, c: NodeId, t: nat)
    requires Grows(h, h', i) && (c, t) in h.camp && CampOK(h, c, t, h.camp[(c, t)])
    ensures (c, t) in h'.camp && CampOK(h', c, t, h'.camp[(c, t)])
  {
    LogInvGrows(h, h', h.camp[(c, t)]);
  }

  lemma VoteGrows(h: Hist, h': Hist, i: NodeId, j: NodeId, t: nat)
    requires Grows(h, h', i) && AckInv(h) && (j, t) in h.votes && VoteOK(h, j, t, h.votes[(j, t)])
    ensures (j, t) in h'.votes && VoteOK(h', j, t, h'.votes[(j, t)])
  {
    var b := h.votes[(j, t)];
    LogInvGrows(h, h', b.log);
    KeepsGrows(h, h', i, j, b.log, t);
    assert h'.camp[(b.cand, t)] == h.camp[(b.cand, t)];
  }

  /** The facts about one leader survive anything that leaves its log and count alone. */
  lemma ReignGrowsInv(h: Hist, h': Hist, i: NodeId, t: nat)
    requires Grows(h, h', i) && t in h.reign && t in h'.reign
    requires h'.reign[t].log == h.reign[t].log && h'.reign[t].counted == h.reign[t].counted
    requires ReignShape(h, t, h.reign[t]) && Elected(h, t, h.reign[t]) && Counted(h, t, h.reign[t])
    ensures ReignShape(h', t, h'.reign[t]) && Elected(h', t, h'.reign[t]) && Counted(h', t, h'.reign[t])
  {
    var r := h.reign[t];
    assert ReignGrows(r, h'.reign[t]);
    LogInvGrows(h, h', r.log);
    assert h'.camp[(r.leader, t)] == h.camp[(r.leader, t)];
    if r.counted > 0 { ChosenGrows(h, h', i, t, r.counted); }
    forall j | j in r.quorum
      ensures (j, t) in h'.votes && h'.votes[(j, t)].cand == r.leader
    {
      assert h'.votes[(j, t)] == h.votes[(j, t)];
    }
  }

  lemma SafeGrows(h: Hist, h': Hist, i: NodeId, t: nat, t': nat, k: nat)
    requires Grows(h, h', i) && SafeInv(h)
    requires t in h.reign && t' in h.reign && t < t' && h.reign[t].base < k <= |h.reign[t].log|
    ensures t in h'.reign && t' in h'.reign && Kept(h', h'.reign[t'].log, t, k)
  {
    assert Kept(h, h.reign[t'].log, t, k);
    KeptGrows(h, h', i, h.reign[t'].log, t, k);
    assert ReignGrows(h.reign[t'], h'.reign[t']);
  }

  lemma CampInvGrows(h: Hist, h': Hist, i: NodeId)
    requires Grows(h, h', i) && CampInv(h)
    requires h'.camp == h.camp
    ensures CampInv(h')
  {
    forall c, t | (c, t) in h'.camp
      ensures CampOK(h', c, t, h'.camp[(c, t)])
    {
      assert CampOK(h, c, t, h.camp[(c, t)]);
      CampGrows(h, h', i, c, t);
    }
  }

  lemma VoteInvGrows(h: Hist, h': Hist, i: NodeId)
    requires Grows(h, h', i) && AckInv(h) && VoteInv(h)
    requires h'.votes == h.votes
    ensures VoteInv(h')
  {
    forall j, t | (j, t) in h'.votes
      ensures VoteOK(h', j, t, h'.votes[(j, t)])
    {
      assert VoteOK(h, j, t, h.votes[(j, t)]);
      VoteGrows(h, h', i, j, t);
    }
  }

  lemma ReignInvGrows(h: Hist, h': Hist, i: NodeId)
    requires Grows(h, h', i) && ReignInv(h) && ElectInv(h) && CountInv(h) && SafeInv(h)
    requires h'.reign == h.reign
    ensures ReignInv(h') && ElectInv(h') && CountInv(h') && SafeInv(h')
  {
    forall t | t in h'.reign
      ensures ReignShape(h', t, h'.reign[t]) && Elected(h', t, h'.reign[t]) && Counted(h', t, h'.reign[t])
    {
      assert ReignShape(h, t, h.reign[t]) && Elected(h, t, h.reign[t]) && Counted(h, t, h.reign[t]);
      ReignGrowsInv(h, h', i, t);
    }
    forall t, t', k | t in h'.reign && t' in h'.reign && t < t' && h'.reign[t].base < k <= |h'.reign[t].log|
      ensures Kept(h', h'.reign[t'].log, t, k)
    {
      SafeGrows(h, h', i, t, t', k);
    }
  }

  lemma AckInvGrows(h: Hist, h': Hist, i: NodeId)
    requires Grows(h, h', i) && AckInv(h)
    requires forall t :: Ack(h', i, t) != Ack(h, i, t) ==> AckOK(h', i, t)
    ensures AckInv(h')
  {
    forall j, t
      ensures AckOK(h', j, t)
    {
      if Ack(h', j, t) == Ack(h, j, t) {
        assert AckOK(h, j, t);
        if t in h.reign { assert ReignGrows(h.reign[t], h'.reign[t]); }
      }
    }
  }

  // ---------------------------------------------------------------- steps

  /** Node j moves to term t. */
  function SetTerm(h: Hist, j: NodeId, t: nat): Hist {
    h.(term := h.term[j := t])
  }

  lemma SetTermInv(h: Hist, j: NodeId, t: nat)
    requires HistInv(h) && j in h.voters && h.term[j] <= t
    ensures HistInv(SetTerm(h, j, t)) && Grows(h, SetTerm(h, j, t), j)
  {
    var h' := SetTerm(h, j, t);
    SetTermGrows(h, j, t);
    CampInvGrows(h, h', j);
    VoteInvGrows(h, h', j);
    ReignInvGrows(h, h', j);
    AckInvGrows(h, h', j);
  }

  lemma SetTermGrows(h: Hist, j: NodeId, t: nat)
    requires j in h.term && h.term[j] <= t
    ensures Grows(h, SetTerm(h, j, t), j)
    ensures SetTerm(h, j, t).term.Keys == h.term.Keys
  {
  }

  /** Node c starts a campaign for the next term with its log, voting for itself. */
  function Stand(h: Hist, c: NodeId, log: Log): Hist
    requires c in h.term
  {
    var t := h.term[c] + 1;
    h.(term := h.term[c := t], camp := h.camp[(c, t) := log], votes := h.votes[(c, t) := Ballot(c, log)])
  }

  lemma StandInv(h: Hist, c: NodeId, log: Log)
    requires HistInv(h) && c in h.voters
    requires LogInv(h, log) && Keeps(h, c, log, h.term[c] + 1)
    requires forall i :: 0 <= i < |log| ==> log[i].term <= h.term[c]
    ensures HistInv(Stand(h, c, log)) && Grows(h, Stand(h, c, log), c)
  {
    var h' := Stand(h, c, log);
    StandGrows(h, c, log);
    ReignInvGrows(h, h', c);
    AckInvGrows(h, h', c);
    StandCamps(h, c, log);
    StandVotes(h, c, log);
  }

  lemma StandGrows(h: Hist, c: NodeId, log: Log)
    requires CampInv(h) && VoteInv(h) && c in h.term
    ensures Grows(h, Stand(h, c, log), c)
    ensures Stand(h, c, log).term.Keys == h.term.Keys
  {
  }

  lemma StandCamps(h: Hist, c: NodeId, log: Log)
    requires CampInv(h) && c in h.voters && c in h.term && LogInv(h, log)
    requires Grows(h, Stand(h, c, log), c)
    requires forall i :: 0 <= i < |log| ==> log[i].term <= h.term[c]
    ensures CampInv(Stand(h, c, log))
  {
    var h' := Stand(h, c, log);
    LogInvGrows(h, h', log);
    forall d, s | (d, s) in h'.camp
      ensures CampOK(h', d, s, h'.camp[(d, s)])
    {
      if (d, s) != (c, h.term[c] + 1) {
        assert CampOK(h, d, s, h.camp[(d, s)]);
        CampGrows(h, h', c, d, s);
      }
    }
  }

  lemma StandVotes(h: Hist, c: NodeId, log: Log)
    requires VoteInv(h) && AckInv(h) && c in h.voters && c in h.term
    requires LogInv(h, log) && Keeps(h, c, log, h.term[c] + 1)
    requires Grows(h, Stand(h, c, log), c)
    ensures VoteInv(Stand(h, c, log))
  {
    var t := h.term[c] + 1;
    var h' := Stand(h, c, log);
    LogInvGrows(h, h', log);
    assert Keeps(h', c, log, t) by {
      forall s, k | s in h'.reign && s < t && h'.reign[s].base < k <= Ack(h', c, s)
        ensures Kept(h', log, s, k)
      {
        assert Kept(h, log, s, k);
        assert AckOK(h, c, s);
        KeptGrows(h, h', c, log, s, k);
      }
    }
    forall j, s | (j, s) in h'.votes
      ensures VoteOK(h', j, s, h'.votes[(j, s)])
    {
      if (j, s) != (c, t) {
        assert VoteOK(h, j, s, h.votes[(j, s)]);
        VoteGrows(h, h', c, j, s);
      }
    }
  }

  /** Node j votes for cand in its current term. */
  function CastVote(h: Hist, j: NodeId, cand: NodeId, log: Log): Hist
    requires j in h.term
  {
    h.(votes := h.votes[(j, h.term[j]) := Ballot(cand, log)])
  }

  lemma CastVoteInv(h: Hist, j: NodeId, cand: NodeId, log: Log)
    requires HistInv(h) && j in h.voters
    requires (j, h.term[j]) !in h.votes
    requires (cand, h.term[j]) in h.camp && UpToDate(h.camp[(cand, h.term[j])], log)
    requires LogInv(h, log) && Keeps(h, j, log, h.term[j])
    ensures HistInv(CastVote(h, j, cand, log)) && Grows(h, CastVote(h, j, cand, log), j)
  {
    var h' := CastVote(h, j, cand, log);
    CastVoteGrows(h, j, cand, log);
    CampInvGrows(h, h', j);
    ReignInvGrows(h, h', j);
    AckInvGrows(h, h', j);
    CastVoteVotes(h, j, cand, log);
  }

  lemma CastVoteGrows(h: Hist, j: NodeId, cand: NodeId, log: Log)
    requires j in h.term && (j, h.term[j]) !in h.votes
    ensures Grows(h, CastVote(h, j, cand, log), j)
  {
  }

  lemma CastVoteVotes(h: Hist, j: NodeId, cand: NodeId, log: Log)
    requires VoteInv(h) && AckInv(h) && j in h.voters && j in h.term
    requires (cand, h.term[j]) in h.camp && UpToDate(h.camp[(cand, h.term[j])], log)
    requires LogInv(h, log) && Keeps(h, j, log, h.term[j])
    requires Grows(h, CastVote(h, j, cand, log), j)
    ensures VoteInv(CastVote(h, j, cand, log))
  {
    var h' := CastVote(h, j, cand, log);
    LogInvGrows(h, h', log);
    KeepsGrows(h, h', j, j, log, h.term[j]);
    forall v, s | (v, s) in h'.votes
      ensures VoteOK(h', v, s, h'.votes[(v, s)])
    {
      if (v, s) != (j, h.term[j]) {
        assert VoteOK(h, v, s, h.votes[(v, s)]);
        VoteGrows(h, h', j, v, s);
      }
    }
  }

  /** Candidate c wins the election of its current term with the votes in q. */
  function Elect(h: Hist, c: NodeId, q: set<NodeId>): Hist
    requires c in h.term && (c, h.term[c]) in h.camp
  {
    var t := h.term[c];
    var log := h.camp[(c, t)];
    h.(reign := h.reign[t := Reign(c, |log|, q, log, 0)], acks := h.acks[(c, t) := |log|])
  }

  ghost predicate Wins(h: Hist, c: NodeId, q: set<NodeId>) {
    && c in h.voters && c in h.term && (c, h.term[c]) in h.camp
    && IsQuorum(h.voters, q)
    && forall j :: j in q ==> (j, h.term[c]) in h.votes && h.votes[(j, h.term[c])].cand == c
  }

  /** An entry of an earlier leader that is not in the winner's log can never be chosen:
      some voter would have refused. */
  lemma WinnerHasAll(h: Hist, c: NodeId, q: set<NodeId>, t: nat, k: nat)
    requires VoteInv(h) && CampInv(h) && ReignInv(h) && SafeInv(h) && Wins(h, c, q)
    requires t in h.reign && t < h.term[c] && h.reign[t].base < k <= |h.reign[t].log|
    ensures Kept(h, h.camp[(c, h.term[c])], t, k)
  {
    if j :| j in q && Ack(h, j, t) >= k {
      var vote := h.votes[(j, h.term[c])].log;
      assert VoteOK(h, j, h.term[c], h.votes[(j, h.term[c])]);
      assert CampOK(h, c, h.term[c], h.camp[(c, h.term[c])]);
      assert Kept(h, vote, t, k);
      if Agree(h.reign[t].log, vote, k) {
        VoterImpliesWinner(h, vote, h.camp[(c, h.term[c])], t, k);
      }
    } else {
      forall j | j in q
        ensures j in Blockers(h, t, k)
      {
        assert VoteOK(h, j, h.term[c], h.votes[(j, h.term[c])]);
      }
      QuorumGrows(h.voters, q, Blockers(h, t, k));
    }
  }

  lemma VoterImpliesWinner(h: Hist, vote: Log, cand: Log, t: nat, k: nat)
    requires ReignInv(h) && SafeInv(h)
    requires LogInv(h, vote) && LogInv(h, cand) && UpToDate(cand, vote)
    requires t in h.reign && h.reign[t].base < k <= |h.reign[t].log|
    requires Agree(h.reign[t].log, vote, k)
    ensures Kept(h, cand, t, k)
  {
    assert ReignShape(h, t, h.reign[t]);
    assert vote[k - 1].term == t;
    assert LastTerm(vote) >= t > 0;
    var s := LastTerm(cand);
    assert MatchAt(h, cand, |cand| - 1);
    assert ReignShape(h, s, h.reign[s]);
    if s == LastTerm(vote) {
      assert MatchAt(h, vote, |vote| - 1);
    } else {
      assert Kept(h, h.reign[s].log, t, k);
      if Agree(h.reign[t].log, h.reign[s].log, k) {
        assert h.reign[s].log[k - 1].term == t;
        assert h.reign[s].log[|cand| - 1].term == s;
      }
    }
  }

  lemma ElectInvStep(h: Hist, c: NodeId, q: set<NodeId>)
    requires HistInv(h) && Wins(h, c, q)
    requires h.term[c] > 0 && h.term[c] !in h.reign
    ensures HistInv(Elect(h, c, q)) && Grows(h, Elect(h, c, q), c)
  {
    var h' := Elect(h, c, q);
    ElectGrows(h, c, q);
    CampInvGrows(h, h', c);
    VoteInvGrows(h, h', c);
    AckInvGrows(h, h', c);
    ElectReigns(h, c, q);
    ElectSafe(h, c, q);
  }

  lemma ElectGrows(h: Hist, c: NodeId, q: set<NodeId>)
    requires AckInv(h) && c in h.term && (c, h.term[c]) in h.camp && h.term[c] !in h.reign
    ensures Grows(h, Elect(h, c, q), c)
  {
    var h' := Elect(h, c, q);
    assert AckOK(h, c, h.term[c]);
    assert forall s :: s in h.reign ==> ReignGrows(h.reign[s], h'.reign[s]);
  }

  lemma ElectReigns(h: Hist, c: NodeId, q: set<NodeId>)
    requires CampInv(h) && ReignInv(h) && ElectInv(h) && CountInv(h) && Wins(h, c, q)
    requires h.term[c] > 0 && h.term[c] !in h.reign && Grows(h, Elect(h, c, q), c)
    ensures var h' := Elect(h, c, q); ReignInv(h') && ElectInv(h') && CountInv(h')
  {
    var t := h.term[c];
    var h' := Elect(h, c, q);
    assert CampOK(h, c, t, h.camp[(c, t)]);
    LogInvGrows(h, h', h.camp[(c, t)]);
    forall s | s in h'.reign
      ensures ReignShape(h', s, h'.reign[s]) && Elected(h', s, h'.reign[s]) && Counted(h', s, h'.reign[s])
    {
      if s != t {
        assert ReignShape(h, s, h.reign[s]) && Elected(h, s, h.reign[s]) && Counted(h, s, h.reign[s]);
        ReignGrowsInv(h, h', c, s);
      }
    }
  }

  lemma ElectSafe(h: Hist, c: NodeId, q: set<NodeId>)
    requires VoteInv(h) && CampInv(h) && ReignInv(h) && SafeInv(h) && Wins(h, c, q)
    requires h.term[c] !in h.reign && Grows(h, Elect(h, c, q), c)
    ensures SafeInv(Elect(h, c, q))
  {
    var t := h.term[c];
    var h' := Elect(h, c, q);
    forall s, s', k | s in h'.reign && s' in h'.reign && s < s' && h'.reign[s].base < k <= |h'.reign[s].log|
      ensures Kept(h', h'.reign[s'].log, s, k)
    {
      if s' == t {
        WinnerHasAll(h, c, q, s, k);
        KeptGrows(h, h', c, h.camp[(c, t)], s, k);
      } else {
        SafeGrows(h, h', c, s, s', k);
      }
    }
  }

  /** The leader of term t appends entries of its own term and acknowledges them itself. */
  function Extend(h: Hist, t: nat, ents: Log): Hist
    requires t in h.reign
  {
    var r := h.reign[t];
    var log := r.log + ents;
    h.(reign := h.reign[t := r.(log := log)], acks := h.acks[(r.leader, t) := |log|])
  }

  lemma ExtendInv(h: Hist, t: nat, ents: Log)
    requires HistInv(h) && t in h.reign
    requires h.reign[t].leader in h.term && h.term[h.reign[t].leader] == t
    requires forall i :: 0 <= i < |ents| ==> ents[i].term == t
    requires WellIndexed(h.reign[t].log + ents)
    ensures HistInv(Extend(h, t, ents)) && Grows(h, Extend(h, t, ents), h.reign[t].leader)
  {
    var i := h.reign[t].leader;
    var h' := Extend(h, t, ents);
    ExtendGrows(h, t, ents);
    CampInvGrows(h, h', i);
    VoteInvGrows(h, h', i);
    AckInvGrows(h, h', i);
    ExtendReigns(h, t, ents);
    forall s, s', k | s in h'.reign && s' in h'.reign && s < s' && h'.reign[s].base < k <= |h'.reign[s].log|
      ensures Kept(h', h'.reign[s'].log, s, k)
    {
      if s == t && k > |h.reign[t].log| {
        ExtendSafe(h, t, ents, s', k);
      } else {
        SafeGrows(h, h', i, s, s', k);
      }
    }
  }

  lemma ExtendGrows(h: Hist, t: nat, ents: Log)
    requires AckInv(h) && ReignInv(h) && t in h.reign && h.reign[t].leader in h.term && h.term[h.reign[t].leader] == t
    ensures Grows(h, Extend(h, t, ents), h.reign[t].leader)
  {
    var i := h.reign[t].leader;
    var h' := Extend(h, t, ents);
    assert AckOK(h, i, t);
    assert forall s :: s in h.reign ==> ReignGrows(h.reign[s], h'.reign[s]);
  }

  lemma ExtendReigns(h: Hist, t: nat, ents: Log)
    requires CampInv(h) && ReignInv(h) && ElectInv(h) && CountInv(h) && t in h.reign
    requires forall i :: 0 <= i < |ents| ==> ents[i].term == t
    requires WellIndexed(h.reign[t].log + ents)
    requires Grows(h, Extend(h, t, ents), h.reign[t].leader)
    ensures var h' := Extend(h, t, ents); ReignInv(h') && ElectInv(h') && CountInv(h')
  {
    var h' := Extend(h, t, ents);
    forall s | s in h'.reign
      ensures ReignShape(h', s, h'.reign[s]) && Elected(h', s, h'.reign[s]) && Counted(h', s, h'.reign[s])
    {
      assert ReignShape(h, s, h.reign[s]) && Elected(h, s, h.reign[s]) && Counted(h, s, h.reign[s]);
      if s == t {
        ExtendOwn(h, t, ents);
      } else {
        ReignGrowsInv(h, h', h.reign[t].leader, s);
      }
    }
  }

  lemma ExtendOwn(h: Hist, t: nat, ents: Log)
    requires CampInv(h) && t in h.reign
    requires ReignShape(h, t, h.reign[t]) && Elected(h, t, h.reign[t]) && Counted(h, t, h.reign[t])
    requires forall i :: 0 <= i < |ents| ==> ents[i].term == t
    requires WellIndexed(h.reign[t].log + ents)
    requires Grows(h, Extend(h, t, ents), h.reign[t].leader)
    ensures var h' := Extend(h, t, ents);
      ReignShape(h', t, h'.reign[t]) && Elected(h', t, h'.reign[t]) && Counted(h', t, h'.reign[t])
  {
    var r := h.reign[t];
    var h' := Extend(h, t, ents);
    var log := h'.reign[t].log;
    LogInvGrows(h, h', r.log);
    forall x | 0 <= x < |log|
      ensures MatchAt(h', log, x)
    {
      if x < |r.log| {
        assert log[x] == r.log[x];
        assert MatchAt(h', r.log, x);
      }
    }
    ExtendSorted(h, t, ents);
    if r.counted > 0 { ChosenGrows(h, h', r.leader, t, r.counted); }
  }

  lemma ExtendSorted(h: Hist, t: nat, ents: Log)
    requires t in h.reign && ReignShape(h, t, h.reign[t]) && CampInv(h)
    requires forall i :: 0 <= i < |ents| ==> ents[i].term == t
    ensures Sorted(h.reign[t].log + ents)
  {
  }

  /** Entries appended by a leader that has been superseded are dead on arrival. */
  lemma ExtendSafe(h: Hist, t: nat, ents: Log, s: nat, k: nat)
    requires VoteInv(h) && ElectInv(h) && AckInv(h) && t in h.reign && s in h.reign && t < s
    requires h.reign[t].leader in h.term && h.term[h.reign[t].leader] == t
    requires Grows(h, Extend(h, t, ents), h.reign[t].leader)
    requires k > |h.reign[t].log|
    ensures Blocked(Extend(h, t, ents), t, k)
  {
    var h' := Extend(h, t, ents);
    var q := h.reign[s].quorum;
    assert Elected(h, s, h.reign[s]);
    forall j | j in q
      ensures j in Blockers(h', t, k)
    {
      assert VoteOK(h, j, s, h.votes[(j, s)]);
      assert AckOK(h, j, t);
      assert Ack(h', j, t) == Ack(h, j, t);
    }
    QuorumGrows(h.voters, q, Blockers(h', t, k));
  }

  /** Node j acknowledges index k to the leader of its current term. */
  function Acknowledge(h: Hist, j: NodeId, k: nat): Hist
    requires j in h.term
  {
    var t := h.term[j];
    h.(acks := h.acks[(j, t) := Max(Ack(h, j, t), k)])
  }

  lemma AcknowledgeInv(h: Hist, j: NodeId, k: nat)
    requires HistInv(h) && j in h.voters
    requires h.term[j] in h.reign && k <= |h.reign[h.term[j]].log|
    ensures HistInv(Acknowledge(h, j, k)) && Grows(h, Acknowledge(h, j, k), j)
  {
    var h' := Acknowledge(h, j, k);
    assert AckOK(h, j, h.term[j]);
    AcknowledgeGrows(h, j, k);
    CampInvGrows(h, h', j);
    VoteInvGrows(h, h', j);
    ReignInvGrows(h, h', j);
    AckInvGrows(h, h', j);
  }

  lemma AcknowledgeGrows(h: Hist, j: NodeId, k: nat)
    requires j in h.term
    ensures Grows(h, Acknowledge(h, j, k), j)
  {
  }

  /** The leader of term t finds index k of its own term on a majority. */
  function Count(h: Hist, t: nat, k: nat): Hist
    requires t in h.reign
  {
    h.(reign := h.reign[t := h.reign[t].(counted := k)])
  }

  lemma CountInvStep(h: Hist, t: nat, k: nat)
    requires HistInv(h) && t in h.reign
    requires h.reign[t].base < k <= |h.reign[t].log| && h.reign[t].counted <= k
    requires Chosen(h, t, k)
    ensures HistInv(Count(h, t, k)) && Grows(h, Count(h, t, k), h.reign[t].leader)
  {
    var i := h.reign[t].leader;
    var h' := Count(h, t, k);
    CountGrows(h, t, k);
    CampInvGrows(h, h', i);
    VoteInvGrows(h, h', i);
    AckInvGrows(h, h', i);
    CountReigns(h, t, k);
  }

  lemma CountGrows(h: Hist, t: nat, k: nat)
    requires t in h.reign && h.reign[t].counted <= k
    ensures Grows(h, Count(h, t, k), h.reign[t].leader)
  {
  }

  lemma CountReigns(h: Hist, t: nat, k: nat)
    requires ReignInv(h) && ElectInv(h) && CountInv(h) && SafeInv(h) && t in h.reign
    requires h.reign[t].base < k <= |h.reign[t].log| && Chosen(h, t, k)
    requires Grows(h, Count(h, t, k), h.reign[t].leader)
    ensures var h' := Count(h, t, k); ReignInv(h') && ElectInv(h') && CountInv(h') && SafeInv(h')
  {
    var i := h.reign[t].leader;
    var h' := Count(h, t, k);
    forall s | s in h'.reign
      ensures ReignShape(h', s, h'.reign[s]) && Elected(h', s, h'.reign[s]) && Counted(h', s, h'.reign[s])
    {
      assert ReignShape(h, s, h.reign[s]) && Elected(h, s, h.reign[s]) && Counted(h, s, h.reign[s]);
      if s == t {
        LogInvGrows(h, h', h.reign[t].log);
        ChosenGrows(h, h', i, t, k);
      } else {
        ReignGrowsInv(h, h', i, s);
      }
    }
    forall s, s', x | s in h'.reign && s' in h'.reign && s < s' && h'.reign[s].base < x <= |h'.reign[s].log|
      ensures Kept(h', h'.reign[s'].log, s, x)
    {
      SafeGrows(h, h', i, s, s', x);
    }
  }

  // ---------------------------------------------------------------- consequences

  /** Leader Completeness: what a leader committed by counting is in every later leader's log. */
  lemma LeaderCompleteness(h: Hist, t: nat, t': nat)
    requires HistInv(h) && t in h.reign && t' in h.reign && t <= t'
    ensures Agree(h.reign[t].log, h.reign[t'].log, h.reign[t].counted)
  {
    var k := h.reign[t].counted;
    assert Counted(h, t, h.reign[t]);
    if t < t' && k > 0 {
      NotBoth(h, t, k);
      assert Kept(h, h.reign[t'].log, t, k);
    }
  }
}
