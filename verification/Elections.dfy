/** A run of three voters with pre-vote in which the first of them is elected: it asks around in its old
    term, stands in the next one, and wins. */
module Elections {
  import opened Types
  import opened Logs
  import opened Nodes
  import opened NodeLocal
  import opened Laws
  import opened Cluster

  function Voter(i: NodeId): Config {
    Config(i, [1, 2, 3], 20, 4, 10, false, true, false, false)
  }

  /** A voter that has done nothing yet. */
  ghost predicate Idle(i: NodeId, n: Node) {
    && n.cfg == Voter(i) && n.role.Follower? && n.term == 0 && n.vote == NONE && n.lead == NONE && n.log == []
    && n.committed == 0 == n.applied && n.msgs == []
  }

  lemma NewVoter(i: NodeId)
    requires i in {1, 2, 3}
    ensures Idle(i, NewNode(Voter(i))) && NewNode(Voter(i)).cfg == Voter(i) && ConfigOK(Voter(i))
    ensures Voter(i).id == i && Voter(i).peers == [1, 2, 3]
  {
    hide FreshPeers;
  }

  function Beginning(): System {
    System(map i | i in {1, 2, 3} :: NewNode(Voter(i)), {})
  }

  lemma VoterInit(c: System, i: NodeId)
    requires c.nodes.Keys == {1, 2, 3} && i in c.nodes && c.nodes[i] == NewNode(Voter(i))
    ensures var cfg := c.nodes[i].cfg;
      && cfg.id == i && ConfigOK(cfg) && (forall p :: p in cfg.peers <==> p in c.nodes)
      && c.nodes[i] == NewNode(cfg)
  {
    hide NewNode, ConfigOK, Idle;
    NewVoter(i);
  }

  lemma VotersInit(c: System)
    requires c.nodes.Keys == {1, 2, 3} && c.net == {}
    requires forall i {:trigger c.nodes[i]} :: i in c.nodes ==> c.nodes[i] == NewNode(Voter(i))
    ensures Init(c)
  {
    hide NewNode, ConfigOK, Voter;
    forall i {:trigger c.nodes[i]} | i in c.nodes
      ensures var cfg := c.nodes[i].cfg;
        && cfg.id == i && ConfigOK(cfg) && (forall p :: p in cfg.peers <==> p in c.nodes)
        && c.nodes[i] == NewNode(cfg)
    {
      VoterInit(c, i);
    }
  }

  lemma BeginningInit()
    ensures Run([Beginning()]) && Beginning().nodes.Keys == {1, 2, 3}
    ensures Idle(1, Beginning().nodes[1]) && Idle(2, Beginning().nodes[2])
  {
    hide NewNode, Voter, Idle, Init;
    NewVoter(1);
    NewVoter(2);
    VotersInit(Beginning());
  }

  /** The last state of the run. */
  ghost function End(cs: seq<System>): System
    requires cs != []
  {
    cs[|cs| - 1]
  }

  ghost predicate At(cs: seq<System>, j: NodeId, n: Node) {
    cs != [] && Run(cs) && j in End(cs).nodes && End(cs).nodes[j] == n
  }

  /** Node j takes a message; what it sends is on its way, and the others are as they were. */
  lemma Takes(cs: seq<System>, j: NodeId, n: Node, x: Action, m: Message) returns (cs': seq<System>)
    requires At(cs, j, n) && Enabled(End(cs), j, x) && (x == Request(m) || x == Deliver(m))
    ensures cs' != [] && Run(cs') && |cs'| == |cs| + 1 && cs'[..|cs|] == cs
    ensures End(cs') == System(End(cs).nodes[j := Step(n, m).(msgs := [])], End(cs).net + Sent(Step(n, m)))
  {
    hide Run, Step, Enabled, Sent;
    RunExtends(cs, j, x);
    cs' := cs + [After(cs[|cs| - 1], j, x)];
  }

  lemma TwoOthers(f: NodeId -> Message)
    ensures ToOthers(1, [1, 2, 3], f) == [f(2), f(3)]
  {
    assert [1, 2, 3][1..] == [2, 3] && [2, 3][1..] == [3] && [3][1..] == [];
  }

  function PreVoteTo2(): Message {
    Message(MsgPreVote, 2, 1, 1, 0, 0, [], 0, false, 0, "")
  }

  /** Voter 1 asks around. */
  lemma Asking(n: Node)
    requires Local(n) && Idle(1, n)
    ensures var n' := Step(n, Blank(MsgHup, 1)).(msgs := []);
      Polling(n') && PreVoteTo2() in Sent(Step(n, Blank(MsgHup, 1)))
  {
    hide Local, Step;
    HupCampaigns(n, Blank(MsgHup, 1));
    TwoOthers(Ballot(n, MsgPreVote, 1, ""));
    assert Step(n, Blank(MsgHup, 1)).msgs[0] == PreVoteTo2();
  }

  ghost predicate Polling(n: Node) {
    && n.cfg == Voter(1) && n.role.PreCandidate? && n.term == 0 && n.log == [] && n.votes == map[1 := true]
    && n.committed == 0 && n.msgs == []
  }

  /** Voter 2 would vote for it, and has not changed. */
  lemma Granting(n: Node)
    requires Local(n) && Idle(2, n)
    ensures Step(n, PreVoteTo2()).(msgs := []) == n
    ensures Message(MsgPreVoteResp, 1, 2, 1, 0, 0, [], 0, false, 0, "") in Sent(Step(n, PreVoteTo2()))
  {
    hide Local, Step;
    PreVoteDecided(n, PreVoteTo2());
    assert Step(n, PreVoteTo2()).msgs[0] == Message(MsgPreVoteResp, 1, 2, 1, 0, 0, [], 0, false, 0, "");
  }

  function PreVoteFrom2(): Message {
    Message(MsgPreVoteResp, 1, 2, 1, 0, 0, [], 0, false, 0, "")
  }

  function VoteTo2(): Message {
    Message(MsgVote, 2, 1, 1, 0, 0, [], 0, false, 0, "")
  }

  function VoteFrom2(): Message {
    Message(MsgVoteResp, 1, 2, 1, 0, 0, [], 0, false, 0, "")
  }

  ghost predicate Standing(n: Node) {
    && n.cfg == Voter(1) && n.role.Candidate? && n.term == 1 && n.log == [] && n.votes == map[1 := true] && n.msgs == []
  }

  lemma OneVote(n: Node)
    requires n.votes == map[1 := true]
    ensures |Voted(n)| == 1
  {
    assert Voted(n) == {1};
  }

  /** Voter 1 stands. */
  lemma StandingUp(n: Node)
    requires Local(n) && Polling(n)
    ensures Standing(Step(n, PreVoteFrom2()).(msgs := [])) && VoteTo2() in Sent(Step(n, PreVoteFrom2()))
  {
    hide Local, Step, Voted;
    OneVote(n);
    PreElectedByMajority(n, PreVoteFrom2());
    TwoOthers(Ballot(n, MsgVote, 1, ""));
    assert Step(n, PreVoteFrom2()).msgs[0] == VoteTo2();
  }

  /** Voter 2 votes for it. */
  lemma Voting(n: Node)
    requires Local(n) && Idle(2, n)
    ensures VoteFrom2() in Sent(Step(n, VoteTo2())) && Step(n, VoteTo2()).vote == 1
  {
    hide Local, Step;
    VoteDecided(n, VoteTo2());
    assert Step(n, VoteTo2()).msgs[0] == VoteFrom2();
  }

  /** It wins. */
  lemma Winning(n: Node)
    requires Local(n) && Standing(n)
    ensures var n' := Step(n, VoteFrom2()); n'.cfg == Voter(1) && n'.role.Leader? && n'.term == 1 && |n'.log| == 1
  {
    hide Local, Step, Voted;
    OneVote(n);
    ElectedByMajority(n, VoteFrom2());
  }

  /** Voter 1 has asked, and voter 2 has answered; nobody's term has changed. */
  lemma Polled() returns (cs: seq<System>)
    ensures |cs| == 3 && Run(cs) && cs[2].nodes.Keys == {1, 2, 3} && Polling(cs[2].nodes[1]) && Idle(2, cs[2].nodes[2])
    ensures PreVoteFrom2() in cs[2].net
  {
    hide Run, Step, Idle, Polling, Sent, Beginning, Local;
    BeginningInit();
    var cs0 := [Beginning()];
    RunNodes(cs0, 0, 1);
    var n1, n2 := cs0[0].nodes[1], cs0[0].nodes[2];
    Asking(n1);
    var cs1 := Takes(cs0, 1, n1, Request(Blank(MsgHup, 1)), Blank(MsgHup, 1));
    RunNodes(cs1, 1, 2);
    Granting(n2);
    cs := Takes(cs1, 2, n2, Deliver(PreVoteTo2()), PreVoteTo2());
  }

  /** With pre-vote, too, a node that a majority would vote for is elected. */
  lemma PreVoteElects() returns (cs: seq<System>)
    ensures |cs| == 6 && Run(cs) && cs[5].nodes.Keys == {1, 2, 3} && cs[2].nodes.Keys == {1, 2, 3}
    ensures cs[2].nodes[1].role.PreCandidate? && cs[2].nodes[1].term == 0 == cs[2].nodes[2].term
    ensures cs[5].nodes[1].cfg.preVote && cs[5].nodes[1].role.Leader? && cs[5].nodes[1].term == 1
    ensures cs[5].nodes[2].vote == 1
  {
    hide Run, Step, Sent, Local;
    var cs2 := Polled();
    RunNodes(cs2, 2, 1);
    var n1, n2 := cs2[2].nodes[1], cs2[2].nodes[2];
    StandingUp(n1);
    var cs3 := Takes(cs2, 1, n1, Deliver(PreVoteFrom2()), PreVoteFrom2());
    RunNodes(cs3, 3, 2);
    Voting(n2);
    var cs4 := Takes(cs3, 2, n2, Deliver(VoteTo2()), VoteTo2());
    RunNodes(cs4, 4, 1);
    var c1 := cs4[4].nodes[1];
    Winning(c1);
    cs := Takes(cs4, 1, c1, Deliver(VoteFrom2()), VoteFrom2());
    assert cs[2] == cs4[2] == cs3[2] == cs2[2];
  }
}
