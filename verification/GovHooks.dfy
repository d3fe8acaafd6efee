// The governance hook of x/intrarelayer/keeper/gov_hooks.go: a deposit on a proposal that
// registers a token pair moves the end of its voting period to the module's own period.
module GovHooks {
  import opened Base

  datatype Status = DepositPeriod | VotingPeriod | Passed | Rejected | Failed

  // The two content types that the hook acts on. Any other type answers ProposalType freely.
  datatype Content =
    | RegisterCoinProposal
    | RegisterERC20Proposal
    | OtherProposal(proposalType: string)
  {
    function ProposalType(): string
    {
      match this
      case RegisterCoinProposal => TYPE_REGISTER_COIN
      case RegisterERC20Proposal => TYPE_REGISTER_ERC20
      case OtherProposal(proposalType) => proposalType
    }
  }

  const TYPE_REGISTER_COIN := "RegisterCoin"
  const TYPE_REGISTER_ERC20 := "RegisterERC20"

  // Times and periods are counts of nanoseconds.
  datatype Proposal = Proposal(content: Content, status: Status, votingStart: int, votingEnd: int)

  // The proposal store, the active queue with its entries (end time, id), the voting period of
  // the governance params and that of the module params.
  datatype Gov = Gov(proposals: map<nat, Proposal>, queue: set<(int, nat)>, votingPeriod: int, pairPeriod: int)

  // In the store but not in the queue at another time, and in the queue only while voting.
  ghost predicate Agrees(g: Gov)
  {
    && (forall id :: id in g.proposals && g.proposals[id].status == VotingPeriod ==>
          (g.proposals[id].votingEnd, id) in g.queue)
    && (forall e :: e in g.queue ==>
          e.1 in g.proposals && g.proposals[e.1].status == VotingPeriod && g.proposals[e.1].votingEnd == e.0)
  }

  // A voting proposal that the hook applies to.
  predicate Registers(g: Gov, id: nat)
  {
    && id in g.proposals
    && g.proposals[id].status == VotingPeriod
    && !g.proposals[id].content.OtherProposal?
  }

  // Specification of AfterProposalDeposit.
  function AfterDeposit(g: Gov, id: nat): Gov
  {
    if g.pairPeriod == g.votingPeriod || !Registers(g, id) then g
    else
      var p := g.proposals[id];
      var end := p.votingStart + g.pairPeriod;
      g.(proposals := g.proposals[id := p.(votingEnd := end)],
         queue := g.queue - {(p.votingEnd, id)} + {(end, id)})
  }

  // ---- Runs --------------------------------------------------------------------------

  // Submission, activation and tally are the governance module's own steps.
  datatype Step =
    | Submit(id: nat, content: Content)
    | Activate(id: nat, now: int)
    | Deposit(id: nat)
    | SetVotingPeriod(period: int)
    | SetPairPeriod(period: int)
    | Tally(id: nat, outcome: Status)

  function Next(g: Gov, s: Step): Gov
  {
    match s
    case Submit(id, content) =>
      if id in g.proposals then g
      else g.(proposals := g.proposals[id := Proposal(content, DepositPeriod, 0, 0)])
    case Activate(id, now) =>
      if id !in g.proposals || g.proposals[id].status != DepositPeriod then g
      else
        var end := now + g.votingPeriod;
        var p := g.proposals[id].(status := VotingPeriod, votingStart := now, votingEnd := end);
        g.(proposals := g.proposals[id := p], queue := g.queue + {(end, id)})
    case Deposit(id) => AfterDeposit(g, id)
    case SetVotingPeriod(period) => g.(votingPeriod := period)
    case SetPairPeriod(period) => g.(pairPeriod := period)
    case Tally(id, outcome) =>
      if id !in g.proposals || g.proposals[id].status != VotingPeriod || outcome == VotingPeriod then g
      else
        var p := g.proposals[id];
        g.(proposals := g.proposals[id := p.(status := outcome)], queue := g.queue - {(p.votingEnd, id)})
  }

  function Run(g: Gov, steps: seq<Step>): Gov
    decreases |steps|
  {
    if |steps| == 0 then g else Run(Next(g, steps[0]), steps[1..])
  }

  lemma DepositKeepsAgreement(g: Gov, id: nat)
    requires Agrees(g)
    ensures Agrees(AfterDeposit(g, id))
  {
    var g' := AfterDeposit(g, id);
    if g' != g {
      forall e | e in g'.queue
        ensures e.1 in g'.proposals && g'.proposals[e.1].status == VotingPeriod && g'.proposals[e.1].votingEnd == e.0
      {
        if e.1 == id && e in g.queue {
          assert e == (g.proposals[id].votingEnd, id);
        }
      }
    }
  }

  lemma StepKeepsAgreement(g: Gov, s: Step)
    requires Agrees(g)
    ensures Agrees(Next(g, s))
  {
    if s.Deposit? {
      DepositKeepsAgreement(g, s.id);
    } else if s.Tally? {
      var g' := Next(g, s);
      forall e | e in g'.queue
        ensures e.1 in g'.proposals && g'.proposals[e.1].status == VotingPeriod && g'.proposals[e.1].votingEnd == e.0
      {
        if e.1 == s.id {
          assert e == (g.proposals[s.id].votingEnd, s.id);
        }
      }
    }
  }

  // The store and the active queue agree after any run.
  lemma {:induction false} RunKeepsAgreement(g: Gov, steps: seq<Step>)
    requires Agrees(g)
    ensures Agrees(Run(g, steps))
    decreases |steps|
  {
    if |steps| > 0 {
      StepKeepsAgreement(g, steps[0]);
      RunKeepsAgreement(Next(g, steps[0]), steps[1..]);
    }
  }

  // In any run from an empty store, a proposal has one queue entry while it is voting, at its
  // stored end time, and none otherwise.
  lemma OneEntryWhileVoting(steps: seq<Step>, votingPeriod: int, pairPeriod: int, id: nat)
    ensures var g := Run(Gov(map[], {}, votingPeriod, pairPeriod), steps);
            (set e | e in g.queue && e.1 == id) ==
            if id in g.proposals && g.proposals[id].status == VotingPeriod then {(g.proposals[id].votingEnd, id)}
            else {}
  {
    RunKeepsAgreement(Gov(map[], {}, votingPeriod, pairPeriod), steps);
  }

  // ---- What a deposit does -----------------------------------------------------------

  // A second deposit under the same params changes nothing.
  lemma DepositIsIdempotent(g: Gov, id: nat)
    ensures AfterDeposit(AfterDeposit(g, id), id) == AfterDeposit(g, id)
  {
    var g' := AfterDeposit(g, id);
    if g' != g {
      var p := g'.proposals[id];
      assert g'.proposals[id := p] == g'.proposals;
      assert g'.queue - {(p.votingEnd, id)} + {(p.votingEnd, id)} == g'.queue;
    }
  }

  // Deposits on different proposals commute.
  lemma DepositsCommute(g: Gov, a: nat, b: nat)
    ensures AfterDeposit(AfterDeposit(g, a), b) == AfterDeposit(AfterDeposit(g, b), a)
  {
    if a != b && g.pairPeriod != g.votingPeriod && Registers(g, a) && Registers(g, b) {
      var x, y := AfterDeposit(AfterDeposit(g, a), b), AfterDeposit(AfterDeposit(g, b), a);
      assert x.proposals == y.proposals;
      assert x.queue == y.queue;
    }
  }

  // The hook leaves everything alone when the periods are equal, the proposal is unknown or not
  // voting, or it registers nothing.
  lemma DepositIsIgnored(g: Gov, id: nat)
    ensures g.pairPeriod == g.votingPeriod ==> AfterDeposit(g, id) == g
    ensures id !in g.proposals ==> AfterDeposit(g, id) == g
    ensures id in g.proposals && g.proposals[id].status != VotingPeriod ==> AfterDeposit(g, id) == g
    ensures id in g.proposals && g.proposals[id].content.OtherProposal? ==> AfterDeposit(g, id) == g
  {
  }

  // Otherwise it moves the end of this proposal, in the store and in the queue, and nothing else.
  lemma DepositMovesEnd(g: Gov, id: nat)
    requires g.pairPeriod != g.votingPeriod && id in g.proposals && g.proposals[id].status == VotingPeriod
    requires g.proposals[id].content == RegisterCoinProposal || g.proposals[id].content == RegisterERC20Proposal
    ensures var p, g' := g.proposals[id], AfterDeposit(g, id);
            var end := p.votingStart + g.pairPeriod;
            && g'.votingPeriod == g.votingPeriod && g'.pairPeriod == g.pairPeriod
            && g'.proposals.Keys == g.proposals.Keys
            && g'.proposals[id] == Proposal(p.content, VotingPeriod, p.votingStart, end)
            && (forall other :: other in g.proposals && other != id ==> g'.proposals[other] == g.proposals[other])
            && (forall e :: e in g'.queue <==> e == (end, id) || (e in g.queue && e != (p.votingEnd, id)))
  {
  }

  // The module's period takes effect exactly when it differs from the governance period at
  // the time of the deposit, or was in effect before.
  lemma OverridesIffPeriodsDiffer(g: Gov, id: nat)
    requires Registers(g, id)
    ensures var p, p' := g.proposals[id], AfterDeposit(g, id).proposals[id];
            p'.votingEnd == p.votingStart + g.pairPeriod <==>
            g.pairPeriod != g.votingPeriod || p.votingEnd == p.votingStart + g.pairPeriod
  {
  }

  // A run in which it does not: the governance period becomes equal to the module's after the
  // proposal was activated, and the hook returns early.
  lemma EqualPeriodsKeepOldEnd()
    ensures var g := Run(Gov(map[], {}, 100, 50),
                         [Submit(1, RegisterCoinProposal), Activate(1, 0), SetVotingPeriod(50), Deposit(1)]);
            1 in g.proposals && g.proposals[1].votingStart + g.pairPeriod == 50 && g.proposals[1].votingEnd == 100
  {
    var g0 := Gov(map[], {}, 100, 50);
    var g1 := Next(g0, Submit(1, RegisterCoinProposal));
    var g2 := Next(g1, Activate(1, 0));
    var g3 := Next(g2, SetVotingPeriod(50));
    var g4 := Next(g3, Deposit(1));
    var steps := [Submit(1, RegisterCoinProposal), Activate(1, 0), SetVotingPeriod(50), Deposit(1)];
    assert steps[1..][1..][1..][1..] == [];
    assert Run(g0, steps) == Run(g1, steps[1..]) == Run(g2, steps[1..][1..]) == Run(g3, steps[1..][1..][1..]) == g4;
  }

  // ---- The code ----------------------------------------------------------------------

  class Keeper {
    var proposals: map<nat, Proposal>
    var queue: set<(int, nat)>
    var votingPeriod: int
    var pairPeriod: int

    ghost function View(): Gov
      reads this
    {
      Gov(proposals, queue, votingPeriod, pairPeriod)
    }

    constructor (votingPeriod: int, pairPeriod: int)
      ensures View() == Gov(map[], {}, votingPeriod, pairPeriod)
    {
      this.proposals, this.queue := map[], {};
      this.votingPeriod, this.pairPeriod := votingPeriod, pairPeriod;
    }

    function GetVotingPeriod(proposalType: string): int
      reads this
    {
      if proposalType == TYPE_REGISTER_COIN then pairPeriod
      else if proposalType == TYPE_REGISTER_ERC20 then pairPeriod
      else votingPeriod
    }

    method AfterProposalDeposit(proposalID: nat)
      modifies this`proposals, this`queue
      ensures View() == AfterDeposit(old(View()), proposalID)
    {
      var newVotingPeriod := GetVotingPeriod(TYPE_REGISTER_COIN);
      if newVotingPeriod == votingPeriod {
        return;
      }
      if proposalID !in proposals {
        return;
      }
      var proposal := proposals[proposalID];
      if proposal.status != VotingPeriod {
        return;
      }
      var content := proposal.content;
      if content.ProposalType() != TYPE_REGISTER_COIN && content.ProposalType() != TYPE_REGISTER_ERC20 {
        return;
      }
      match content {
        case RegisterCoinProposal =>
        case RegisterERC20Proposal =>
        case OtherProposal(_) =>
          return;
      }
      var originalEndTime := proposal.votingEnd;
      proposal := proposal.(votingEnd := proposal.votingStart + newVotingPeriod);
      queue := queue - {(originalEndTime, proposalID)};
      queue := queue + {(proposal.votingEnd, proposalID)};
      proposals := proposals[proposalID := proposal];
    }
  }
}
