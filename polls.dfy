/** The Polls page: the creation form, poll creation and voting. */
module Polls {
  import opened Records
  import opened Text
  import Lists

  /** The `newPoll` form state. */
  datatype PollForm = PollForm(question: string, options: seq<string>, endsAt: string)

  /** The form as first shown and as reset after a successful create. */
  function EmptyForm(): PollForm
  {
    PollForm("", ["", ""], "")
  }

  /** The guard of `handleCreatePoll`: a non-empty question, no option that trims
      to the empty string, and a non-empty end time. */
  predicate CanCreate(form: PollForm)
  {
    && form.question != ""
    && (forall i :: 0 <= i < |form.options| ==> Trim(form.options[i]) != "")
    && form.endsAt != ""
  }

  /** The guard rejects a form exactly when the question or the end time is empty,
      or some option is made of white space only. */
  lemma CanCreateIff(form: PollForm)
    ensures CanCreate(form) <==>
      && form.question != ""
      && form.endsAt != ""
      && (forall i :: 0 <= i < |form.options| ==> !IsBlank(form.options[i]))
  {
  }

  function Sum(s: seq<int>): int
    decreases |s|
  {
    if s == [] then 0 else s[0] + Sum(s[1..])
  }

  function TotalVotes(p: Poll): int
  {
    Sum(p.votes)
  }

  lemma {:induction false} SumOfZeros(s: seq<int>)
    requires forall i :: 0 <= i < |s| ==> s[i] == 0
    ensures Sum(s) == 0
    decreases |s|
  {
    if s != [] {
      SumOfZeros(s[1..]);
    }
  }

  /** Adding one to one entry adds one to the sum. */
  lemma {:induction false} SumOfIncrement(s: seq<int>, k: int)
    requires 0 <= k < |s|
    ensures Sum(s[k := s[k] + 1]) == Sum(s) + 1
    decreases |s|
  {
    var t := s[k := s[k] + 1];
    if k > 0 {
      assert t[1..] == s[1..][k - 1 := s[k] + 1];
      SumOfIncrement(s[1..], k - 1);
    } else {
      assert t[1..] == s[1..];
    }
  }

  /** `new Array(n).fill(0)`. */
  function Zeros(n: nat): (r: seq<int>)
    ensures |r| == n
    ensures forall i :: 0 <= i < n ==> r[i] == 0
  {
    if n == 0 then [] else [0] + Zeros(n - 1)
  }

  /** The poll record `handleCreatePoll` builds from the form; the id and the
      creation time come from the clock and are passed in. */
  function NewPoll(form: PollForm, id: int, createdAt: string): (p: Poll)
    ensures p.id == id && p.createdAt == createdAt && p.createdBy == "Current User"
    ensures p.question == form.question && p.options == form.options && p.endsAt == form.endsAt
    ensures |p.votes| == |p.options|
    ensures forall i :: 0 <= i < |p.votes| ==> p.votes[i] == 0
    ensures TotalVotes(p) == 0
  {
    var votes := Zeros(|form.options|);
    SumOfZeros(votes);
    Poll(id, form.question, form.options, votes, "Current User", createdAt, form.endsAt)
  }

  /** Every option has a tally. */
  predicate WellFormed(p: Poll)
  {
    |p.votes| == |p.options|
  }

  /** What the vote buttons guarantee: the index is one of the options of every
      poll carrying `pollId`, so `votes[optionIndex]` exists. */
  predicate CanVote(polls: seq<Poll>, pollId: int, optionIndex: int)
  {
    && 0 <= optionIndex
    && forall i :: 0 <= i < |polls| && polls[i].id == pollId ==> optionIndex < |polls[i].votes|
  }

  /** One poll after `votes[optionIndex]++`. */
  function VoteFor(p: Poll, optionIndex: int): (q: Poll)
    requires 0 <= optionIndex < |p.votes|
    ensures q == p.(votes := q.votes) && |q.votes| == |p.votes|
    ensures q.votes[optionIndex] == p.votes[optionIndex] + 1
    ensures forall j :: 0 <= j < |p.votes| && j != optionIndex ==> q.votes[j] == p.votes[j]
    ensures TotalVotes(q) == TotalVotes(p) + 1
  {
    SumOfIncrement(p.votes, optionIndex);
    p.(votes := p.votes[optionIndex := p.votes[optionIndex] + 1])
  }

  /** The list `handleVote` installs: `polls.map(...)` with `votes[optionIndex]++`
      on every poll whose id is `pollId`. No voter and no end time is checked. */
  function Voted(polls: seq<Poll>, pollId: int, optionIndex: int): (r: seq<Poll>)
    requires CanVote(polls, pollId, optionIndex)
    ensures |r| == |polls|
    ensures forall i :: 0 <= i < |polls| && polls[i].id != pollId ==> r[i] == polls[i]
    ensures forall i :: 0 <= i < |polls| && polls[i].id == pollId ==>
      && r[i] == polls[i].(votes := r[i].votes)
      && |r[i].votes| == |polls[i].votes|
      && r[i].votes[optionIndex] == polls[i].votes[optionIndex] + 1
      && (forall j :: 0 <= j < |r[i].votes| && j != optionIndex ==> r[i].votes[j] == polls[i].votes[j])
      && TotalVotes(r[i]) == TotalVotes(polls[i]) + 1
  {
    Lists.MapWhere(polls, (p: Poll) => p.id == pollId,
      (p: Poll) requires 0 <= optionIndex < |p.votes| => VoteFor(p, optionIndex))
  }

  /** Voting keeps every poll well formed and every poll id in place. */
  lemma VotedKeepsShape(polls: seq<Poll>, pollId: int, optionIndex: int)
    requires CanVote(polls, pollId, optionIndex)
    ensures forall i :: 0 <= i < |polls| ==>
      Voted(polls, pollId, optionIndex)[i].id == polls[i].id &&
      (WellFormed(polls[i]) ==> WellFormed(Voted(polls, pollId, optionIndex)[i]))
    ensures CanVote(Voted(polls, pollId, optionIndex), pollId, optionIndex)
  {
  }

  /** `n` successive clicks on the same option. */
  function VotedTimes(polls: seq<Poll>, pollId: int, optionIndex: int, n: nat): (r: seq<Poll>)
    requires CanVote(polls, pollId, optionIndex)
    ensures |r| == |polls|
    ensures forall i :: 0 <= i < |polls| ==> r[i].id == polls[i].id && |r[i].votes| == |polls[i].votes|
    decreases n
  {
    if n == 0 then polls
    else
      VotedKeepsShape(polls, pollId, optionIndex);
      VotedTimes(Voted(polls, pollId, optionIndex), pollId, optionIndex, n - 1)
  }

  /** Votes are never deduplicated: `n` votes for the same option, by anyone,
      raise its tally and the poll's total by exactly `n`. */
  lemma {:induction false} RepeatedVotesAccumulate(polls: seq<Poll>, pollId: int, optionIndex: int, n: nat, i: int)
    requires CanVote(polls, pollId, optionIndex)
    requires 0 <= i < |polls| && polls[i].id == pollId
    ensures |VotedTimes(polls, pollId, optionIndex, n)| == |polls|
    ensures VotedTimes(polls, pollId, optionIndex, n)[i].votes[optionIndex] == polls[i].votes[optionIndex] + n
    ensures TotalVotes(VotedTimes(polls, pollId, optionIndex, n)[i]) == TotalVotes(polls[i]) + n
    decreases n
  {
    if n > 0 {
      VotedKeepsShape(polls, pollId, optionIndex);
      RepeatedVotesAccumulate(Voted(polls, pollId, optionIndex), pollId, optionIndex, n - 1, i);
    }
  }

  /** The state of the Polls page: the poll list and the creation form. */
  class PollsPage {
    var polls: seq<Poll>
    var newPoll: PollForm

    /** The form never offers fewer than two options. */
    ghost predicate Valid()
      reads this
    {
      |newPoll.options| >= 2
    }

    constructor (polls: seq<Poll>)
      ensures Valid()
      ensures this.polls == polls && newPoll == EmptyForm()
    {
      this.polls := polls;
      newPoll := EmptyForm();
    }

    /** `handleCreatePoll`: on a form the guard accepts, appends one poll with zeroed
        tallies and resets the form; otherwise changes nothing. */
    method CreatePoll(id: int, createdAt: string)
      requires Valid()
      modifies this
      ensures Valid()
      ensures CanCreate(old(newPoll)) ==>
        && polls == old(polls) + [NewPoll(old(newPoll), id, createdAt)]
        && newPoll == EmptyForm()
        && |polls[|polls| - 1].options| >= 2
      ensures !CanCreate(old(newPoll)) ==> polls == old(polls) && newPoll == old(newPoll)
    {
      if CanCreate(newPoll) {
        var poll := NewPoll(newPoll, id, createdAt);
        polls := polls + [poll];
        newPoll := EmptyForm();
      }
    }

    /** `handleVote`: walks the list, copies the tallies of each poll with `pollId`
        and increments the copy in place. */
    method Vote(pollId: int, optionIndex: int)
      requires CanVote(polls, pollId, optionIndex)
      modifies this
      ensures polls == Voted(old(polls), pollId, optionIndex)
      ensures newPoll == old(newPoll)
    {
      var current := polls;
      ghost var target := Voted(current, pollId, optionIndex);
      var updated: seq<Poll> := [];
      for i := 0 to |current|
        invariant polls == current && newPoll == old(newPoll)
        invariant |updated| == i
        invariant forall k :: 0 <= k < i ==> updated[k] == target[k]
      {
        var poll := current[i];
        if poll.id == pollId {
          var newVotes := new int[|poll.votes|](k requires 0 <= k < |poll.votes| => poll.votes[k]);
          newVotes[optionIndex] := newVotes[optionIndex] + 1;
          assert newVotes[..] == target[i].votes;
          poll := poll.(votes := newVotes[..]);
        }
        updated := updated + [poll];
      }
      polls := updated;
    }

    /** The Add Option button: one more empty option, nothing else changes. */
    method AddOption()
      requires Valid()
      modifies this
      ensures Valid()
      ensures newPoll == old(newPoll).(options := old(newPoll.options) + [""])
      ensures polls == old(polls)
    {
      newPoll := newPoll.(options := newPoll.options + [""]);
    }

    /** Typing into option field `index`: copies the options and overwrites one. */
    method EditOption(index: int, value: string)
      requires Valid()
      requires 0 <= index < |newPoll.options|
      modifies this
      ensures Valid()
      ensures newPoll == old(newPoll).(options := old(newPoll.options)[index := value])
      ensures polls == old(polls)
    {
      var options := newPoll.options;
      var newOptions := new string[|options|](k requires 0 <= k < |options| => options[k]);
      newOptions[index] := value;
      assert newOptions[..] == options[index := value];
      newPoll := newPoll.(options := newOptions[..]);
    }
  }

  /** Creating a poll and voting keep every poll of the list well formed. */
  lemma CreateAndVoteKeepWellFormed(polls: seq<Poll>, form: PollForm, id: int, createdAt: string, pollId: int, optionIndex: int)
    requires forall i :: 0 <= i < |polls| ==> WellFormed(polls[i])
    ensures forall i :: 0 <= i < |polls| + 1 ==> WellFormed((polls + [NewPoll(form, id, createdAt)])[i])
    ensures CanVote(polls, pollId, optionIndex) ==>
      forall i :: 0 <= i < |polls| ==> WellFormed(Voted(polls, pollId, optionIndex)[i])
  {
  }
}
