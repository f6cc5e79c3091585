/**
 * The deep-link dispatcher: links are queued until a handler is attached and then handled one
 * after the other on a promise chain.
 */
module DeepLink {
  import opened Common

  const MaximumOutstanding: nat := 4

  datatype Origin = ColdStart | OpenURL | SecondInstance

  datatype Link = Link(origin: string, path: string, source: Origin)

  datatype Rejection = HandlingFailed | Invalid | Multiple | Overloaded

  /** `chain` holds the scheduled links that are not finished; `running` says whether its first was begun. */
  datatype State = State(
    pending: seq<Link>, attached: bool, outstanding: int, chain: seq<Link>, running: bool,
    rejections: seq<Rejection>,
    accepted: seq<Link>,      // history: links accepted, in order
    dispatched: seq<Link>,    // history: links given to the handler, in order
    finished: nat)            // history: how many of those the handler has settled

  const START := State([], false, 0, [], false, [], [], [], 0)

  datatype Action =
    | Accept(link: Option<Link>)    // a link that parses, or one that does not
    | RejectMany                    // arguments with several links
    | Attach
    | Begin                         // the chain reaches its first link
    | Settle(ok: bool)              // the handler's promise settles

  function Accepted(s: State, link: Link): State {
    if s.outstanding >= MaximumOutstanding then s.(rejections := s.rejections + [Overloaded]) else
      var t := s.(outstanding := s.outstanding + 1, accepted := s.accepted + [link]);
      if s.attached then t.(chain := s.chain + [link]) else t.(pending := s.pending + [link])
  }

  function Next(s: State, a: Action): State {
    match a
    case Accept(None) => s.(rejections := s.rejections + [Invalid])
    case Accept(Some(link)) => Accepted(s, link)
    case RejectMany => s.(rejections := s.rejections + [Multiple])
    case Attach => if s.attached then s else s.(attached := true, chain := s.chain + s.pending, pending := [])
    case Begin =>
      if s.running || s.chain == [] then s else s.(running := true, dispatched := s.dispatched + [s.chain[0]])
    case Settle(ok) =>
      if !s.running || s.chain == [] then s
      else s.(running := false, chain := s.chain[1..], outstanding := s.outstanding - 1, finished := s.finished + 1,
              rejections := if ok then s.rejections else s.rejections + [HandlingFailed])
  }

  /** A link below the limit is accepted, to the chain or to the queue; one above it is refused and leaves no trace. */
  lemma AcceptMeans(s: State, link: Link)
    ensures var t := Accepted(s, link);
            if s.outstanding < 4 then
              && t.accepted == s.accepted + [link] && t.outstanding == s.outstanding + 1
              && t.rejections == s.rejections
              && t.chain == (if s.attached then s.chain + [link] else s.chain)
              && t.pending == (if s.attached then s.pending else s.pending + [link])
            else t == s.(rejections := s.rejections + [Overloaded])
  {
  }

  /** Each step's own mark: what is refused is reported as such, and only what is begun is dispatched. */
  lemma StepMeans(s: State, a: Action)
    requires Inv(s)
    ensures var t := Next(s, a);
            match a
            case Accept(None) => t == s.(rejections := s.rejections + [Invalid])
            case Accept(Some(link)) => t.accepted == if s.outstanding < 4 then s.accepted + [link] else s.accepted
            case RejectMany => t == s.(rejections := s.rejections + [Multiple])
            case Attach =>
              t.attached && t.pending == [] && t.chain == s.chain + s.pending && t.rejections == s.rejections
            case Begin =>
              if s.running || s.chain == [] then t == s
              else t.running && t.dispatched == s.dispatched + [s.chain[0]] && t.chain == s.chain
            case Settle(ok) =>
              if !s.running then t == s
              else !t.running && t.chain == s.chain[1..] && t.finished == s.finished + 1
                   && t.outstanding == s.outstanding - 1
                   && t.rejections == if ok then s.rejections else s.rejections + [HandlingFailed]
  {
  }

  function Run(actions: seq<Action>): State {
    if actions == [] then START else Next(Run(actions[..|actions| - 1]), actions[|actions| - 1])
  }

  predicate Inv(s: State) {
    && s.outstanding == |s.pending| + |s.chain| <= MaximumOutstanding
    && (if s.attached then s.pending == [] else s.chain == [])
    && (s.running ==> s.chain != [])
    && s.finished <= |s.accepted| && s.accepted[s.finished..] == s.chain + s.pending
    && s.dispatched == s.accepted[..s.finished + if s.running then 1 else 0]
  }

  lemma AcceptKeeps(s: State, link: Link)
    requires Inv(s)
    ensures Inv(Accepted(s, link))
  {
    var more := s.accepted + [link];
    assert more[s.finished..] == s.accepted[s.finished..] + [link];
    assert (s.chain + s.pending) + [link] == s.chain + (s.pending + [link]);
    if s.attached {
      assert s.chain + s.pending == s.chain;
      assert (s.chain + [link]) + s.pending == s.chain + [link];
    }
    var n := s.finished + if s.running then 1 else 0;
    assert n <= |s.accepted|;
    assert more[..n] == s.accepted[..n];
  }

  lemma BeginKeeps(s: State)
    requires Inv(s)
    ensures Inv(Next(s, Begin))
  {
    if !s.running && s.chain != [] {
      assert s.accepted[s.finished] == s.accepted[s.finished..][0] == s.chain[0];
      assert s.accepted[..s.finished + 1] == s.accepted[..s.finished] + [s.chain[0]];
    }
  }

  lemma SettleKeeps(s: State, ok: bool)
    requires Inv(s)
    ensures Inv(Next(s, Settle(ok)))
  {
    if s.running {
      assert s.accepted[s.finished + 1..] == s.accepted[s.finished..][1..];
      assert (s.chain + s.pending)[1..] == s.chain[1..] + s.pending;
    }
  }

  lemma AttachKeeps(s: State)
    requires Inv(s)
    ensures Inv(Next(s, Attach))
  {
    if !s.attached {
      assert (s.chain + s.pending) + [] == s.chain + s.pending;
    }
  }

  lemma StepKeeps(s: State, a: Action)
    requires Inv(s)
    ensures Inv(Next(s, a))
  {
    match a
    case Accept(None) =>
    case Accept(Some(link)) => AcceptKeeps(s, link);
    case RejectMany =>
    case Attach => AttachKeeps(s);
    case Begin => BeginKeeps(s);
    case Settle(ok) => SettleKeeps(s, ok);
  }

  lemma {:induction false} EveryRun(actions: seq<Action>)
    ensures Inv(Run(actions))
  {
    if actions != [] {
      EveryRun(actions[..|actions| - 1]);
      StepKeeps(Run(actions[..|actions| - 1]), actions[|actions| - 1]);
    }
  }

  /**
   * In every run the outstanding count is the queued plus the unfinished scheduled links and at
   * most 4; links reach the handler in acceptance order, none twice, each only after the one
   * before it is settled.
   */
  lemma DispatchedInOrder(actions: seq<Action>)
    ensures var s := Run(actions);
            && s.outstanding == |s.pending| + |s.chain| <= MaximumOutstanding
            && s.dispatched <= s.accepted
            && s.finished <= |s.dispatched| <= s.finished + 1
            && |s.accepted| == s.finished + s.outstanding
  {
    EveryRun(actions);
    var s := Run(actions);
    assert |s.accepted[s.finished..]| == |s.accepted| - s.finished;
  }

  // ---------------------------------------------------------------- nothing is forgotten

  /**
   * Whether a step moves the chain on: a handler must be attached, a link is begun only after the
   * one before it has settled, and only a begun link settles.
   */
  predicate IsTurn(attached: bool, running: bool, a: Action) {
    match a
    case Begin => attached && !running
    case Settle(_) => running
    case _ => false
  }

  /** How many of the steps move the chain on. */
  function Turns(attached: bool, running: bool, steps: seq<Action>): nat
    decreases |steps|
  {
    if steps == [] then 0 else
      var turn := IsTurn(attached, running, steps[0]);
      Turns(attached || steps[0].Attach?, running != turn, steps[1..]) + if turn then 1 else 0
  }

  /** How many turns the first `n` accepted links still need. */
  function Owed(s: State, n: nat): int {
    2 * (n - s.finished) - if s.running then 1 else 0
  }

  lemma UnfinishedIsOutstanding(s: State, n: nat)
    requires Inv(s) && s.finished < n <= |s.accepted|
    ensures s.attached ==> s.chain != []
  {
    assert |s.accepted[s.finished..]| == |s.accepted| - s.finished;
  }

  lemma TurnsStep(s: State, a: Action, more: seq<Action>)
    requires Inv(s) && (s.attached ==> s.chain != [])
    ensures var t := Next(s, a);
            Turns(s.attached, s.running, [a] + more)
            == Turns(t.attached, t.running, more) + if IsTurn(s.attached, s.running, a) then 1 else 0
  {
    assert ([a] + more)[1..] == more;
  }

  /** While a link is unfinished every turn is used, and no step loses one. */
  lemma TurnIsUsed(s: State, a: Action, n: nat)
    requires Inv(s) && (s.attached ==> s.chain != [])
    ensures Owed(Next(s, a), n) == Owed(s, n) - if IsTurn(s.attached, s.running, a) then 1 else 0
  {
  }

  lemma NothingIsTakenBack(s: State, a: Action)
    ensures s.accepted <= Next(s, a).accepted && s.finished <= Next(s, a).finished
  {
  }

  /**
   * After any run, in any continuation that takes two turns for each link outstanding, whatever
   * else is accepted, attached or refused in between and whether or not handlers fail, every
   * link accepted so far has been dispatched and settled.
   */
  lemma {:induction false} EverythingIsDispatched(actions: seq<Action>, more: seq<Action>, n: nat)
    requires n <= |Run(actions).accepted|
    requires Turns(Run(actions).attached, Run(actions).running, more) >= Owed(Run(actions), n)
    ensures var s, t := Run(actions), Run(actions + more);
            s.accepted[..n] <= t.dispatched && n <= t.finished
    decreases |more|
  {
    EveryRun(actions);
    var s := Run(actions);
    if more == [] {
      assert actions + more == actions;
    } else {
      var longer := actions + [more[0]];
      assert longer[..|actions|] == actions && longer + more[1..] == actions + more;
      NothingIsTakenBack(s, more[0]);
      if s.finished < n {
        UnfinishedIsOutstanding(s, n);
        assert [more[0]] + more[1..] == more;
        TurnsStep(s, more[0], more[1..]);
        TurnIsUsed(s, more[0], n);
      }
      EverythingIsDispatched(longer, more[1..], n);
      assert Run(longer).accepted[..n] == s.accepted[..n];
    }
  }

  /** The dispatcher in place; the chain's own moves are its last two methods. */
  class Dispatcher {
    const parse: (string, Origin) -> Option<Link>
    const prefix: string
    var pending: seq<Link>
    var attached: bool
    var outstanding: int
    var chain: seq<Link>
    var running: bool
    var rejections: seq<Rejection>
    var accepted: seq<Link>
    var dispatched: seq<Link>
    var finished: nat

    function View(): State
      reads this
    {
      State(pending, attached, outstanding, chain, running, rejections, accepted, dispatched, finished)
    }

    constructor (parse: (string, Origin) -> Option<Link>, prefix: string)
      ensures View() == START && this.parse == parse && this.prefix == prefix
    {
      this.parse, this.prefix := parse, prefix;
      pending, attached, outstanding, chain, running := [], false, 0, [], false;
      rejections, accepted, dispatched, finished := [], [], [], 0;
    }

    method AcceptURL(raw: string, source: Origin) returns (ok: bool)
      modifies this
      ensures View() == Next(old(View()), Accept(parse(raw, source)))
      ensures ok <==> parse(raw, source).Some? && old(outstanding) < 4
      ensures accepted == if ok then old(accepted) + [parse(raw, source).value] else old(accepted)
      ensures rejections
           == if ok then old(rejections)
              else old(rejections) + [if parse(raw, source).None? then Invalid else Overloaded]
    {
      var link := parse(raw, source);
      if link.None? {
        rejections := rejections + [Invalid];
        return false;
      }
      if outstanding >= MaximumOutstanding {
        rejections := rejections + [Overloaded];
        return false;
      }
      outstanding := outstanding + 1;
      accepted := accepted + [link.value];
      if attached {
        Schedule(link.value);
      } else {
        pending := pending + [link.value];
      }
      return true;
    }

    method Schedule(link: Link)
      modifies this
      ensures View() == old(View()).(chain := old(chain) + [link])
    {
      chain := chain + [link];
    }

    predicate IsLink(argument: string) {
      prefix <= argument
    }

    /** How many of the arguments look like links. */
    function Links(arguments: seq<string>): nat {
      if arguments == [] then 0
      else Links(arguments[..|arguments| - 1]) + if IsLink(arguments[|arguments| - 1]) then 1 else 0
    }

    /** Several links are refused as a whole, none is ignored, and a single one is accepted as a URL. */
    method AcceptArguments(arguments: seq<string>, source: Origin) returns (ok: bool)
      modifies this
      ensures Links(arguments) == 0 ==> View() == old(View()) && !ok
      ensures Links(arguments) > 1 ==> View() == Next(old(View()), RejectMany) && !ok
      ensures Links(arguments) == 1 ==>
                exists raw :: raw in arguments && IsLink(raw) && View() == Next(old(View()), Accept(parse(raw, source)))
      ensures ok ==> |accepted| == |old(accepted)| + 1 && rejections == old(rejections)
      ensures !ok ==> accepted == old(accepted) && (Links(arguments) > 0 ==> |rejections| == |old(rejections)| + 1)
    {
      var candidates: seq<string> := [];
      for i := 0 to |arguments|
        invariant |candidates| == Links(arguments[..i])
        invariant forall c :: c in candidates ==> c in arguments && IsLink(c)
        invariant View() == old(View())
      {
        assert arguments[..i + 1][..i] == arguments[..i];
        if IsLink(arguments[i]) {
          candidates := candidates + [arguments[i]];
        }
      }
      assert arguments[..|arguments|] == arguments;
      if |candidates| > 1 {
        rejections := rejections + [Multiple];
        return false;
      }
      if |candidates| == 0 {
        return false;
      }
      assert candidates[0] in candidates;
      ok := AcceptURL(candidates[0], source);
    }

    method AttachHandler() returns (ok: bool)
      modifies this
      ensures View() == Next(old(View()), Attach)
      ensures ok <==> !old(attached)
    {
      if attached {
        return false;
      }
      attached := true;
      var queued := pending;
      pending := [];
      for i := 0 to |queued|
        invariant View() == old(View()).(attached := true, pending := [], chain := old(chain) + queued[..i])
      {
        Schedule(queued[i]);
        assert old(chain) + queued[..i + 1] == (old(chain) + queued[..i]) + [queued[i]];
      }
      assert queued[..|queued|] == queued;
      return true;
    }

    method BeginNext()
      requires !running && chain != []
      modifies this
      ensures View() == Next(old(View()), Begin)
    {
      running := true;
      dispatched := dispatched + [chain[0]];
    }

    method SettleFirst(ok: bool)
      requires running && chain != []
      modifies this
      ensures View() == Next(old(View()), Settle(ok))
    {
      if !ok {
        rejections := rejections + [HandlingFailed];
      }
      running := false;
      chain := chain[1..];
      finished := finished + 1;
      outstanding := outstanding - 1;
    }
  }
}
