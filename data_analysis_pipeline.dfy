/**
 The data-analysis pipeline's mock language model and its round-robin group
 chat. The chat holds a fixed list of agents and a cursor in [0, n); each
 turn hands the message to the agent under the cursor, after first moving the
 cursor on, so a turn whose agent fails is still used up.

 An agent's `step` is a parameter of the turn: it is whatever the agent does
 with the message (fetching a CSV, describing it, plotting it), and it may raise.
 */
module DataAnalysisPipeline {
  import opened Outcomes
  import opened Strings
  import opened RoundRobin


  /** The reply of the mock `GeminiLLM.generate`: a fixed frame around the model name and the first 50 characters of the prompt. */
  function MockGenerate(model: string, prompt: string): (reply: string)
    ensures Unwrap("LLM(" + model + ") response to: ", "...", reply) == Some(Take(prompt, 50))
    ensures |reply| == |model| + 22 + (if |prompt| <= 50 then |prompt| else 50)
  {
    var r := "LLM(" + model + ") response to: " + Take(prompt, 50) + "...";
    UnwrapWrap("LLM(" + model + ") response to: ", Take(prompt, 50), "...");
    r
  }

  class RoundRobinGroupChat<A> {
    /** The participants, in turn order; never reassigned after construction. */
    const agents: seq<A>
    /** The position of the agent whose turn is next. */
    var index: nat
    /** The indices of the agents selected so far, one per completed selection. */
    ghost var served: seq<nat>

    /**
     The cursor is always where the round-robin schedule from 0 puts it after
     the turns taken so far, and those turns selected exactly that schedule.
     With no agents, no turn ever gets as far as selecting one.
     */
    ghost predicate Valid()
      reads this
    {
      if |agents| == 0 then index == 0 && served == []
      else served == Slots(|agents|, 0, |served|) && index == CursorAfter(|agents|, 0, |served|)
    }

    constructor (agents: seq<A>)
      ensures Valid()
      ensures this.agents == agents && index == 0 && served == []
    {
      this.agents := agents;
      index := 0;
      served := [];
    }

    /**
     One turn: select `agents[index]`, advance the cursor, then run the agent's step.
     With no agents the lookup raises IndexError before anything else happens.
     Otherwise the cursor moves on whatever the step returns, an exception included.
     */
    method NextTurn<M, R>(message: M, step: (A, M) -> Outcome<R>) returns (r: Outcome<R>)
      requires Valid()
      modifies this`index, this`served
      ensures Valid()
      ensures |agents| == 0 ==> r == Raised(IndexError) && index == old(index) && served == old(served)
      ensures |agents| > 0 ==>
        && old(index) < |agents|
        && r == step(agents[old(index)], message)
        && index == Advance(old(index), |agents|)
        && served == old(served) + [old(index)]
    {
      if index >= |agents| {
        return Raised(IndexError);
      }
      var agent := agents[index];
      SlotsSplit(|agents|, 0, |served|, 1);
      served := served + [index];
      index := Advance(index, |agents|);
      r := step(agent, message);
    }
  }

  /** Two agents, three turns: they go to the first, the second, then the first again, and the cursor ends at 1. */
  method TwoAgentScenario() {
    var chat := new RoundRobinGroupChat(["DataFetcher", "Analyst"]);
    var echo := (agent: string, message: string) => Ok(agent);
    var r1 := chat.NextTurn("house_price.csv", echo);
    var r2 := chat.NextTurn("price", echo);
    var r3 := chat.NextTurn("again", echo);
    assert r1 == Ok("DataFetcher") && r2 == Ok("Analyst") && r3 == Ok("DataFetcher");
    assert chat.index == 1;
  }

  /** A single agent whose step fails: the exception reaches the caller and the cursor has still wrapped round. */
  method FailingAgentScenario() {
    var chat := new RoundRobinGroupChat(["Flaky"]);
    var failing: (string, string) -> Outcome<string> := (agent, message) => Raised(External("rate limited"));
    var r := chat.NextTurn("query", failing);
    assert r == Raised(External("rate limited"));
    assert chat.index == 0 && chat.served == [0];
  }
}
