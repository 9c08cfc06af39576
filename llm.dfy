/**
 * The LLaMA2 endpoint as the pipeline sees it: requests go out one at a
 * time, and each comes back as an HTTP reply or fails to connect. Which
 * reply comes back is outside the pipeline's control, so the server is a
 * script of replies handed out in order; it records every request it was
 * sent.
 */
module Llm {
  import opened Wrappers
  import opened Text

  /**
   * The request of each generation stage, reduced to the values its prompt
   * template is filled with (the template text itself is not modelled).
   */
  datatype Prompt =
    | IdeaPrompt(genre: string)
    | ValidationPrompt(genre: string, idea: string)
    | TitlePrompt(genre: string, idea: string)
    | ScenesPrompt(genre: string, numScenes: int, idea: string)
    | ImagePromptsPrompt(genre: string, descriptions: string)

  /**
   * One attempt's outcome: an HTTP status with the `response` field of the
   * JSON body (`None` when the body has no such field), or an exception
   * raised by `requests.post` itself.
   */
  datatype Reply = Http(status: int, response: Option<string>) | ConnectionError

  /** What an attempt contributes: the stripped text of a 200 reply that carries a `response`; anything else makes it fail. */
  function Answer(r: Reply): (a: Option<string>)
    ensures a.Some? <==> r.Http? && r.status == 200 && r.response.Some?
    ensures a.Some? ==> a.value == Trim(r.response.value)
  {
    if r.Http? && r.status == 200 && r.response.Some? then Some(Trim(r.response.value)) else None
  }

  /** The reply to the `k`-th request from now; once the script runs out, connections fail. */
  function ReplyAt(script: seq<Reply>, k: nat): Reply {
    if k < |script| then script[k] else ConnectionError
  }

  /** The script once `k` requests have been answered. */
  function Drop(script: seq<Reply>, k: nat): seq<Reply> {
    if k <= |script| then script[k..] else []
  }

  function Repeat(p: Prompt, k: nat): (r: seq<Prompt>)
    ensures |r| == k && forall i :: 0 <= i < k ==> r[i] == p
  {
    seq(k, _ => p)
  }

  /** Answering one more request from the script left after `k` is answering request `k` of the whole script. */
  lemma DropAdvance(script: seq<Reply>, k: nat)
    ensures ReplyAt(Drop(script, k), 0) == ReplyAt(script, k)
    ensures Drop(Drop(script, k), 1) == Drop(script, k + 1)
  {
  }

  /** The pipeline stage a request belongs to, in the order `create_story` runs them. */
  function StageOf(p: Prompt): nat {
    match p
    case IdeaPrompt(_) => 0
    case ValidationPrompt(_, _) => 1
    case TitlePrompt(_, _) => 2
    case ScenesPrompt(_, _, _) => 3
    case ImagePromptsPrompt(_, _) => 4
  }

  /** Requests of an earlier stage never follow requests of a later one. */
  predicate StagesInOrder(ps: seq<Prompt>) {
    forall i, j :: 0 <= i < j < |ps| ==> StageOf(ps[i]) <= StageOf(ps[j])
  }

  /** In order, and nothing later than stage `s`. */
  predicate StagesUpTo(ps: seq<Prompt>, s: nat) {
    StagesInOrder(ps) && (ps != [] ==> StageOf(ps[|ps| - 1]) <= s)
  }

  /** Repeating a request of a stage no earlier than any request sent so far keeps the stages in order. */
  lemma StagesInOrderAppend(ps: seq<Prompt>, s: nat, p: Prompt, k: nat)
    requires StagesUpTo(ps, s) && s <= StageOf(p)
    ensures StagesUpTo(ps + Repeat(p, k), StageOf(p))
  {
    var qs := ps + Repeat(p, k);
    forall i, j | 0 <= i < j < |qs| ensures StageOf(qs[i]) <= StageOf(qs[j]) {
      if j >= |ps| {
        assert qs[j] == p;
        if i < |ps| {
          assert StageOf(ps[i]) <= StageOf(ps[|ps| - 1]);
        } else {
          assert qs[i] == p;
        }
      }
    }
    if k > 0 {
      assert qs[|qs| - 1] == p;
    } else {
      assert qs == ps;
    }
  }

  /** Copies of one request are in stage order. */
  lemma RepeatInOrder(p: Prompt, k: nat)
    ensures StagesUpTo(Repeat(p, k), StageOf(p))
  {
    StagesInOrderAppend([], StageOf(p), p, k);
    assert [] + Repeat(p, k) == Repeat(p, k);
  }

  /** A request is among `k` copies of `q` exactly when it is `q` and there is at least one copy. */
  lemma InRepeat(p: Prompt, q: Prompt, k: nat)
    ensures p in Repeat(q, k) <==> k > 0 && p == q
  {
    if k > 0 {
      assert Repeat(q, k)[0] == q;
    }
  }

  /** Taking `a` replies, then `b` more, is taking `a + b`. */
  lemma DropDrop(script: seq<Reply>, a: nat, b: nat)
    ensures Drop(Drop(script, a), b) == Drop(script, a + b)
  {
  }

  /** The server: replies still to come, and the requests received so far. */
  class Ollama {
    var pending: seq<Reply>
    var received: seq<Prompt>

    constructor(script: seq<Reply>)
      ensures pending == script && received == []
    {
      pending := script;
      received := [];
    }

    /** `requests.post(OLLAMA_URL, json={"model": MODEL_NAME, "prompt": prompt, "stream": False})`. */
    method Post(prompt: Prompt) returns (r: Reply)
      modifies this
      ensures received == old(received) + [prompt]
      ensures r == ReplyAt(old(pending), 0) && pending == Drop(old(pending), 1)
    {
      received := received + [prompt];
      if pending == [] {
        r := ConnectionError;
      } else {
        r := pending[0];
        pending := pending[1..];
      }
    }
  }

  /** The result of the retry loop: the first answer and the attempts it took, or giving up after the given attempts. */
  datatype Outcome = Answered(text: string, attempts: nat) | GaveUp(attempts: nat)

  /** The retry loop run from attempt `k` on, with `budget` attempts in all. */
  function QueryFrom(script: seq<Reply>, budget: nat, k: nat): Outcome
    decreases budget - k
  {
    if k >= budget then GaveUp(k)
    else match Answer(ReplyAt(script, k))
      case Some(text) => Answered(text, k + 1)
      case None => QueryFrom(script, budget, k + 1)
  }

  /** `for attempt in range(max_retries)`: a negative count makes no attempt at all. */
  function Budget(maxRetries: int): nat {
    if maxRetries < 0 then 0 else maxRetries
  }

  /** The retry loop as a whole, against the replies the server has in store. */
  function Query(script: seq<Reply>, budget: nat): Outcome {
    QueryFrom(script, budget, 0)
  }

  /** From attempt `k` on, the loop gives up, having made every attempt, exactly when no reply before `budget` succeeds. */
  lemma {:induction false} QueryFromGivesUp(script: seq<Reply>, budget: nat, k: nat)
    requires k <= budget
    ensures QueryFrom(script, budget, k).GaveUp? <==> forall j :: k <= j < budget ==> Answer(ReplyAt(script, j)).None?
    ensures QueryFrom(script, budget, k).GaveUp? ==> QueryFrom(script, budget, k).attempts == budget
    decreases budget - k
  {
    if k < budget && Answer(ReplyAt(script, k)).None? {
      QueryFromGivesUp(script, budget, k + 1);
    }
  }

  /** From attempt `k` on, an answer is the first successful reply at or after `k`, and the attempts stop there. */
  lemma {:induction false} QueryFromAnswers(script: seq<Reply>, budget: nat, k: nat)
    requires k <= budget && QueryFrom(script, budget, k).Answered?
    ensures var o := QueryFrom(script, budget, k);
            && k < o.attempts <= budget
            && Answer(ReplyAt(script, o.attempts - 1)) == Some(o.text)
            && forall j :: k <= j < o.attempts - 1 ==> Answer(ReplyAt(script, j)).None?
    decreases budget - k
  {
    if Answer(ReplyAt(script, k)).None? {
      QueryFromAnswers(script, budget, k + 1);
    }
  }

  /**
   * `query_llama2` makes at most `budget` attempts; it returns the stripped
   * text of the first 200 reply, and raises only after `budget` failed
   * attempts, at once when the budget is zero.
   */
  lemma QuerySpec(script: seq<Reply>, budget: nat)
    ensures var o := Query(script, budget);
            && o.attempts <= budget
            && (o.GaveUp? <==> forall j :: 0 <= j < budget ==> Answer(ReplyAt(script, j)).None?)
            && (o.GaveUp? ==> o.attempts == budget)
            && (o.Answered? ==> 1 <= o.attempts
                                && Answer(ReplyAt(script, o.attempts - 1)) == Some(o.text)
                                && forall j :: 0 <= j < o.attempts - 1 ==> Answer(ReplyAt(script, j)).None?)
            && (budget == 0 ==> o == GaveUp(0))
  {
    QueryFromGivesUp(script, budget, 0);
    if Query(script, budget).Answered? {
      QueryFromAnswers(script, budget, 0);
    }
  }

  /** Whether the server answers depends only on the replies within the budget. */
  lemma QueryIgnoresLaterReplies(s: seq<Reply>, t: seq<Reply>, budget: nat)
    requires forall j :: 0 <= j < budget ==> ReplyAt(s, j) == ReplyAt(t, j)
    ensures Query(s, budget) == Query(t, budget)
  {
    QueryFromAgree(s, t, budget, 0);
  }

  lemma {:induction false} QueryFromAgree(s: seq<Reply>, t: seq<Reply>, budget: nat, k: nat)
    requires forall j :: 0 <= j < budget ==> ReplyAt(s, j) == ReplyAt(t, j)
    ensures QueryFrom(s, budget, k) == QueryFrom(t, budget, k)
    decreases budget - k
  {
    if k < budget {
      QueryFromAgree(s, t, budget, k + 1);
    }
  }
}
