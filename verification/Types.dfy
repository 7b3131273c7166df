/** The values that travel between the queue, the scheduler and the engine
    (include/microvllm/types.hpp, request.hpp, model_engine.hpp). */
module Types {

  type Token = int
  type SeqId = nat
  type BlockId = nat

  datatype Option<+T> = None | Some(value: T)

  datatype FinishReason = Unset | Eos | MaxTokens | StopString | Cancelled | Error | ContextOverflow

  /** Why a sequence failed, in place of the formatted message. */
  datatype Failure =
    | NoFailure
    | TooLongForContext(needed: nat, limit: nat)
    | PoolTooSmall(need: nat, total: nat)
    | NoRoomInBatch
    | Backend

  datatype Sampling = Sampling(temperature: real, topP: real, topK: int, repeatPenalty: real, seed: nat)

  const DEFAULT_SAMPLING := Sampling(0.8, 0.95, 40, 1.1, 0)

  datatype Spec = Spec(prompt: string, stop: seq<string>, maxTokens: nat, sampling: Sampling)

  /** A unit of work. `id` stands for the promise it carries. */
  datatype Request = Request(id: nat, spec: Spec)

  datatype NextToken = NextToken(token: Token, isEog: bool)

  datatype GenStep = GenStep(sid: SeqId, next: NextToken)

  /** One sequence's share of a decode step. */
  datatype BatchItem = BatchItem(sid: SeqId, tokens: seq<Token>, pos0: int, sample: bool)

  /** The terminal and streaming calls a sink receives, in order. */
  datatype SinkEvent =
    | OnText(delta: string)
    | OnFinish(reason: FinishReason, completion: nat)
    | OnError(failure: Failure)

  datatype Result = Result(
    text: string, reason: FinishReason, promptTokens: nat, completionTokens: nat, failure: Failure)

  /** The backend: the next token is a function of the sampling parameters and of the
      tokens that precede it; `hash` is the prefix hash, otherwise opaque. */
  datatype Backend = Backend(
    next: (Sampling, seq<Token>) -> NextToken,
    piece: Token -> string,
    tokenize: string -> seq<Token>,
    hash: seq<Token> -> nat)

  predicate NoDup<T(==)>(s: seq<T>) {
    forall i, j :: 0 <= i < j < |s| ==> s[i] != s[j]
  }

  function Last<T>(s: seq<T>): T
    requires s != []
  {
    s[|s| - 1]
  }

  function DropLast<T>(s: seq<T>): seq<T>
    requires s != []
  {
    s[..|s| - 1]
  }

  function RemoveAt<T>(s: seq<T>, i: nat): seq<T>
    requires i < |s|
  {
    s[..i] + s[i + 1..]
  }

  lemma RemoveAtMembers<T>(s: seq<T>, i: nat)
    requires i < |s| && NoDup(s)
    ensures NoDup(RemoveAt(s, i))
    ensures forall x :: x in RemoveAt(s, i) <==> x in s && x != s[i]
  {
    var r := RemoveAt(s, i);
    assert forall k :: 0 <= k < |r| ==> r[k] == s[if k < i then k else k + 1];
    forall x | x in s && x != s[i]
      ensures x in r
    {
      var k :| 0 <= k < |s| && s[k] == x;
      assert r[if k < i then k else k - 1] == x;
    }
  }

  lemma MapOverwrite<K, V>(m: map<K, V>, k: K, a: V, b: V)
    ensures m[k := a][k := b] == m[k := b]
  {
  }

  function Max(a: nat, b: nat): nat {
    if a < b then b else a
  }
}
