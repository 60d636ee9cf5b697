/**
 The FAQ chatbot: a placeholder embedding, the construction of the FAQ
 entries put into the vector store, a retriever that turns the store's nested
 reply into one context string, a responder that frames context and question
 for the model, the query handler that chains the two, and a round-robin
 group chat that keeps an unbounded turn counter.

 The vector store's nearest-neighbour query and the generative model are
 parameters: `Collection` answers a query request, `Model` answers a prompt,
 and either may raise.
 */
module FaqChatbotWithRag {
  import opened Outcomes
  import opened Strings
  import opened RoundRobin

  /** The dimension of every embedding. */
  const EmbeddingDim: nat := 128

  /** `[0.0] * k`, which is empty for any k <= 0. */
  function Zeros(k: int): (z: seq<int>)
    ensures |z| == if k <= 0 then 0 else k
    ensures forall i :: 0 <= i < |z| ==> z[i] == 0
  {
    if k <= 0 then [] else seq(k, _ => 0)
  }

  /** The code point of every character of `text`, in order. */
  function CodePoints(text: string): (v: seq<int>)
    ensures |v| == |text|
    ensures forall i :: 0 <= i < |text| ==> v[i] == text[i] as int
  {
    seq(|text|, i requires 0 <= i < |text| => text[i] as int)
  }

  /**
   The placeholder embedding: the code points of the text cut to 128, then
   `128 - len(text)` zeros. It always has 128 entries: the code points of the
   first 128 characters, then zeros.
   */
  function Embed(text: string): (v: seq<int>)
    ensures |v| == EmbeddingDim
    ensures forall i :: 0 <= i < EmbeddingDim ==> v[i] == if i < |text| then text[i] as int else 0
  {
    Take(CodePoints(text), EmbeddingDim) + Zeros(EmbeddingDim - |text|)
  }

  /** Texts that agree on their first 128 characters share an embedding. */
  lemma EmbedSeesOnlyPrefix(a: string, b: string)
    requires Take(a, EmbeddingDim) == Take(b, EmbeddingDim)
    ensures Embed(a) == Embed(b)
  {
    var ea, eb := Embed(a), Embed(b);
    forall i | 0 <= i < EmbeddingDim
      ensures ea[i] == eb[i]
    {
      if i < |a| {
        assert Take(a, EmbeddingDim)[i] == a[i];
        assert Take(b, EmbeddingDim)[i] == b[i];
      }
    }
  }

  datatype FaqItem = FaqItem(id: string, question: string, answer: string)

  /** One `collection.add` call: the document, its id and its embedding. */
  datatype IndexEntry = IndexEntry(id: string, document: string, embedding: seq<int>)

  /** The two FAQ items the chatbot indexes. */
  const FaqData: seq<FaqItem> := [
    FaqItem("1", "How do I reset my password?", "Go to settings > reset password."),
    FaqItem("2", "What is the refund policy?", "Refunds are allowed within 30 days.")
  ]

  /**
   The entry stored for one FAQ item: the document is question, a space, and
   answer, so both can be read back from it; the id is the item's; the
   embedding is over question and answer joined WITHOUT the space.
   */
  function EntryFor(item: FaqItem): (e: IndexEntry)
    ensures e.id == item.id
    ensures Unwrap(item.question + " ", "", e.document) == Some(item.answer)
    ensures Unwrap("", " " + item.answer, e.document) == Some(item.question)
    ensures e.embedding == Embed(item.question + item.answer)
  {
    var doc := item.question + " " + item.answer;
    UnwrapWrap(item.question + " ", item.answer, "");
    UnwrapWrap("", item.question, " " + item.answer);
    assert item.question + " " + item.answer + "" == doc;
    assert "" + item.question + (" " + item.answer) == doc;
    IndexEntry(item.id, doc, Embed(item.question + item.answer))
  }

  /** `populate_faq`: one `collection.add` per item, in order; returns the entries added. */
  method PopulateFaq(items: seq<FaqItem>) returns (added: seq<IndexEntry>)
    ensures |added| == |items|
    ensures forall i :: 0 <= i < |items| ==> added[i] == EntryFor(items[i])
  {
    added := [];
    for k := 0 to |items|
      invariant |added| == k
      invariant forall i :: 0 <= i < k ==> added[i] == EntryFor(items[i])
    {
      added := added + [EntryFor(items[k])];
    }
  }

  /**
   The embedding stored for the first FAQ item starts with the code points of
   its 27-character question, continues into its 32-character answer with no
   space, and is zero from position 59 on.
   */
  lemma FirstFaqEmbedding()
    ensures EntryFor(FaqData[0]).embedding[0] == 'H' as int
    ensures EntryFor(FaqData[0]).embedding[27] == 'G' as int
    ensures forall i :: 59 <= i < EmbeddingDim ==> EntryFor(FaqData[0]).embedding[i] == 0
  {
    var item := FaqData[0];
    var text := item.question + item.answer;
    assert |item.question| == 27 && |item.answer| == 32;
    assert text[0] == 'H' && text[27] == 'G';
  }

  /** Indexing the chatbot's own FAQ data: two entries, ids "1" and "2", the first document's answer read back after its question and a space. */
  method PopulateFaqScenario() {
    var added := PopulateFaq(FaqData);
    assert |added| == 2;
    assert added[0].id == "1" && added[1].id == "2";
    assert Unwrap("How do I reset my password?" + " ", "", added[0].document) == Some("Go to settings > reset password.");
  }

  // ---------------------------------------------------------------- retrieval

  /** `collection.query(query_embeddings=..., n_results=...)`. */
  datatype QueryRequest = QueryRequest(queryEmbeddings: seq<seq<int>>, nResults: int)

  /** The `documents` field of the store's reply: one list per query embedding, nearest first. */
  datatype QueryResult = QueryResult(documents: seq<seq<string>>)

  /** The vector store's nearest-neighbour search, which may raise. */
  type Collection = QueryRequest -> Outcome<QueryResult>

  /** The generative model, which may raise. */
  type Model = string -> Outcome<string>

  const DefaultTopK := 3

  /** The request `retrieve` sends: the one embedded query, asking for `topK` results. */
  function RetrievalRequest(query: string, topK: int): (req: QueryRequest)
    ensures |req.queryEmbeddings| == 1 && req.queryEmbeddings[0] == Embed(query)
    ensures |req.queryEmbeddings[0]| == EmbeddingDim
    ensures req.nResults == topK
  {
    QueryRequest([Embed(query)], topK)
  }

  /** `[doc for sublist in nested for doc in sublist]`. */
  function Flatten(nested: seq<seq<string>>): (docs: seq<string>)
    ensures forall i, j :: 0 <= i < |nested| && 0 <= j < |nested[i]| ==> nested[i][j] in docs
    ensures forall d :: d in docs ==> exists i :: 0 <= i < |nested| && d in nested[i]
    ensures |nested| == 1 ==> docs == nested[0]
  {
    if nested == [] then [] else nested[0] + Flatten(nested[1..])
  }

  /** Flattening keeps every inner list in place: the outer list may be cut anywhere. */
  lemma {:induction false} FlattenAppend(xs: seq<seq<string>>, ys: seq<seq<string>>)
    ensures Flatten(xs + ys) == Flatten(xs) + Flatten(ys)
  {
    if xs != [] {
      assert (xs + ys)[0] == xs[0];
      assert (xs + ys)[1..] == xs[1..] + ys;
      FlattenAppend(xs[1..], ys);
      assert Flatten(xs + ys) == xs[0] + (Flatten(xs[1..]) + Flatten(ys));
    } else {
      assert xs + ys == ys;
    }
  }

  /** Each document of the nested result appears in the flattened list at its running offset. */
  lemma {:induction false} FlattenAt(nested: seq<seq<string>>, i: nat, j: nat)
    requires i < |nested| && j < |nested[i]|
    ensures |Flatten(nested[..i])| + j < |Flatten(nested)|
    ensures Flatten(nested)[|Flatten(nested[..i])| + j] == nested[i][j]
  {
    assert nested == nested[..i] + nested[i..];
    FlattenAppend(nested[..i], nested[i..]);
    assert nested[i..][1..] == nested[i + 1..];
  }

  /** `"\n".join(docs)`. */
  function JoinLines(docs: seq<string>): (s: string)
    ensures docs == [] ==> s == ""
    ensures |docs| == 1 ==> s == docs[0]
  {
    if docs == [] then ""
    else if |docs| == 1 then docs[0]
    else docs[0] + "\n" + JoinLines(docs[1..])
  }

  /** The joined text starts with the first document and ends with the last. */
  lemma {:induction false} JoinLinesEnds(docs: seq<string>)
    requires docs != []
    ensures |docs[0]| <= |JoinLines(docs)| && JoinLines(docs)[..|docs[0]|] == docs[0]
    ensures
      var s, last := JoinLines(docs), docs[|docs| - 1];
      |last| <= |s| && s[|s| - |last|..] == last
    decreases |docs|
  {
    if |docs| > 1 {
      var rest := JoinLines(docs[1..]);
      JoinLinesEnds(docs[1..]);
      assert docs[1..][|docs[1..]| - 1] == docs[|docs| - 1];
      var s := docs[0] + "\n" + rest;
      assert s[|s| - |rest|..] == rest;
    }
  }

  /** Joining two non-empty runs of documents puts exactly one newline between them. */
  lemma {:induction false} JoinLinesAppend(xs: seq<string>, ys: seq<string>)
    requires xs != [] && ys != []
    ensures JoinLines(xs + ys) == JoinLines(xs) + "\n" + JoinLines(ys)
    decreases |xs|
  {
    assert (xs + ys)[0] == xs[0];
    if |xs| == 1 {
      assert (xs + ys)[1..] == ys;
    } else {
      assert (xs + ys)[1..] == xs[1..] + ys;
      JoinLinesAppend(xs[1..], ys);
    }
  }

  /** `s.split("\n")`: always at least one piece, `[""]` for the empty string. */
  function SplitLines(s: string): (parts: seq<string>)
    ensures |parts| >= 1
    decreases |s|
  {
    if s == [] then [""]
    else if s[0] == '\n' then [""] + SplitLines(s[1..])
    else
      var rest := SplitLines(s[1..]);
      [[s[0]] + rest[0]] + rest[1..]
  }

  predicate NoNewlines(docs: seq<string>)
  {
    forall i :: 0 <= i < |docs| ==> '\n' !in docs[i]
  }

  /** A line without a newline, followed by anything, stays glued to the first piece of what follows. */
  lemma {:induction false} SplitLinesPrefix(line: string, tail: string)
    requires '\n' !in line
    ensures SplitLines(line + tail) == [line + SplitLines(tail)[0]] + SplitLines(tail)[1..]
    decreases |line|
  {
    var t := SplitLines(tail);
    if line != [] {
      assert (line + tail)[0] == line[0];
      assert (line + tail)[1..] == line[1..] + tail;
      SplitLinesPrefix(line[1..], tail);
      var rest := SplitLines(line[1..] + tail);
      assert rest[0] == line[1..] + t[0] && rest[1..] == t[1..];
      assert [line[0]] + (line[1..] + t[0]) == line + t[0];
    } else {
      assert line + tail == tail;
      assert line + t[0] == t[0];
      assert t == [t[0]] + t[1..];
    }
  }

  /** Splitting the joined context at newlines gives back the documents, when none of them holds a newline. */
  lemma {:induction false} SplitJoin(docs: seq<string>)
    requires docs != [] && NoNewlines(docs)
    ensures SplitLines(JoinLines(docs)) == docs
    decreases |docs|
  {
    if |docs| == 1 {
      SplitLinesPrefix(docs[0], "");
      assert docs[0] + "" == docs[0];
    } else {
      var rest := JoinLines(docs[1..]);
      assert JoinLines(docs) == docs[0] + ("\n" + rest);
      SplitJoin(docs[1..]);
      assert ("\n" + rest)[0] == '\n' && ("\n" + rest)[1..] == rest;
      assert SplitLines("\n" + rest) == [""] + docs[1..];
      SplitLinesPrefix(docs[0], "\n" + rest);
      assert docs[0] + "" == docs[0];
      assert docs == [docs[0]] + docs[1..];
    }
  }

  /**
   `RAGRetriever.retrieve`: embed the query, ask the store for `topK`
   results, flatten the nested documents in order and join them with
   newlines. A failing store call propagates unchanged.
   */
  function Retrieve(collection: Collection, query: string, topK: int): (context: Outcome<string>)
    ensures collection(RetrievalRequest(query, topK)).Raised? ==>
      context == Raised(collection(RetrievalRequest(query, topK)).error)
    ensures collection(RetrievalRequest(query, topK)).Ok? ==>
      var docs := Flatten(collection(RetrievalRequest(query, topK)).value.documents);
      && context == Ok(JoinLines(docs))
      && (docs != [] && NoNewlines(docs) ==> SplitLines(context.value) == docs)
  {
    match collection(RetrievalRequest(query, topK))
    case Raised(e) => Raised(e)
    case Ok(result) =>
      var docs := Flatten(result.documents);
      if docs != [] && NoNewlines(docs) then SplitJoin(docs); Ok(JoinLines(docs))
      else Ok(JoinLines(docs))
  }

  // ---------------------------------------------------------------- response

  const ContextLabel := "Context: "
  const QuestionLabel := "\n\nQuestion: "

  /**
   The responder's prompt: the context under "Context: ", then a blank line,
   then the query under "Question: ". Knowing the query, the context can be
   read back exactly; knowing the context, so can the query.
   */
  function ResponderPrompt(query: string, context: string): (prompt: string)
    ensures Unwrap(ContextLabel, QuestionLabel + query, prompt) == Some(context)
    ensures Unwrap(ContextLabel + context + QuestionLabel, "", prompt) == Some(query)
  {
    var p := ContextLabel + context + QuestionLabel + query;
    UnwrapWrap(ContextLabel, context, QuestionLabel + query);
    UnwrapWrap(ContextLabel + context + QuestionLabel, query, "");
    assert ContextLabel + context + (QuestionLabel + query) == p;
    assert p + "" == p;
    p
  }

  /**
   `GeminiResponder.respond`: the model answers the framed prompt and its text
   is returned as it is, not trimmed; a model failure propagates.
   */
  function Respond(model: Model, query: string, context: string): (answer: Outcome<string>)
    ensures answer.Ok? <==> model(ResponderPrompt(query, context)).Ok?
    ensures answer.Ok? ==> answer.value == model(ResponderPrompt(query, context)).value
    ensures model(ResponderPrompt(query, context)).Raised? ==> answer == model(ResponderPrompt(query, context))
  {
    model(ResponderPrompt(query, context))
  }

  /** `QueryHandler`: a retriever over a collection, and a responder over a model. */
  datatype QueryHandler = QueryHandler(collection: Collection, model: Model)
  {
    /**
     `handle`: retrieval first, with the default `top_k`; its context goes to
     the responder unchanged. A retrieval failure propagates and the model is
     never consulted.
     */
    function Handle(query: string): (answer: Outcome<string>)
      ensures Retrieve(collection, query, DefaultTopK).Raised? ==>
        answer == Raised(Retrieve(collection, query, DefaultTopK).error)
      ensures Retrieve(collection, query, DefaultTopK).Ok? ==>
        answer == Respond(model, query, Retrieve(collection, query, DefaultTopK).value)
    {
      match Retrieve(collection, query, DefaultTopK)
      case Raised(e) => Raised(e)
      case Ok(context) => Respond(model, query, context)
    }
  }

  /** When retrieval fails, what the handler returns does not depend on the model. */
  lemma HandleRetrievalFailureSkipsModel(collection: Collection, m1: Model, m2: Model, query: string)
    requires collection(RetrievalRequest(query, DefaultTopK)).Raised?
    ensures QueryHandler(collection, m1).Handle(query) == QueryHandler(collection, m2).Handle(query)
    ensures QueryHandler(collection, m1).Handle(query).Raised?
  {
  }

  /**
   The handler's answer depends on the store only through the reply to the
   query's own request: two stores that answer that request alike give the
   same answer, whatever they answer to other queries.
   */
  lemma HandleDependsOnOwnRequest(c1: Collection, c2: Collection, model: Model, query: string)
    requires c1(RetrievalRequest(query, DefaultTopK)) == c2(RetrievalRequest(query, DefaultTopK))
    ensures QueryHandler(c1, model).Handle(query) == QueryHandler(c2, model).Handle(query)
  {
  }

  /**
   The model is asked about exactly what was retrieved: once the store
   answers, the handler's answer is the model's reply to the prompt over the
   newline-joined documents; when none of them holds a newline, that context
   splits back into those documents, in order.
   */
  lemma HandleGroundsOnRetrievedDocs(collection: Collection, model: Model, query: string)
    requires collection(RetrievalRequest(query, DefaultTopK)).Ok?
    ensures
      var docs := Flatten(collection(RetrievalRequest(query, DefaultTopK)).value.documents);
      && QueryHandler(collection, model).Handle(query) == model(ResponderPrompt(query, JoinLines(docs)))
      && (docs != [] && NoNewlines(docs) ==> SplitLines(JoinLines(docs)) == docs)
  {
    var docs := Flatten(collection(RetrievalRequest(query, DefaultTopK)).value.documents);
    if docs != [] && NoNewlines(docs) {
      SplitJoin(docs);
    }
  }

  // ---------------------------------------------------------------- group chat

  /**
   The chatbot's round-robin group chat: an unbounded counter, reduced modulo
   the number of agents when an agent is selected.
   */
  class RoundRobinGroupChat<A> {
    /** The participants, in turn order; never reassigned after construction. */
    const agents: seq<A>
    /** How many turns have selected an agent so far. */
    var index: nat
    /** The indices of the agents selected so far. */
    ghost var served: seq<nat>

    ghost predicate Valid()
      reads this
    {
      && |served| == index
      && (|agents| == 0 ==> index == 0)
      && (|agents| > 0 ==> served == CounterSlots(|agents|, 0, index))
    }

    constructor (agents: seq<A>)
      ensures Valid()
      ensures this.agents == agents && index == 0 && served == []
    {
      this.agents := agents;
      index := 0;
      served := [];
    }

    /**
     `chat`: select `agents[index % n]`, count the turn, then let the agent
     handle the query. With no agents the modulo raises ZeroDivisionError and
     the counter is left alone; otherwise the turn is counted whatever the
     agent returns.
     */
    method Chat<R>(query: string, handle: (A, string) -> Outcome<R>) returns (r: Outcome<R>)
      requires Valid()
      modifies this`index, this`served
      ensures Valid()
      ensures |agents| == 0 ==> r == Raised(ZeroDivisionError) && index == old(index) && served == old(served)
      ensures |agents| > 0 ==>
        && r == handle(agents[old(index) % |agents|], query)
        && index == old(index) + 1
        && served == old(served) + [old(index) % |agents|]
    {
      if |agents| == 0 {
        return Raised(ZeroDivisionError);
      }
      var agent := agents[index % |agents|];
      served := served + [index % |agents|];
      index := index + 1;
      r := handle(agent, query);
    }
  }

  /** The chatbot's own set-up: one query handler, asked two questions; both go to it. */
  method SingleHandlerScenario(collection: Collection, model: Model) {
    var handler := QueryHandler(collection, model);
    var chat := new RoundRobinGroupChat([handler]);
    var handle := (h: QueryHandler, q: string) => h.Handle(q);
    var a1 := chat.Chat("How can I change my password?", handle);
    var a2 := chat.Chat("Tell me about the refund rules.", handle);
    assert a1 == handler.Handle("How can I change my password?");
    assert a2 == handler.Handle("Tell me about the refund rules.");
    assert chat.served == [0, 0];
  }
}
